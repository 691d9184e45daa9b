// Properties of the expansion over a whole list of template ids: when it
// fails and with which error, how many indicators come out, and which
// identifiers the output carries.
module ExpansionFacts {
  import opened Records
  import opened Identifiers
  import opened Generation
  import opened GenerationFacts
  import Config

  // ---- the template lookups ----

  /** All templates are found exactly when the first is and all the later ones are. */
  lemma AllFoundCons(templateIds: seq<string>, indicators: seq<Indicator>)
    requires templateIds != []
    ensures AllFound(templateIds, indicators)
        <==> FindTemplate(indicators, templateIds[0]).Found? && AllFound(templateIds[1..], indicators)
  {
    if FindTemplate(indicators, templateIds[0]).Found? && AllFound(templateIds[1..], indicators) {
      forall i | 0 <= i < |templateIds|
        ensures FindTemplate(indicators, templateIds[i]).Found?
      {
        if i > 0 {
          assert templateIds[i] == templateIds[1..][i - 1];
        }
      }
    }
    if AllFound(templateIds, indicators) {
      forall i | 0 <= i < |templateIds| - 1
        ensures FindTemplate(indicators, templateIds[1..][i]).Found?
      {
        assert templateIds[1..][i] == templateIds[i + 1];
      }
    }
  }

  /** Position `p` holds the first template id that is not in the snapshot. */
  predicate FirstMissingAt(templateIds: seq<string>, indicators: seq<Indicator>, p: nat) {
    p < |templateIds|
    && FindTemplate(indicators, templateIds[p]).Missing?
    && forall i :: 0 <= i < p ==> FindTemplate(indicators, templateIds[i]).Found?
  }

  /** A first missing position of the later ids is one further on in the whole list. */
  lemma FirstMissingShift(templateIds: seq<string>, indicators: seq<Indicator>, p: nat)
    requires templateIds != [] && FindTemplate(indicators, templateIds[0]).Found?
    requires FirstMissingAt(templateIds[1..], indicators, p)
    ensures FirstMissingAt(templateIds, indicators, p + 1)
    ensures templateIds[p + 1] == templateIds[1..][p]
  {
    forall i | 0 <= i < p + 1
      ensures FindTemplate(indicators, templateIds[i]).Found?
    {
      if i > 0 {
        assert templateIds[i] == templateIds[1..][i - 1];
      }
    }
  }

  // ---- success and failure ----

  /** find throws for a missing template and flatMap lets the exception
      through: the expansion succeeds exactly when every template is found,
      and otherwise reports the first id that is not. */
  lemma {:induction false} ExpandOutcome(templateIds: seq<string>, indicators: seq<Indicator>, vs: seq<Variant>,
                                         cfg: Config.Settings, pool: seq<string>, at: nat,
                                         clock: nat -> string, k: nat)
    requires CanDraw(pool, at, Demand(templateIds, indicators, |vs|))
    ensures Expand(templateIds, indicators, vs, cfg, pool, at, clock, k).Ok? <==> AllFound(templateIds, indicators)
    ensures Expand(templateIds, indicators, vs, cfg, pool, at, clock, k).Err? ==>
              exists p: nat :: FirstMissingAt(templateIds, indicators, p)
                          && Expand(templateIds, indicators, vs, cfg, pool, at, clock, k).error
                             == TemplateNotFound(templateIds[p])
    decreases |templateIds|
  {
    if templateIds != [] {
      AllFoundCons(templateIds, indicators);
      match FindTemplate(indicators, templateIds[0])
      case Missing =>
        assert FirstMissingAt(templateIds, indicators, 0);
      case Found(t) =>
        var next := at + Draws(|vs|, Cost(t));
        ExpandOutcome(templateIds[1..], indicators, vs, cfg, pool, next, clock, k + |vs|);
        var rest := Expand(templateIds[1..], indicators, vs, cfg, pool, next, clock, k + |vs|);
        if rest.Err? {
          var p: nat :| FirstMissingAt(templateIds[1..], indicators, p) && rest.error == TemplateNotFound(templateIds[1..][p]);
          FirstMissingShift(templateIds, indicators, p);
        }
    }
  }

  // ---- the output ----

  /** A found first template puts its chunk in front of the later templates' output. */
  lemma ExpandFound(templateIds: seq<string>, indicators: seq<Indicator>, vs: seq<Variant>,
                    cfg: Config.Settings, pool: seq<string>, at: nat,
                    clock: nat -> string, k: nat, t: Indicator, next: nat)
    requires CanDraw(pool, at, Demand(templateIds, indicators, |vs|))
    requires templateIds != [] && FindTemplate(indicators, templateIds[0]) == Found(t)
    requires next == at + Draws(|vs|, Cost(t))
    ensures CanDraw(pool, at, Draws(|vs|, Cost(t)))
    ensures CanDraw(pool, next, Demand(templateIds[1..], indicators, |vs|))
    ensures Expand(templateIds, indicators, vs, cfg, pool, at, clock, k)
         == Prepend(DeriveAll(t, vs, cfg, pool, at, clock, k),
                    Expand(templateIds[1..], indicators, vs, cfg, pool, next, clock, k + |vs|))
  {
  }

  /** A successful run whose first template is found: its output is that
      template's chunk followed by the later templates' successful output. */
  lemma ExpandFoundOk(templateIds: seq<string>, indicators: seq<Indicator>, vs: seq<Variant>,
                      cfg: Config.Settings, pool: seq<string>, at: nat,
                      clock: nat -> string, k: nat, t: Indicator, next: nat, out: seq<Indicator>)
    requires CanDraw(pool, at, Demand(templateIds, indicators, |vs|))
    requires templateIds != [] && FindTemplate(indicators, templateIds[0]) == Found(t)
    requires next == at + Draws(|vs|, Cost(t))
    requires Expand(templateIds, indicators, vs, cfg, pool, at, clock, k) == Ok(out)
    ensures Demand(templateIds, indicators, |vs|) == Draws(|vs|, Cost(t)) + Demand(templateIds[1..], indicators, |vs|)
    ensures CanDraw(pool, at, Draws(|vs|, Cost(t)))
    ensures CanDraw(pool, next, Demand(templateIds[1..], indicators, |vs|))
    ensures Expand(templateIds[1..], indicators, vs, cfg, pool, next, clock, k + |vs|).Ok?
    ensures out == DeriveAll(t, vs, cfg, pool, at, clock, k)
                   + Expand(templateIds[1..], indicators, vs, cfg, pool, next, clock, k + |vs|).value
  {
    ExpandFound(templateIds, indicators, vs, cfg, pool, at, clock, k, t, next);
  }

  /** n * m + m, the count after one more template. */
  lemma MulStep(n: nat, m: nat, total: nat)
    requires total == n + 1
    ensures m + n * m == total * m
  {
  }

  /** flatMap over the templates: every template contributes one indicator per variant. */
  lemma {:induction false} ExpandCount(templateIds: seq<string>, indicators: seq<Indicator>, vs: seq<Variant>,
                                       cfg: Config.Settings, pool: seq<string>, at: nat,
                                       clock: nat -> string, k: nat, out: seq<Indicator>)
    requires CanDraw(pool, at, Demand(templateIds, indicators, |vs|))
    requires Expand(templateIds, indicators, vs, cfg, pool, at, clock, k) == Ok(out)
    ensures |out| == |templateIds| * |vs|
    decreases |templateIds|
  {
    if templateIds != [] {
      match FindTemplate(indicators, templateIds[0])
      case Found(t) =>
        var next := at + Draws(|vs|, Cost(t));
        ExpandFoundOk(templateIds, indicators, vs, cfg, pool, at, clock, k, t, next, out);
        var rest := Expand(templateIds[1..], indicators, vs, cfg, pool, next, clock, k + |vs|);
        ExpandCount(templateIds[1..], indicators, vs, cfg, pool, next, clock, k + |vs|, rest.value);
        MulStep(|templateIds| - 1, |vs|, |templateIds|);
    }
  }

  /** Two outputs that carry adjacent runs of pool entries carry the joined run
      when concatenated. */
  lemma IdsJoin(out: seq<Indicator>, chunk: seq<Indicator>, later: seq<Indicator>, pool: seq<string>,
                first: nat, c: nat, mid: nat, len: nat, total: nat)
    requires out == chunk + later
    requires mid == first + c && total == c + len && first + total <= |pool|
    requires IdsOf(chunk) == Window(pool, first, c) && IdsOf(later) == Window(pool, mid, len)
    ensures IdsOf(out) == Window(pool, first, total)
  {
    IdsOfAppend(chunk, later);
    WindowsAdjoin(pool, first, c, mid, len, total);
  }

  /** One template's chunk followed by an output carrying the pool entries
      after the chunk's carries the entries from the counter on. */
  lemma ExpandIdsStep(t: Indicator, vs: seq<Variant>, cfg: Config.Settings, pool: seq<string>, at: nat,
                      clock: nat -> string, k: nat, chunk: seq<Indicator>, later: seq<Indicator>,
                      out: seq<Indicator>, c: nat, len: nat, total: nat)
    requires c == Draws(|vs|, Cost(t)) && total == c + len && at + total < |pool|
    requires chunk == DeriveAll(t, vs, cfg, pool, at, clock, k)
    requires out == chunk + later
    requires IdsOf(later) == Window(pool, at + c + 1, len)
    ensures IdsOf(out) == Window(pool, at + 1, total)
  {
    DeriveAllIds(t, vs, cfg, pool, at, clock, k);
    IdsJoin(out, chunk, later, pool, at + 1, c, at + c + 1, len, total);
  }

  /** The whole output carries, indicator by indicator and each indicator's
      own id before its boundaries', exactly the Demand pool entries after
      the counter's starting point: uniqueId's values at + 1, at + 2, ... */
  lemma {:induction false} ExpandIds(templateIds: seq<string>, indicators: seq<Indicator>, vs: seq<Variant>,
                                     cfg: Config.Settings, pool: seq<string>, at: nat,
                                     clock: nat -> string, k: nat, out: seq<Indicator>)
    requires at + Demand(templateIds, indicators, |vs|) < |pool|
    requires Expand(templateIds, indicators, vs, cfg, pool, at, clock, k) == Ok(out)
    ensures IdsOf(out) == Window(pool, at + 1, Demand(templateIds, indicators, |vs|))
    decreases |templateIds|
  {
    if templateIds != [] {
      match FindTemplate(indicators, templateIds[0])
      case Found(t) =>
        var next := at + Draws(|vs|, Cost(t));
        ExpandFoundOk(templateIds, indicators, vs, cfg, pool, at, clock, k, t, next, out);
        var rest := Expand(templateIds[1..], indicators, vs, cfg, pool, next, clock, k + |vs|);
        ExpandIds(templateIds[1..], indicators, vs, cfg, pool, next, clock, k + |vs|, rest.value);
        ExpandIdsStep(t, vs, cfg, pool, at, clock, k, DeriveAll(t, vs, cfg, pool, at, clock, k), rest.value, out,
                      Draws(|vs|, Cost(t)), Demand(templateIds[1..], indicators, |vs|),
                      Demand(templateIds, indicators, |vs|));
    }
  }

  /** With a pool of distinct codes, no two ids in a generated import
      coincide, indicators and boundaries alike. */
  lemma ExpandIdsDistinct(templateIds: seq<string>, indicators: seq<Indicator>, vs: seq<Variant>,
                          cfg: Config.Settings, pool: seq<string>, at: nat,
                          clock: nat -> string, k: nat, out: seq<Indicator>)
    requires Distinct(pool)
    requires CanDraw(pool, at, Demand(templateIds, indicators, |vs|))
    requires Expand(templateIds, indicators, vs, cfg, pool, at, clock, k) == Ok(out)
    ensures Distinct(IdsOf(out))
  {
    var d := Demand(templateIds, indicators, |vs|);
    if d == 0 {
      NoDemandNoOutput(templateIds, indicators, vs, cfg, pool, at, clock, k, out);
    } else {
      ExpandIds(templateIds, indicators, vs, cfg, pool, at, clock, k, out);
      DistinctWindow(pool, at + 1, d);
    }
  }

  /** A run that draws nothing produces nothing: a found template with a
      variant draws at least its own id. */
  lemma {:induction false} NoDemandNoOutput(templateIds: seq<string>, indicators: seq<Indicator>, vs: seq<Variant>,
                                            cfg: Config.Settings, pool: seq<string>, at: nat,
                                            clock: nat -> string, k: nat, out: seq<Indicator>)
    requires Demand(templateIds, indicators, |vs|) == 0
    requires Expand(templateIds, indicators, vs, cfg, pool, at, clock, k) == Ok(out)
    ensures out == []
  {
    ExpandCount(templateIds, indicators, vs, cfg, pool, at, clock, k, out);
    if templateIds != [] && vs != [] {
      match FindTemplate(indicators, templateIds[0])
      case Found(t) =>
        DrawsBelow(0, |vs|, Cost(t));
        assert false;
    }
  }

  /** Prepending two chunks one after the other is prepending their concatenation. */
  lemma PrependAssoc(a: seq<Indicator>, b: seq<Indicator>, rest: Result<seq<Indicator>>)
    ensures Prepend(a, Prepend(b, rest)) == Prepend(a + b, rest)
  {
    if rest.Ok? {
      AppendAssoc(a, b, rest.value);
    }
  }

  /** The state of the loop over template ids after i of them: the counter
      at c can serve the remaining ids, and will end where the whole
      expansion leaves it; the whole expansion is the output so far in front
      of the expansion of the remaining ids. */
  predicate Progress(templateIds: seq<string>, i: nat, indicators: seq<Indicator>, vs: seq<Variant>,
                     cfg: Config.Settings, pool: seq<string>, at: nat, clock: nat -> string,
                     whole: Result<seq<Indicator>>, out: seq<Indicator>, c: nat)
  {
    && i <= |templateIds|
    && CanDraw(pool, c, Demand(templateIds[i..], indicators, |vs|))
    && c + Demand(templateIds[i..], indicators, |vs|) == at + Demand(templateIds, indicators, |vs|)
    && whole == Prepend(out, Expand(templateIds[i..], indicators, vs, cfg, pool, c, clock, |out|))
  }

  /** Before the first template nothing is output and the counter has not moved. */
  lemma ProgressStart(templateIds: seq<string>, indicators: seq<Indicator>, vs: seq<Variant>,
                      cfg: Config.Settings, pool: seq<string>, at: nat, clock: nat -> string,
                      whole: Result<seq<Indicator>>)
    requires CanDraw(pool, at, Demand(templateIds, indicators, |vs|))
    requires whole == Expand(templateIds, indicators, vs, cfg, pool, at, clock, 0)
    ensures Progress(templateIds, 0, indicators, vs, cfg, pool, at, clock, whole, [], at)
  {
    assert templateIds[0..] == templateIds;
    assert whole.Ok? ==> [] + whole.value == whole.value;
  }

  /** One step of the loop over template ids when the template is found:
      this template's chunk joins the output, the counter moves past the
      ids it draws, and the loop state holds after one more id. */
  lemma ExpandStepFound(templateIds: seq<string>, i: nat, indicators: seq<Indicator>, vs: seq<Variant>,
                        cfg: Config.Settings, pool: seq<string>, at: nat, clock: nat -> string,
                        whole: Result<seq<Indicator>>, out: seq<Indicator>, c: nat, t: Indicator, next: nat)
    requires Progress(templateIds, i, indicators, vs, cfg, pool, at, clock, whole, out, c)
    requires i < |templateIds| && FindTemplate(indicators, templateIds[i]) == Found(t)
    requires next == c + Draws(|vs|, Cost(t))
    ensures CanDraw(pool, c, Draws(|vs|, Cost(t)))
    ensures Progress(templateIds, i + 1, indicators, vs, cfg, pool, at, clock, whole,
                     out + DeriveAll(t, vs, cfg, pool, c, clock, |out|), next)
  {
    var rest := templateIds[i..];
    assert rest[0] == templateIds[i] && rest[1..] == templateIds[i + 1..];
    ExpandFound(rest, indicators, vs, cfg, pool, c, clock, |out|, t, next);
    var chunk := DeriveAll(t, vs, cfg, pool, c, clock, |out|);
    PrependAssoc(out, chunk, Expand(templateIds[i + 1..], indicators, vs, cfg, pool, next, clock, |out| + |vs|));
    assert |out + chunk| == |out| + |vs|;
  }

  /** The loop's exit when template i is missing: the whole expansion is the
      error naming it, and the counter already stands where the expansion
      leaves it, since nothing is drawn from there on. */
  lemma ExpandStepMissing(templateIds: seq<string>, i: nat, indicators: seq<Indicator>, vs: seq<Variant>,
                          cfg: Config.Settings, pool: seq<string>, at: nat, clock: nat -> string,
                          whole: Result<seq<Indicator>>, out: seq<Indicator>, c: nat)
    requires Progress(templateIds, i, indicators, vs, cfg, pool, at, clock, whole, out, c)
    requires i < |templateIds| && FindTemplate(indicators, templateIds[i]).Missing?
    ensures whole == Err(TemplateNotFound(templateIds[i]))
    ensures c == at + Demand(templateIds, indicators, |vs|)
  {
    var rest := templateIds[i..];
    assert rest[0] == templateIds[i];
  }

  /** The loop's exit after the last template: the whole expansion is the
      output, and the counter stands where the expansion leaves it. */
  lemma ProgressEnd(templateIds: seq<string>, indicators: seq<Indicator>, vs: seq<Variant>,
                    cfg: Config.Settings, pool: seq<string>, at: nat, clock: nat -> string,
                    whole: Result<seq<Indicator>>, out: seq<Indicator>, c: nat)
    requires Progress(templateIds, |templateIds|, indicators, vs, cfg, pool, at, clock, whole, out, c)
    ensures whole == Ok(out)
    ensures c == at + Demand(templateIds, indicators, |vs|)
  {
    assert templateIds[|templateIds|..] == [];
    assert out + [] == out;
  }
}
