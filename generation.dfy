// What createIndicatorsFromTemplates computes, stated as functions. A
// generated indicator is determined by its template, by the disease and/or
// status it stands for (a Variant), by the position of the id counter before
// it is made, and by the timestamp read for it. The methods in expander.dfy
// are proved to produce exactly these values.
module Generation {
  import opened Records
  import opened Filters
  import opened Identifiers
  import Config

  /** What one generated indicator stands for. */
  datatype Variant =
    | ByStatus(status: Option)
    | ByDisease(disease: Option)
    | ByPair(disease: Option, status: Option)

  /** One disease against every status, statuses in their selected order. */
  function Pairs(disease: Option, statuses: seq<Option>): seq<Variant> {
    seq(|statuses|, j requires 0 <= j < |statuses| => ByPair(disease, statuses[j]))
  }

  /** The cross product, diseases in the outer loop and statuses in the inner one. */
  function Cross(diseases: seq<Option>, statuses: seq<Option>): (r: seq<Variant>)
    ensures |r| == |diseases| * |statuses|
  {
    if diseases == [] then []
    else
      assert |diseases| * |statuses| == |statuses| + (|diseases| - 1) * |statuses|;
      Pairs(diseases[0], statuses) + Cross(diseases[1..], statuses)
  }

  /** The variants one template expands to, by which selection is empty. */
  function Variants(diseases: seq<Option>, statuses: seq<Option>): seq<Variant> {
    if |diseases| == 0 then seq(|statuses|, j requires 0 <= j < |statuses| => ByStatus(statuses[j]))
    else if |statuses| == 0 then seq(|diseases|, i requires 0 <= i < |diseases| => ByDisease(diseases[i]))
    else Cross(diseases, statuses)
  }

  /** The display name: template name, then disease name, then status name. */
  function NameOf(t: Indicator, v: Variant): string {
    match v
    case ByStatus(s) => t.name + " - " + s.name
    case ByDisease(d) => t.name + " - " + d.name
    case ByPair(d, s) => t.name + " - " + d.name + " - " + s.name
  }

  /** The short name: built on the template's name (not its short name) and the option codes. */
  function ShortNameOf(t: Indicator, v: Variant): string {
    match v
    case ByStatus(s) => t.name + " - " + s.code
    case ByDisease(d) => t.name + " - " + d.code
    case ByPair(d, s) => t.name + " - " + d.code + " - " + s.code
  }

  /** The filter expression: the status predicate comes before the disease predicate. */
  function FilterOf(cfg: Config.Settings, v: Variant): string {
    match v
    case ByStatus(s) => Clause(cfg.statusTrackedEntityId, s.code)
    case ByDisease(d) => Clause(cfg.diseaseTrackedEntityId, d.code)
    case ByPair(d, s) =>
      Conjunction(Clause(cfg.statusTrackedEntityId, s.code), Clause(cfg.diseaseTrackedEntityId, d.code))
  }

  /** The (attribute, code) comparisons a variant's filter is meant to express, in order. */
  function Predicates(cfg: Config.Settings, v: Variant): seq<(string, string)> {
    match v
    case ByStatus(s) => [(cfg.statusTrackedEntityId, s.code)]
    case ByDisease(d) => [(cfg.diseaseTrackedEntityId, d.code)]
    case ByPair(d, s) => [(cfg.statusTrackedEntityId, s.code), (cfg.diseaseTrackedEntityId, d.code)]
  }

  /** Ids one generated indicator draws: its own and one per boundary. */
  function Cost(t: Indicator): nat {
    1 + |t.analyticsPeriodBoundaries|
  }

  /** Ids drawn by `n` indicators that draw `cost` each (n * cost, spelled out
      as a sum so that the solver reasons about it linearly). */
  function Draws(n: nat, cost: nat): nat {
    if n == 0 then 0 else Draws(n - 1, cost) + cost
  }

  /** The template's boundaries, each with the id drawn for it (boundary j
      takes pool entry from + j) and the parent's timestamps. */
  function Restamp(bs: seq<Boundary>, pool: seq<string>, from: nat, stamp: string): (r: seq<Boundary>)
    requires from + |bs| <= |pool|
    ensures |r| == |bs|
  {
    if bs == [] then []
    else
      var n := |bs| - 1;
      Restamp(bs[..n], pool, from, stamp) + [bs[n].(id := pool[from + n], lastUpdated := stamp, created := stamp)]
  }

  /** The indicator generated from template `t` for variant `v` when the id
      counter stands at `at` and the clock reads `stamp`. */
  function Derive(t: Indicator, v: Variant, cfg: Config.Settings, pool: seq<string>,
                  at: nat, stamp: string): Indicator
    requires at + Cost(t) < |pool|
  {
    t.(id := pool[at + 1],
       name := NameOf(t, v),
       shortName := ShortNameOf(t, v),
       filter := FilterOf(cfg, v),
       lastUpdated := stamp,
       created := stamp,
       analyticsPeriodBoundaries := Restamp(t.analyticsPeriodBoundaries, pool, at + 2, stamp))
  }

  /** The indicators generated from one template, one per variant in order
      (the source's map over the selection); indicator q draws its ids after
      the q before it and reads the clock at ordinal k + q. */
  function DeriveAll(t: Indicator, vs: seq<Variant>, cfg: Config.Settings, pool: seq<string>,
                     at: nat, clock: nat -> string, k: nat): (r: seq<Indicator>)
    requires CanDraw(pool, at, Draws(|vs|, Cost(t)))
    ensures |r| == |vs|
  {
    assert forall q :: 0 <= q < |vs| ==> at + Draws(q, Cost(t)) + Cost(t) < |pool| by {
      forall q | 0 <= q < |vs|
        ensures at + Draws(q, Cost(t)) + Cost(t) < |pool|
      {
        DrawsBelow(q, |vs|, Cost(t));
      }
    }
    seq(|vs|, q requires 0 <= q < |vs| => Derive(t, vs[q], cfg, pool, at + Draws(q, Cost(t)), clock(k + q)))
  }

  /** q indicators with one more after them draw no more than n of them, for q < n. */
  lemma {:induction false} DrawsBelow(q: nat, n: nat, cost: nat)
    requires q < n
    ensures Draws(q, cost) + cost <= Draws(n, cost)
    decreases n
  {
    if q + 1 < n {
      DrawsBelow(q, n - 1, cost);
    }
  }

  /** The ids carried by some boundaries, in order. */
  function BoundaryIds(bs: seq<Boundary>): (r: seq<string>)
    ensures |r| == |bs|
  {
    if bs == [] then [] else BoundaryIds(bs[..|bs| - 1]) + [bs[|bs| - 1].id]
  }

  /** The ids one indicator carries: its own, then its boundaries'. */
  function OwnIds(ind: Indicator): (r: seq<string>)
    ensures |r| == 1 + |ind.analyticsPeriodBoundaries|
  {
    [ind.id] + BoundaryIds(ind.analyticsPeriodBoundaries)
  }

  /** The ids carried by some indicators, indicator by indicator. */
  function IdsOf(out: seq<Indicator>): seq<string> {
    if out == [] then [] else IdsOf(out[..|out| - 1]) + OwnIds(out[|out| - 1])
  }

  /** Array.prototype.find over the snapshot's program indicators: the first with that id. */
  function FindTemplate(indicators: seq<Indicator>, id: string): Lookup<Indicator> {
    if indicators == [] then Missing
    else if indicators[0].id == id then Found(indicators[0])
    else FindTemplate(indicators[1..], id)
  }

  /** find answers with an indicator carrying the id asked for, and finds
      nothing exactly when no indicator carries it. */
  lemma {:induction false} FindTemplateSpec(indicators: seq<Indicator>, id: string)
    ensures FindTemplate(indicators, id).Found? ==> FindTemplate(indicators, id).value.id == id
    ensures FindTemplate(indicators, id).Missing? <==> forall i :: 0 <= i < |indicators| ==> indicators[i].id != id
  {
    if indicators != [] && indicators[0].id != id {
      FindTemplateSpec(indicators[1..], id);
      assert forall i :: 1 <= i < |indicators| ==> indicators[i] == indicators[1..][i - 1];
    }
  }

  /** The template found is the first indicator with the id asked for. */
  lemma {:induction false} FindTemplateFirst(indicators: seq<Indicator>, id: string, i: nat)
    requires i < |indicators| && indicators[i].id == id
    requires forall j :: 0 <= j < i ==> indicators[j].id != id
    ensures FindTemplate(indicators, id) == Found(indicators[i])
  {
    if i > 0 {
      FindTemplateFirst(indicators[1..], id, i - 1);
    }
  }

  /** Every template id names an indicator of the snapshot. */
  predicate AllFound(templateIds: seq<string>, indicators: seq<Indicator>) {
    forall i :: 0 <= i < |templateIds| ==> FindTemplate(indicators, templateIds[i]).Found?
  }

  /** The number of ids a run over `templateIds` draws when each template
      expands to `n` variants: the expansion stops at the first missing
      template, which draws nothing. */
  function Demand(templateIds: seq<string>, indicators: seq<Indicator>, n: nat): nat
    decreases |templateIds|
  {
    if templateIds == [] then 0
    else match FindTemplate(indicators, templateIds[0])
      case Missing => 0
      case Found(t) => Draws(n, Cost(t)) + Demand(templateIds[1..], indicators, n)
  }

  /** One template's chunk in front of what the later templates produce;
      an error raised by a later template is passed on. */
  function Prepend(chunk: seq<Indicator>, rest: Result<seq<Indicator>>): Result<seq<Indicator>>
  {
    match rest
    case Ok(later) => Ok(chunk + later)
    case Err(e) => Err(e)
  }

  /** createIndicatorsFromTemplates as flatMap over the template ids: the
      error for the first id that is not in the snapshot, or else every
      template's chunk in order, with the id counter at `at` and the clock
      at ordinal `k` before the first indicator. */
  function Expand(templateIds: seq<string>, indicators: seq<Indicator>, vs: seq<Variant>,
                  cfg: Config.Settings, pool: seq<string>, at: nat,
                  clock: nat -> string, k: nat): Result<seq<Indicator>>
    requires CanDraw(pool, at, Demand(templateIds, indicators, |vs|))
    decreases |templateIds|
  {
    if templateIds == [] then Ok([])
    else match FindTemplate(indicators, templateIds[0])
      case Missing => Err(TemplateNotFound(templateIds[0]))
      case Found(t) =>
        Prepend(DeriveAll(t, vs, cfg, pool, at, clock, k),
                Expand(templateIds[1..], indicators, vs, cfg, pool, at + Draws(|vs|, Cost(t)), clock, k + |vs|))
  }
}
