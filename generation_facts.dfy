// Properties of the expansion: how many indicators each template yields and
// in which order, what every indicator inherits, how the filter text reads
// back, and which pool entries the run consumes.
module GenerationFacts {
  import opened Records
  import opened Filters
  import opened Identifiers
  import opened Generation
  import Config

  // ---- variants: count and order ----

  /** Pair (i, j) of the cross product sits at i * |statuses| + j. */
  lemma {:induction false} CrossAt(diseases: seq<Option>, statuses: seq<Option>, i: nat, j: nat)
    requires i < |diseases| && j < |statuses|
    ensures i * |statuses| + j < |Cross(diseases, statuses)|
    ensures Cross(diseases, statuses)[i * |statuses| + j] == ByPair(diseases[i], statuses[j])
  {
    assert |diseases| * |statuses| == |statuses| + (|diseases| - 1) * |statuses|;
    if i > 0 {
      CrossAt(diseases[1..], statuses, i - 1, j);
      assert i * |statuses| + j == |statuses| + ((i - 1) * |statuses| + j);
    }
  }

  /** One variant per status when no disease is selected, one per disease when
      no status is selected, and one per pair otherwise. */
  lemma VariantsCount(diseases: seq<Option>, statuses: seq<Option>)
    ensures |Variants(diseases, statuses)| ==
            if |diseases| == 0 then |statuses|
            else if |statuses| == 0 then |diseases|
            else |diseases| * |statuses|
  {
  }

  /** With no disease selected, variant j is status j. */
  lemma VariantsStatusesOnly(diseases: seq<Option>, statuses: seq<Option>, j: nat)
    requires |diseases| == 0 && j < |statuses|
    ensures Variants(diseases, statuses)[j] == ByStatus(statuses[j])
  {
  }

  /** With diseases but no status selected, variant i is disease i. */
  lemma VariantsDiseasesOnly(diseases: seq<Option>, statuses: seq<Option>, i: nat)
    requires |diseases| > 0 && |statuses| == 0 && i < |diseases|
    ensures Variants(diseases, statuses)[i] == ByDisease(diseases[i])
  {
  }

  /** With both selected, the pair (disease i, status j) is variant i * |statuses| + j:
      diseases in the outer loop, statuses in the inner one. */
  lemma VariantsPairAt(diseases: seq<Option>, statuses: seq<Option>, i: nat, j: nat)
    requires |statuses| > 0 && i < |diseases| && j < |statuses|
    ensures i * |statuses| + j < |Variants(diseases, statuses)|
    ensures Variants(diseases, statuses)[i * |statuses| + j] == ByPair(diseases[i], statuses[j])
  {
    CrossAt(diseases, statuses, i, j);
  }

  // ---- counting draws ----

  lemma {:induction false} DrawsMonotone(m: nat, n: nat, cost: nat)
    requires m <= n
    ensures Draws(m, cost) <= Draws(n, cost)
    decreases n
  {
    if m < n {
      DrawsMonotone(m, n - 1, cost);
    }
  }

  lemma {:induction false} DrawsIsProduct(n: nat, cost: nat)
    ensures Draws(n, cost) == n * cost
  {
    if n > 0 {
      DrawsIsProduct(n - 1, cost);
    }
  }

  // ---- the filter text ----

  /** The filter reads back as the comparisons it stands for: one, or the
      status comparison followed by the disease comparison. */
  lemma FilterReadsBack(cfg: Config.Settings, v: Variant)
    requires v.ByStatus? || v.ByPair? ==> Readable(cfg.statusTrackedEntityId, v.status.code)
    requires v.ByDisease? || v.ByPair? ==> Readable(cfg.diseaseTrackedEntityId, v.disease.code)
    ensures ReadFilter(FilterOf(cfg, v)) == Found(Predicates(cfg, v))
  {
    match v
    case ByStatus(s) => ReadSingle(cfg.statusTrackedEntityId, s.code);
    case ByDisease(d) => ReadSingle(cfg.diseaseTrackedEntityId, d.code);
    case ByPair(d, s) =>
      ReadConjunction(cfg.statusTrackedEntityId, s.code, cfg.diseaseTrackedEntityId, d.code);
  }

  // ---- one indicator ----

  /** Boundary j of a restamped list is boundary j of the template with
      pool entry from + j for its id and the parent's timestamps. */
  lemma {:induction false} RestampAt(bs: seq<Boundary>, pool: seq<string>, from: nat, stamp: string, j: nat)
    requires from + |bs| <= |pool| && j < |bs|
    ensures Restamp(bs, pool, from, stamp)[j] == bs[j].(id := pool[from + j], lastUpdated := stamp, created := stamp)
  {
    var n := |bs| - 1;
    if j < n {
      RestampAt(bs[..n], pool, from, stamp, j);
    }
  }

  /** A generated indicator takes the next id, the composed names and filter,
      and one timestamp for both created and lastUpdated; each boundary takes
      the id after its predecessor's and the parent's timestamps. Undoing the
      rewritten fields gives the template back: every other field, of the
      indicator and of each boundary, is inherited unchanged. */
  lemma DeriveInherits(t: Indicator, v: Variant, cfg: Config.Settings, pool: seq<string>,
                       at: nat, stamp: string)
    requires at + Cost(t) < |pool|
    ensures var r := Derive(t, v, cfg, pool, at, stamp);
      && r.id == pool[at + 1]
      && r.name == NameOf(t, v) && r.shortName == ShortNameOf(t, v) && r.filter == FilterOf(cfg, v)
      && r.created == stamp && r.lastUpdated == stamp
      && |r.analyticsPeriodBoundaries| == |t.analyticsPeriodBoundaries|
    ensures var r := Derive(t, v, cfg, pool, at, stamp);
      (forall j :: 0 <= j < |t.analyticsPeriodBoundaries| ==>
            var b, b0 := r.analyticsPeriodBoundaries[j], t.analyticsPeriodBoundaries[j];
            && b.id == pool[at + 2 + j]
            && b.created == r.created && b.lastUpdated == r.lastUpdated
            && b.(id := b0.id, created := b0.created, lastUpdated := b0.lastUpdated) == b0)
    ensures var r := Derive(t, v, cfg, pool, at, stamp);
      r.(id := t.id, name := t.name, shortName := t.shortName, filter := t.filter,
            created := t.created, lastUpdated := t.lastUpdated,
            analyticsPeriodBoundaries := t.analyticsPeriodBoundaries) == t
  {
    var r := Derive(t, v, cfg, pool, at, stamp);
    assert r.analyticsPeriodBoundaries == Restamp(t.analyticsPeriodBoundaries, pool, at + 2, stamp);
    forall j | 0 <= j < |t.analyticsPeriodBoundaries|
      ensures r.analyticsPeriodBoundaries[j]
           == t.analyticsPeriodBoundaries[j].(id := pool[at + 2 + j], lastUpdated := stamp, created := stamp)
    {
      RestampAt(t.analyticsPeriodBoundaries, pool, at + 2, stamp, j);
    }
  }

  // ---- one template ----

  /** The first p indicators of a chunk are the chunk for the first p variants. */
  lemma DeriveAllPrefix(t: Indicator, vs: seq<Variant>, cfg: Config.Settings,
                        pool: seq<string>, at: nat, clock: nat -> string, k: nat, p: nat)
    requires CanDraw(pool, at, Draws(|vs|, Cost(t)))
    requires p <= |vs|
    ensures CanDraw(pool, at, Draws(p, Cost(t)))
    ensures DeriveAll(t, vs, cfg, pool, at, clock, k)[..p] == DeriveAll(t, vs[..p], cfg, pool, at, clock, k)
  {
    DrawsMonotone(p, |vs|, Cost(t));
    var whole := DeriveAll(t, vs, cfg, pool, at, clock, k);
    var part := DeriveAll(t, vs[..p], cfg, pool, at, clock, k);
    forall q | 0 <= q < p
      ensures whole[q] == part[q]
    {
      assert vs[..p][q] == vs[q];
    }
  }

  /** Indicator q of a template's chunk is the one derived for variant q, with
      the counter advanced by q indicators' draws and the clock read at k + q. */
  lemma DeriveAllAt(t: Indicator, vs: seq<Variant>, cfg: Config.Settings,
                    pool: seq<string>, at: nat, clock: nat -> string, k: nat, q: nat)
    requires CanDraw(pool, at, Draws(|vs|, Cost(t)))
    requires q < |vs|
    ensures at + Draws(q, Cost(t)) + Cost(t) < |pool|
    ensures DeriveAll(t, vs, cfg, pool, at, clock, k)[q] ==
            Derive(t, vs[q], cfg, pool, at + Draws(q, Cost(t)), clock(k + q))
  {
    DrawsBelow(q, |vs|, Cost(t));
  }

  /** The chunk for one more variant is the chunk so far with the next
      derived indicator appended (the source's map, one step at a time). */
  lemma DeriveAllSnoc(t: Indicator, vs: seq<Variant>, cfg: Config.Settings,
                      pool: seq<string>, at: nat, clock: nat -> string, k: nat, j: nat)
    requires CanDraw(pool, at, Draws(|vs|, Cost(t)))
    requires j < |vs|
    ensures CanDraw(pool, at, Draws(j, Cost(t))) && CanDraw(pool, at, Draws(j + 1, Cost(t)))
    ensures at + Draws(j, Cost(t)) + Cost(t) < |pool|
    ensures DeriveAll(t, vs[..j + 1], cfg, pool, at, clock, k)
         == DeriveAll(t, vs[..j], cfg, pool, at, clock, k)
            + [Derive(t, vs[j], cfg, pool, at + Draws(j, Cost(t)), clock(k + j))]
  {
    DrawsMonotone(j, |vs|, Cost(t));
    DrawsMonotone(j + 1, |vs|, Cost(t));
    var longer := vs[..j + 1];
    assert longer[..j] == vs[..j] && longer[j] == vs[j];
    DeriveAllSplit(t, longer, cfg, pool, at, clock, k);
    DeriveAllAt(t, longer, cfg, pool, at, clock, k, j);
  }

  // ---- which ids are drawn ----

  lemma AppendAssoc<T>(x: seq<T>, y: seq<T>, z: seq<T>)
    ensures (x + y) + z == x + (y + z)
  {
  }

  lemma SnocSplit<T>(a: seq<T>, b: seq<T>)
    requires b != []
    ensures a + b == (a + b[..|b| - 1]) + [b[|b| - 1]]
    ensures b == b[..|b| - 1] + [b[|b| - 1]]
  {
  }

  lemma SnocInit<T>(a: seq<T>, x: T)
    ensures (a + [x])[..|a|] == a
  {
  }

  lemma IdsSnoc(out: seq<Indicator>, last: Indicator)
    ensures IdsOf(out + [last]) == IdsOf(out) + OwnIds(last)
  {
    SnocInit(out, last);
  }

  lemma {:induction false} IdsOfAppend(a: seq<Indicator>, b: seq<Indicator>)
    ensures IdsOf(a + b) == IdsOf(a) + IdsOf(b)
    decreases |b|
  {
    if b == [] {
      assert a + b == a;
    } else {
      var n := |b| - 1;
      IdsOfAppend(a, b[..n]);
      SnocSplit(a, b);
      IdsSnoc(a + b[..n], b[n]);
      IdsSnoc(b[..n], b[n]);
      AppendAssoc(IdsOf(a), IdsOf(b[..n]), OwnIds(b[n]));
    }
  }

  /** Restamped boundaries carry the pool entries from `from` on, in order. */
  lemma {:induction false} RestampIds(bs: seq<Boundary>, pool: seq<string>, from: nat, stamp: string)
    requires from + |bs| <= |pool|
    ensures BoundaryIds(Restamp(bs, pool, from, stamp)) == Window(pool, from, |bs|)
    decreases |bs|
  {
    if bs != [] {
      var n := |bs| - 1;
      var init := Restamp(bs[..n], pool, from, stamp);
      var b := bs[n].(id := pool[from + n], lastUpdated := stamp, created := stamp);
      RestampIds(bs[..n], pool, from, stamp);
      assert (init + [b])[..n] == init;
    }
  }

  /** One generated indicator carries exactly the next Cost(t) pool entries:
      its own id first, then one per boundary in order. */
  lemma DeriveIds(t: Indicator, v: Variant, cfg: Config.Settings, pool: seq<string>, at: nat, stamp: string, first: nat)
    requires at + Cost(t) < |pool| && first == at + 1
    ensures OwnIds(Derive(t, v, cfg, pool, at, stamp)) == Window(pool, first, Cost(t))
  {
    RestampIds(t.analyticsPeriodBoundaries, pool, at + 2, stamp);
    WindowJoin(pool, at + 1, 1, |t.analyticsPeriodBoundaries|);
  }

  /** Two adjacent windows of the pool make one, whatever the terms naming their bounds. */
  lemma WindowsAdjoin(pool: seq<string>, lo: nat, m: nat, mid: nat, c: nat, total: nat)
    requires mid == lo + m && total == m + c && lo + total <= |pool|
    ensures Window(pool, lo, m) + Window(pool, mid, c) == Window(pool, lo, total)
  {
    WindowJoin(pool, lo, m, c);
  }

  /** Indicator q of a template's chunk carries the q-th run of Cost(t) pool
      entries after the counter's starting point. */
  lemma DeriveAllOwnIds(t: Indicator, vs: seq<Variant>, cfg: Config.Settings,
                        pool: seq<string>, at: nat, clock: nat -> string, k: nat, q: nat, first: nat)
    requires CanDraw(pool, at, Draws(|vs|, Cost(t)))
    requires q < |vs| && first == at + Draws(q, Cost(t)) + 1
    ensures at + Draws(q, Cost(t)) + Cost(t) < |pool|
    ensures OwnIds(DeriveAll(t, vs, cfg, pool, at, clock, k)[q]) == Window(pool, first, Cost(t))
  {
    DeriveAllAt(t, vs, cfg, pool, at, clock, k, q);
    DeriveIds(t, vs[q], cfg, pool, at + Draws(q, Cost(t)), clock(k + q), first);
  }

  /** A template's chunk is its chunk for all variants but the last, followed by its last indicator. */
  lemma DeriveAllSplit(t: Indicator, vs: seq<Variant>, cfg: Config.Settings,
                       pool: seq<string>, at: nat, clock: nat -> string, k: nat)
    requires CanDraw(pool, at, Draws(|vs|, Cost(t)))
    requires vs != []
    ensures CanDraw(pool, at, Draws(|vs| - 1, Cost(t)))
    ensures DeriveAll(t, vs, cfg, pool, at, clock, k)
         == DeriveAll(t, vs[..|vs| - 1], cfg, pool, at, clock, k) + [DeriveAll(t, vs, cfg, pool, at, clock, k)[|vs| - 1]]
  {
    var whole := DeriveAll(t, vs, cfg, pool, at, clock, k);
    DeriveAllPrefix(t, vs, cfg, pool, at, clock, k, |vs| - 1);
    SnocSplit([], whole);
  }

  /** The ids of a chunk are those of all but its last indicator, then the
      last one's, which are the Cost(t) pool entries starting at mid. */
  lemma DeriveAllIdsSplit(t: Indicator, vs: seq<Variant>, cfg: Config.Settings,
                          pool: seq<string>, at: nat, clock: nat -> string, k: nat, mid: nat)
    requires CanDraw(pool, at, Draws(|vs|, Cost(t)))
    requires vs != [] && mid == at + 1 + Draws(|vs[..|vs| - 1]|, Cost(t))
    ensures CanDraw(pool, at, Draws(|vs| - 1, Cost(t)))
    ensures IdsOf(DeriveAll(t, vs, cfg, pool, at, clock, k))
         == IdsOf(DeriveAll(t, vs[..|vs| - 1], cfg, pool, at, clock, k)) + Window(pool, mid, Cost(t))
  {
    var n := |vs| - 1;
    DeriveAllSplit(t, vs, cfg, pool, at, clock, k);
    IdsSnoc(DeriveAll(t, vs[..n], cfg, pool, at, clock, k), DeriveAll(t, vs, cfg, pool, at, clock, k)[n]);
    DeriveAllOwnIds(t, vs, cfg, pool, at, clock, k, n, mid);
  }

  /** If all but the last indicator of a chunk carry their pool entries, the
      whole chunk does. */
  lemma DeriveAllIdsStep(t: Indicator, vs: seq<Variant>, cfg: Config.Settings,
                         pool: seq<string>, at: nat, clock: nat -> string, k: nat)
    requires at + Draws(|vs|, Cost(t)) < |pool|
    requires vs != []
    requires IdsOf(DeriveAll(t, vs[..|vs| - 1], cfg, pool, at, clock, k))
          == Window(pool, at + 1, Draws(|vs[..|vs| - 1]|, Cost(t)))
    ensures IdsOf(DeriveAll(t, vs, cfg, pool, at, clock, k)) == Window(pool, at + 1, Draws(|vs|, Cost(t)))
  {
    var n := |vs| - 1;
    var mid := at + 1 + Draws(|vs[..n]|, Cost(t));
    DeriveAllIdsSplit(t, vs, cfg, pool, at, clock, k, mid);
    WindowsAdjoin(pool, at + 1, Draws(|vs[..n]|, Cost(t)), mid, Cost(t), Draws(|vs|, Cost(t)));
  }

  /** A template's chunk carries exactly the next Draws(|vs|, Cost(t)) pool entries, in order. */
  lemma {:induction false} DeriveAllIds(t: Indicator, vs: seq<Variant>, cfg: Config.Settings,
                                        pool: seq<string>, at: nat, clock: nat -> string, k: nat)
    requires at + Draws(|vs|, Cost(t)) < |pool|
    ensures IdsOf(DeriveAll(t, vs, cfg, pool, at, clock, k)) == Window(pool, at + 1, Draws(|vs|, Cost(t)))
    decreases |vs|
  {
    if vs != [] {
      DrawsMonotone(|vs| - 1, |vs|, Cost(t));
      DeriveAllIds(t, vs[..|vs| - 1], cfg, pool, at, clock, k);
      DeriveAllIdsStep(t, vs, cfg, pool, at, clock, k);
    }
  }
}
