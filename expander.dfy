// createIndicatorsFromTemplates and main as the script runs them: loops that
// copy a template once per selected option (or pair of options), drawing
// every new id from one shared supplier, proved to compute exactly what the
// functions of module Generation describe. The clock is a parameter: read
// number k of a run is clock(k), one read per generated indicator.
module Expander {
  import opened Records
  import opened Identifiers
  import opened Generation
  import opened GenerationFacts
  import opened ExpansionFacts
  import opened Selection
  import opened Outcomes
  import Config

  /** The body of the source's map callback: a copy of template `t` for
      variant `v`, its own id drawn first and then one id per boundary, with
      every timestamp set to the one clock reading `stamp`. */
  method MakeIndicator(t: Indicator, v: Variant, cfg: Config.Settings, stamp: string, supply: IdSupplier)
    returns (ind: Indicator)
    requires supply.counter + Cost(t) < |supply.pool|
    modifies supply
    ensures supply.counter == old(supply.counter) + Cost(t)
    ensures ind == Derive(t, v, cfg, supply.pool, old(supply.counter), stamp)
  {
    ghost var at := supply.counter;
    var id := supply.Next();
    var boundaries := t.analyticsPeriodBoundaries;
    var restamped: seq<Boundary> := [];
    var j := 0;
    while j < |boundaries|
      invariant 0 <= j <= |boundaries|
      invariant supply.counter == at + 1 + j
      invariant restamped == Restamp(boundaries[..j], supply.pool, at + 2, stamp)
    {
      var boundaryId := supply.Next();
      assert boundaries[..j + 1][..j] == boundaries[..j];
      restamped := restamped + [boundaries[j].(id := boundaryId, lastUpdated := stamp, created := stamp)];
      j := j + 1;
    }
    assert boundaries[..j] == boundaries;
    ind := t.(id := id,
              name := NameOf(t, v),
              shortName := ShortNameOf(t, v),
              filter := FilterOf(cfg, v),
              lastUpdated := stamp,
              created := stamp,
              analyticsPeriodBoundaries := restamped);
  }

  /** The expansion of one template, split three ways as the source does:
      one copy per status when no disease is selected, one per disease when
      no status is selected, and otherwise one per (disease, status) pair,
      diseases in the outer loop. Copy m reads the clock at k + m. */
  method ExpandTemplate(t: Indicator, diseases: seq<Option>, statuses: seq<Option>, cfg: Config.Settings,
                        supply: IdSupplier, clock: nat -> string, k: nat)
    returns (chunk: seq<Indicator>)
    requires CanDraw(supply.pool, supply.counter, Draws(|Variants(diseases, statuses)|, Cost(t)))
    modifies supply
    ensures supply.counter == old(supply.counter) + Draws(|Variants(diseases, statuses)|, Cost(t))
    ensures chunk == DeriveAll(t, Variants(diseases, statuses), cfg, supply.pool, old(supply.counter), clock, k)
  {
    if |diseases| == 0 {
      chunk := ExpandStatuses(t, diseases, statuses, cfg, supply, clock, k);
    } else if |statuses| == 0 {
      chunk := ExpandDiseases(t, diseases, statuses, cfg, supply, clock, k);
    } else {
      chunk := ExpandPairs(t, diseases, statuses, cfg, supply, clock, k);
    }
  }

  /** No disease selected: statuses.map, one copy per status. */
  method ExpandStatuses(t: Indicator, diseases: seq<Option>, statuses: seq<Option>, cfg: Config.Settings,
                        supply: IdSupplier, clock: nat -> string, k: nat)
    returns (chunk: seq<Indicator>)
    requires |diseases| == 0
    requires CanDraw(supply.pool, supply.counter, Draws(|Variants(diseases, statuses)|, Cost(t)))
    modifies supply
    ensures supply.counter == old(supply.counter) + Draws(|Variants(diseases, statuses)|, Cost(t))
    ensures chunk == DeriveAll(t, Variants(diseases, statuses), cfg, supply.pool, old(supply.counter), clock, k)
  {
    ghost var at := supply.counter;
    ghost var vs := Variants(diseases, statuses);
    chunk := [];
    var j := 0;
    while j < |statuses|
      invariant 0 <= j <= |statuses| == |vs|
      invariant supply.counter == at + Draws(j, Cost(t))
      invariant CanDraw(supply.pool, at, Draws(j, Cost(t)))
      invariant chunk == DeriveAll(t, vs[..j], cfg, supply.pool, at, clock, k)
    {
      VariantsStatusesOnly(diseases, statuses, j);
      DeriveAllSnoc(t, vs, cfg, supply.pool, at, clock, k, j);
      var ind := MakeIndicator(t, ByStatus(statuses[j]), cfg, clock(k + j), supply);
      chunk := chunk + [ind];
      j := j + 1;
    }
    assert vs[..j] == vs;
  }

  /** Diseases but no status selected: diseases.map, one copy per disease. */
  method ExpandDiseases(t: Indicator, diseases: seq<Option>, statuses: seq<Option>, cfg: Config.Settings,
                        supply: IdSupplier, clock: nat -> string, k: nat)
    returns (chunk: seq<Indicator>)
    requires |diseases| > 0 && |statuses| == 0
    requires CanDraw(supply.pool, supply.counter, Draws(|Variants(diseases, statuses)|, Cost(t)))
    modifies supply
    ensures supply.counter == old(supply.counter) + Draws(|Variants(diseases, statuses)|, Cost(t))
    ensures chunk == DeriveAll(t, Variants(diseases, statuses), cfg, supply.pool, old(supply.counter), clock, k)
  {
    ghost var at := supply.counter;
    ghost var vs := Variants(diseases, statuses);
    chunk := [];
    var i := 0;
    while i < |diseases|
      invariant 0 <= i <= |diseases| == |vs|
      invariant supply.counter == at + Draws(i, Cost(t))
      invariant CanDraw(supply.pool, at, Draws(i, Cost(t)))
      invariant chunk == DeriveAll(t, vs[..i], cfg, supply.pool, at, clock, k)
    {
      VariantsDiseasesOnly(diseases, statuses, i);
      DeriveAllSnoc(t, vs, cfg, supply.pool, at, clock, k, i);
      var ind := MakeIndicator(t, ByDisease(diseases[i]), cfg, clock(k + i), supply);
      chunk := chunk + [ind];
      i := i + 1;
    }
    assert vs[..i] == vs;
  }

  /** Both selected: diseases.flatMap over statuses.map, one copy per pair. */
  method ExpandPairs(t: Indicator, diseases: seq<Option>, statuses: seq<Option>, cfg: Config.Settings,
                     supply: IdSupplier, clock: nat -> string, k: nat)
    returns (chunk: seq<Indicator>)
    requires |diseases| > 0 && |statuses| > 0
    requires CanDraw(supply.pool, supply.counter, Draws(|Variants(diseases, statuses)|, Cost(t)))
    modifies supply
    ensures supply.counter == old(supply.counter) + Draws(|Variants(diseases, statuses)|, Cost(t))
    ensures chunk == DeriveAll(t, Variants(diseases, statuses), cfg, supply.pool, old(supply.counter), clock, k)
  {
    ghost var at := supply.counter;
    ghost var vs := Variants(diseases, statuses);
    assert |vs| == |diseases| * |statuses|;
    chunk := [];
    var m := 0;    // copies made so far: i * |statuses| + j
    var i := 0;
    while i < |diseases|
      invariant 0 <= i <= |diseases|
      invariant m == i * |statuses| && m <= |vs|
      invariant supply.counter == at + Draws(m, Cost(t))
      invariant CanDraw(supply.pool, at, Draws(m, Cost(t)))
      invariant chunk == DeriveAll(t, vs[..m], cfg, supply.pool, at, clock, k)
    {
      ghost var row := m;
      var j := 0;
      while j < |statuses|
        invariant 0 <= j <= |statuses|
        invariant m == row + j && m <= |vs|
        invariant supply.counter == at + Draws(m, Cost(t))
        invariant CanDraw(supply.pool, at, Draws(m, Cost(t)))
        invariant chunk == DeriveAll(t, vs[..m], cfg, supply.pool, at, clock, k)
      {
        VariantsPairAt(diseases, statuses, i, j);
        DeriveAllSnoc(t, vs, cfg, supply.pool, at, clock, k, m);
        var ind := MakeIndicator(t, ByPair(diseases[i], statuses[j]), cfg, clock(k + m), supply);
        chunk := chunk + [ind];
        m := m + 1;
        j := j + 1;
      }
      NextRow(i, |statuses|, |diseases|);
      i := i + 1;
    }
    assert vs[..m] == vs;
  }

  /** Row arithmetic of the nested loop: row i + 1 starts |statuses| copies
      after row i, and no row starts past the last copy. */
  lemma NextRow(i: nat, width: nat, rows: nat)
    requires i < rows
    ensures (i + 1) * width == i * width + width
    ensures (i + 1) * width <= rows * width
  {
  }

  /** createIndicatorsFromTemplates: for each template id in order, find the
      template in the snapshot (throwing for the first id that is missing)
      and append its expansion, all copies drawing ids from one supplier. */
  method ExpandTemplates(templateIds: seq<string>, indicators: seq<Indicator>,
                         diseases: seq<Option>, statuses: seq<Option>, cfg: Config.Settings,
                         supply: IdSupplier, clock: nat -> string)
    returns (r: Result<seq<Indicator>>)
    requires CanDraw(supply.pool, supply.counter, Demand(templateIds, indicators, |Variants(diseases, statuses)|))
    modifies supply
    ensures r == Expand(templateIds, indicators, Variants(diseases, statuses), cfg, supply.pool,
                        old(supply.counter), clock, 0)
    ensures supply.counter == old(supply.counter) + Demand(templateIds, indicators, |Variants(diseases, statuses)|)
  {
    ghost var at := supply.counter;
    ghost var vs := Variants(diseases, statuses);
    ghost var whole := Expand(templateIds, indicators, vs, cfg, supply.pool, at, clock, 0);
    var out: seq<Indicator> := [];
    var i := 0;
    ProgressStart(templateIds, indicators, vs, cfg, supply.pool, at, clock, whole);
    while i < |templateIds|
      invariant Progress(templateIds, i, indicators, vs, cfg, supply.pool, at, clock, whole, out, supply.counter)
    {
      var found := FindTemplate(indicators, templateIds[i]);
      match found {
        case Missing =>
          ExpandStepMissing(templateIds, i, indicators, vs, cfg, supply.pool, at, clock, whole, out, supply.counter);
          return Err(TemplateNotFound(templateIds[i]));
        case Found(t) =>
          ExpandStepFound(templateIds, i, indicators, vs, cfg, supply.pool, at, clock, whole, out,
                          supply.counter, t, supply.counter + Draws(|vs|, Cost(t)));
          var chunk := ExpandTemplate(t, diseases, statuses, cfg, supply, clock, |out|);
          out := out + chunk;
      }
      i := i + 1;
    }
    ProgressEnd(templateIds, indicators, vs, cfg, supply.pool, at, clock, whole, out, supply.counter);
    r := Ok(out);
  }

  /** main without its file I/O: choose the options, refuse a run with
      nothing chosen, and expand every configured template. */
  method Run(metadata: Metadata, cfg: Config.Settings, supply: IdSupplier, clock: nat -> string)
    returns (r: Result<seq<Indicator>>)
    requires CanDraw(supply.pool, supply.counter, RunDemand(metadata, cfg))
    modifies supply
    ensures r == Outcome(metadata, cfg, supply.pool, old(supply.counter), clock)
    ensures supply.counter == old(supply.counter) + RunDemand(metadata, cfg)
  {
    var chosen := SelectOptions(metadata, Config.OptionSetIds(cfg), cfg.diseases, cfg.incidentStatuses);
    if |chosen.diseases| == 0 && |chosen.statuses| == 0 {
      NoOptionsNoDemand(metadata, cfg);
      return Err(NoOptionsFound);
    }
    r := ExpandTemplates(cfg.indicatorIds, metadata.programIndicators, chosen.diseases, chosen.statuses,
                         cfg, supply, clock);
  }

  /** One process running the script: lodash's counter starts at 0, so the
      run draws its ids from pool position 1 on. */
  method RunFresh(metadata: Metadata, cfg: Config.Settings, pool: seq<string>, clock: nat -> string)
    returns (r: Result<seq<Indicator>>)
    requires CanDraw(pool, 0, RunDemand(metadata, cfg))
    ensures r == Outcome(metadata, cfg, pool, 0, clock)
  {
    var supply := new IdSupplier(pool);
    r := Run(metadata, cfg, supply, clock);
  }
}
