// What one run of main produces from a metadata snapshot: the options chosen
// from the two configured option sets, the "no options" guard, then the
// expansion of every configured template. The lemmas state the outcome of a
// run as a whole: when it fails and with which error, how many indicators it
// produces, and which ids they carry.
module Outcomes {
  import opened Records
  import opened Identifiers
  import opened Selection
  import opened Generation
  import opened GenerationFacts
  import opened ExpansionFacts
  import Config

  /** The options main passes on: getOptionsByOptionSetIds with the disease
      option set first and the configured vocabularies. */
  function Chosen(metadata: Metadata, cfg: Config.Settings): Selected {
    SelectOptions(metadata, Config.OptionSetIds(cfg), cfg.diseases, cfg.incidentStatuses)
  }

  /** The variants every template of a run expands to. */
  function RunVariants(metadata: Metadata, cfg: Config.Settings): seq<Variant> {
    Variants(Chosen(metadata, cfg).diseases, Chosen(metadata, cfg).statuses)
  }

  /** The number of ids a run draws. */
  function RunDemand(metadata: Metadata, cfg: Config.Settings): nat {
    Demand(cfg.indicatorIds, metadata.programIndicators, |RunVariants(metadata, cfg)|)
  }

  /** main: the error it throws, or the program indicators it writes out. */
  function Outcome(metadata: Metadata, cfg: Config.Settings, pool: seq<string>, at: nat,
                   clock: nat -> string): Result<seq<Indicator>>
    requires CanDraw(pool, at, RunDemand(metadata, cfg))
  {
    var sel := Chosen(metadata, cfg);
    if |sel.diseases| == 0 && |sel.statuses| == 0 then Err(NoOptionsFound)
    else Expand(cfg.indicatorIds, metadata.programIndicators, RunVariants(metadata, cfg), cfg, pool, at, clock, 0)
  }

  /** With nothing to copy for, no template draws an id. */
  lemma {:induction false} NothingToCopy(templateIds: seq<string>, indicators: seq<Indicator>)
    ensures Demand(templateIds, indicators, 0) == 0
    decreases |templateIds|
  {
    if templateIds != [] {
      NothingToCopy(templateIds[1..], indicators);
    }
  }

  /** The run draws nothing when no option is chosen, so the guard leaves
      the counter where it was. */
  lemma NoOptionsNoDemand(metadata: Metadata, cfg: Config.Settings)
    requires |Chosen(metadata, cfg).diseases| == 0 && |Chosen(metadata, cfg).statuses| == 0
    ensures RunDemand(metadata, cfg) == 0
  {
    NothingToCopy(cfg.indicatorIds, metadata.programIndicators);
  }

  /** How a run ends: "no options" exactly when both selections are empty;
      success exactly when some option is chosen and every configured
      template is in the snapshot; otherwise the error names the first
      configured template id that is missing. */
  lemma OutcomeErrors(metadata: Metadata, cfg: Config.Settings, pool: seq<string>, at: nat,
                      clock: nat -> string)
    requires CanDraw(pool, at, RunDemand(metadata, cfg))
    ensures Outcome(metadata, cfg, pool, at, clock) == Err(NoOptionsFound) <==>
            |Chosen(metadata, cfg).diseases| == 0 && |Chosen(metadata, cfg).statuses| == 0
    ensures Outcome(metadata, cfg, pool, at, clock).Ok? <==>
            (|Chosen(metadata, cfg).diseases| > 0 || |Chosen(metadata, cfg).statuses| > 0)
            && AllFound(cfg.indicatorIds, metadata.programIndicators)
    ensures Outcome(metadata, cfg, pool, at, clock).Err? && Outcome(metadata, cfg, pool, at, clock) != Err(NoOptionsFound) ==>
            exists p: nat :: FirstMissingAt(cfg.indicatorIds, metadata.programIndicators, p)
                             && Outcome(metadata, cfg, pool, at, clock).error == TemplateNotFound(cfg.indicatorIds[p])
  {
    ExpandOutcome(cfg.indicatorIds, metadata.programIndicators, RunVariants(metadata, cfg), cfg, pool, at, clock, 0);
  }

  /** A successful run writes, for each configured template, |S| indicators
      when no disease is chosen, |D| when no status is chosen, and |D|·|S|
      otherwise. */
  lemma OutcomeCount(metadata: Metadata, cfg: Config.Settings, pool: seq<string>, at: nat,
                     clock: nat -> string, out: seq<Indicator>)
    requires CanDraw(pool, at, RunDemand(metadata, cfg))
    requires Outcome(metadata, cfg, pool, at, clock) == Ok(out)
    ensures var d, s := |Chosen(metadata, cfg).diseases|, |Chosen(metadata, cfg).statuses|;
            |out| == |cfg.indicatorIds| * (if d == 0 then s else if s == 0 then d else d * s)
  {
    var sel := Chosen(metadata, cfg);
    VariantsCount(sel.diseases, sel.statuses);
    ExpandCount(cfg.indicatorIds, metadata.programIndicators, RunVariants(metadata, cfg), cfg, pool, at, clock, 0, out);
  }

  /** The ids of a successful run's output, indicator by indicator and each
      indicator's own before its boundaries', are the pool entries right
      after the counter, one per draw and in order. */
  lemma OutcomeIds(metadata: Metadata, cfg: Config.Settings, pool: seq<string>, at: nat,
                   clock: nat -> string, out: seq<Indicator>)
    requires at + RunDemand(metadata, cfg) < |pool|
    requires Outcome(metadata, cfg, pool, at, clock) == Ok(out)
    ensures IdsOf(out) == Window(pool, at + 1, RunDemand(metadata, cfg))
  {
    ExpandIds(cfg.indicatorIds, metadata.programIndicators, RunVariants(metadata, cfg), cfg, pool, at, clock, 0, out);
  }

  /** With a pool of distinct codes, no id occurs twice in what a run writes. */
  lemma OutcomeIdsDistinct(metadata: Metadata, cfg: Config.Settings, pool: seq<string>, at: nat,
                           clock: nat -> string, out: seq<Indicator>)
    requires Distinct(pool)
    requires CanDraw(pool, at, RunDemand(metadata, cfg))
    requires Outcome(metadata, cfg, pool, at, clock) == Ok(out)
    ensures Distinct(IdsOf(out))
  {
    ExpandIdsDistinct(cfg.indicatorIds, metadata.programIndicators, RunVariants(metadata, cfg), cfg, pool, at, clock, 0, out);
  }

  /** With distinct codes, no pool entry at or before the counter is handed
      out: in particular a fresh process, whose counter starts at 0 and is
      incremented before it is read, never uses the pool's first code. */
  lemma EarlierCodesUnused(metadata: Metadata, cfg: Config.Settings, pool: seq<string>, at: nat,
                           clock: nat -> string, out: seq<Indicator>, i: nat)
    requires Distinct(pool) && i <= at
    requires at + RunDemand(metadata, cfg) < |pool|
    requires Outcome(metadata, cfg, pool, at, clock) == Ok(out)
    ensures pool[i] !in IdsOf(out)
  {
    OutcomeIds(metadata, cfg, pool, at, clock, out);
    WindowExcludes(pool, at + 1, RunDemand(metadata, cfg), i);
  }

  /** Disease names are matched character for character: with the baked-in
      vocabulary, an option named "Bacterial meningitis" is not chosen,
      while one named "Bacterial meningitis " (trailing space, as in the
      vocabulary) is. */
  lemma MeningitisNeedsTrailingSpace(o: Option)
    requires o.optionSet == Config.Baked.diseaseOptionSetId
    ensures o.name == "Bacterial meningitis" ==>
            Diseases([o], Config.OptionSetIds(Config.Baked), Config.Baked.diseases) == []
    ensures o.name == "Bacterial meningitis " ==>
            Diseases([o], Config.OptionSetIds(Config.Baked), Config.Baked.diseases) == [o]
  {
    DiseasesSingle(o, Config.OptionSetIds(Config.Baked), Config.Baked.diseases);
    assert "Bacterial meningitis" !in Config.Baked.diseases;
    assert Config.Baked.diseases[5] == "Bacterial meningitis ";
  }
}
