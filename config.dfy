// The configuration the script is compiled with: the two vocabularies, the
// template ids, and the ids of the option sets and tracked entity
// attributes. The model takes it as a value; `Baked` holds the literals of
// constants.ts.
module Config {

  datatype Settings = Settings(
    diseases: seq<string>,          // disease option names recognised
    incidentStatuses: seq<string>,  // status option codes recognised
    indicatorIds: seq<string>,      // template program indicators to copy
    diseaseTrackedEntityId: string,
    statusTrackedEntityId: string,
    diseaseOptionSetId: string,
    statusOptionSetId: string)

  /** The values in constants.ts; note the trailing space in "Bacterial meningitis ". */
  const Baked := Settings(
    ["COVID19", "AFP", "Acute respiratory", "Acute VHF", "Anthrax",
     "Bacterial meningitis ", "Cholera", "Diarrhoea with blood box", "Measles",
     "Monkeypox", "Neonatal tetanus", "Plague", "SARIs", "Typhoid fever",
     "Zika fever"],
    ["WATCH", "ALERT", "RESPOND"],
    ["dr4OT0ql4cl"],
    "jLvbkuvPdZ6",
    "cDLJoNCWHHs",
    "DFSpWpoNq5r",
    "BhYOdRU5xsg")

  /** The option-set id pair main passes to the selector: diseases first. */
  function OptionSetIds(cfg: Settings): seq<string> {
    [cfg.diseaseOptionSetId, cfg.statusOptionSetId]
  }
}
