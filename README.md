# Indicator expansion of import-indicator-script, in Dafny

import-indicator-script reads a DHIS2 metadata snapshot and writes a file of new program indicators. It copies each configured template indicator once per selected disease, once per selected incident status, or once per (disease, status) pair. Every copy gets:

- a composed name and short name;
- a filter expression;
- a fresh identifier drawn from a precomputed pool of codes;
- fresh identifiers for its analytics period boundaries.

This project models the core of `script.ts` and proves properties of it.

- **Selection** (`getOptionsByOptionSetIds`) is two order-preserving filters over the snapshot's options. It is modelled with pure functions.
- **Identifiers** (`generateId`) is a class `IdSupplier`. It holds the code pool and the lodash `uniqueId` counter. The counter is incremented before it is read, so a fresh process hands out `codes[1]` first and never `codes[0]`.
- **Generation** says, as functions, what `createIndicatorsFromTemplates` computes:
  - the variants of one template (`Variants`);
  - one generated indicator (`Derive`);
  - the chunk of one template (`DeriveAll`);
  - the whole flatMap over the template ids, including the error for a missing template (`Expand`).
- **Expander** holds the source's loops as methods that thread one `IdSupplier`:
  - one loop per branch of the source;
  - a nested loop for the disease × status case;
  - the outer loop over template ids;
  - `main`'s "no options" guard.

  Each method is proved to compute exactly the corresponding Generation function. It is also proved to advance the counter by exactly the number of ids those functions draw.
- **GenerationFacts, ExpansionFacts and Outcomes** hold the properties:
  - output counts;
  - cross-product order;
  - exact name and filter formats, with a reader that recovers the filter's comparisons;
  - field inheritance from the template;
  - which pool entries a run consumes;
  - uniqueness of every id in the output, given a pool without repeats;
  - when each error is raised.

Configuration (`constants.ts`) is a `Config.Settings` value; `Config.Baked` holds its literals. The wall clock is a parameter `clock: nat -> string`. Generated indicator number k of a run (counting from 0 over the whole output) reads `clock(k)` once, and the value is used for its `created` and `lastUpdated` and for those of its boundaries.

The specification functions follow these parts of `script.ts`:

- `Selection.Diseases`, `Selection.Statuses` and `Selection.SelectOptions` are the two filters of `getOptionsByOptionSetIds` (script.ts:120-135).
- `Generation.Variants` is the three-way branch on which selection is empty (script.ts:154, 172, 190).
- `Generation.NameOf`, `Generation.ShortNameOf` and `Generation.FilterOf` are the name, short-name and filter templates of the three branches (script.ts:158-160, 176-178, 195-197).
- `Generation.Derive` is one generated copy, with its id, boundaries and timestamps (script.ts:156-170).
- `Generation.FindTemplate` is the lookup of a template by id (script.ts:146-148).
- `Generation.Expand` is the flatMap over the template ids, throwing for a missing one (script.ts:145-151).
- `Outcomes.Outcome` is `main` without its I/O (script.ts:221-238).

The code makes these choices, and the model follows them:

- **Pool exhaustion.** `generateId` indexes the pool without a bounds check (script.ts:217). The model requires enough pool: `CanDraw`, and `counter + 1 < |pool|` on `IdSupplier.Next`.
- **Pool size.** The counter is incremented before it is read, so a run drawing N ids needs N + 1 entries, and `codes[0]` is never used.
- **Disease names.** Disease names are compared exactly (script.ts:126). So `"Bacterial meningitis "`, with its trailing space, matches only a name with the same trailing space (`Outcomes.MeningitisNeedsTrailingSpace`).

## Model

Below, #S, #D and #x stand for the number of selected statuses, of selected diseases and of elements of x.

| member | source | states |
|---|---|---|
| Selection.Filter | script.ts:121-126 | Array.filter: the result is no longer than its input and holds only input elements the predicate accepts |
| Selection.FilterComplete | script.ts:121-126 | every element that passes the predicate is in the filtered sequence |
| Selection.FilterAppend | script.ts:121-126 | filtering a concatenation is concatenating the filtered parts, so the input order is kept |
| Selection.DiseasesMembers | script.ts:120-126 | an option is among the selected diseases exactly when it is in the input, its option set is the first id, and its name is in the disease vocabulary |
| Selection.DiseasesAppend | script.ts:120-126 | the disease selection of a concatenation is the concatenation of the selections: it is a subsequence in source order, not sorted |
| Selection.DiseasesSingle | script.ts:120-126 | a single option is kept exactly when it is in the first option set and its name is in the vocabulary |
| Selection.StatusesMembers | script.ts:128-134 | an option is among the selected statuses exactly when it is in the input, its option set is the second id, and its code is in the status vocabulary |
| Selection.StatusesAppend | script.ts:128-134 | the status selection of a concatenation is the concatenation of the selections |
| Selection.StatusesSingle | script.ts:128-134 | a single option is kept exactly when it is in the second option set and its code is in the vocabulary |
| Outcomes.MeningitisNeedsTrailingSpace | script.ts:126 | with the baked-in vocabulary, an option named "Bacterial meningitis" is not selected, while one named "Bacterial meningitis " is |
| Filters.ReadUntil | script.ts:160 | the split at the first stop character leaves a strictly shorter remainder |
| Filters.ReadClause | script.ts:160 | reading one predicate consumes input |
| Filters.ReadClauseAt | script.ts:160 | a predicate `A{attr}=="code"` followed by any text reads back as its attribute, its code and that text |
| Filters.ReadSingle | script.ts:160 | a single-predicate filter reads back as exactly that one (attribute, code) comparison |
| Filters.ReadConjunction | script.ts:197 | two predicates joined by ` && ` read back as both comparisons, in written order |
| GenerationFacts.FilterReadsBack | script.ts:160 | the filter of a status copy, a disease copy or a pair copy (script.ts:160, 178, 197) reads back as its comparisons, with the status comparison first for a pair, provided no attribute id holds `}` and no code holds `"` (`Readable`) |
| Generation.Cross | script.ts:191-192 | the cross product has one variant per (disease, status) pair |
| GenerationFacts.CrossAt | script.ts:191-192 | the pair (disease i, status j) sits at position i·#S + j of the cross product |
| GenerationFacts.VariantsCount | script.ts:154-210 | one template yields #S copies when no disease is selected, #D when no status is, and #D·#S otherwise |
| GenerationFacts.VariantsStatusesOnly | script.ts:154-155 | with no disease selected, copy j stands for status j |
| GenerationFacts.VariantsDiseasesOnly | script.ts:172-173 | with diseases but no status selected, copy i stands for disease i |
| GenerationFacts.VariantsPairAt | script.ts:190-192 | with both selected, copy i·#S + j stands for (disease i, status j): diseases outer, statuses inner |
| GenerationFacts.DrawsIsProduct | script.ts:154-210 | n copies drawing c ids each draw n·c ids |
| Generation.Restamp | script.ts:163-169 | rewriting the boundaries keeps their number |
| GenerationFacts.RestampAt | script.ts:163-169 | boundary j keeps every field but takes the j-th id drawn for it and the parent's timestamps |
| GenerationFacts.DeriveInherits | script.ts:156-171 | a copy takes the next id, the composed name, short name and filter, and one timestamp for created and lastUpdated; every boundary takes the next ids in order and the parent's timestamps; every other field of the copy and of each boundary equals the template's |
| GenerationFacts.DeriveAllAt | script.ts:155-171 | copy q of a chunk is the copy for variant q, with its ids drawn after the q copies before it and clock reading number k + q |
| GenerationFacts.DeriveAllPrefix | script.ts:155-171 | the first p copies of a chunk depend only on the first p variants |
| GenerationFacts.DeriveAllSnoc | script.ts:155-171 | the chunk for one more variant is the chunk so far followed by that variant's copy |
| Generation.DeriveAll | script.ts:155-171 | a chunk has one copy per variant |
| Generation.OwnIds | script.ts:157-169 | an indicator carries 1 + #boundaries ids |
| GenerationFacts.RestampIds | script.ts:163-169 | the boundary ids of a copy are consecutive pool entries |
| GenerationFacts.DeriveIds | script.ts:157-169 | a copy carries exactly 1 + #boundaries consecutive pool entries, its own id first |
| GenerationFacts.IdsOfAppend | script.ts:145 | the ids of concatenated outputs are the concatenated ids |
| GenerationFacts.DeriveAllOwnIds | script.ts:157-169 | copy q of a chunk carries the pool entries right after those of the copies before it |
| GenerationFacts.DeriveAllIds | script.ts:155-171 | a whole chunk carries Draws(#variants, cost) consecutive pool entries after the counter, in order |
| Generation.FindTemplateSpec | script.ts:146-148 | find answers with an indicator carrying the id asked for, and answers "missing" exactly when no indicator has that id |
| Generation.FindTemplateFirst | script.ts:146-148 | find answers with the first indicator carrying the id |
| ExpansionFacts.AllFoundCons | script.ts:145-151 | every template id is found exactly when the first is found and every later one is |
| ExpansionFacts.ExpandOutcome | script.ts:145-151 | the expansion succeeds exactly when every template id is found; otherwise the error names the first missing id |
| ExpansionFacts.ExpandFoundOk | script.ts:145 | a successful expansion is the first template's chunk followed by the later templates' expansion, in template order |
| ExpansionFacts.ExpandCount | script.ts:145-210 | a successful expansion has #templateIds·#variants indicators |
| ExpansionFacts.ExpandIds | script.ts:145-218 | the ids in a successful expansion are the pool entries at counter + 1, counter + 2, …, one per draw, in order |
| ExpansionFacts.ExpandIdsDistinct | script.ts:145-218 | with a pool without repeats, no id occurs twice in a successful expansion |
| ExpansionFacts.NoDemandNoOutput | script.ts:145-210 | an expansion that draws no id produces no indicator |
| ExpansionFacts.PrependAssoc | script.ts:145 | flatMap's concatenation is associative, including past an error |
| Identifiers.Window | script.ts:215-218 | a run of n pool entries has n entries |
| Identifiers.WindowIsSlice | script.ts:215-218 | the ids drawn in sequence from position lo are the pool slice starting at lo |
| Identifiers.WindowJoin | script.ts:215-218 | two runs of draws one after the other draw the joined run |
| Identifiers.DistinctWindow | script.ts:215-218 | consecutive draws from a pool without repeats never repeat an id |
| Identifiers.WindowExcludes | script.ts:215-218 | draws after a position never return a pool entry at or before it |
| Identifiers.IdSupplier.constructor | script.ts:215-218 | a fresh supplier holds the pool with the counter at 0 |
| Identifiers.IdSupplier.Next | script.ts:215-218 | generateId increments the counter first and then returns the pool entry at the new counter; the pool must hold that index |
| Expander.MakeIndicator | script.ts:156-170 | one copy, its id drawn first and then one id per boundary in order, equals Derive, and the counter advances by 1 + #boundaries |
| Expander.ExpandStatuses | script.ts:154-171 | the loop over statuses produces exactly the chunk DeriveAll and draws Draws(#S, cost) ids |
| Expander.ExpandDiseases | script.ts:172-189 | the loop over diseases produces exactly the chunk DeriveAll and draws Draws(#D, cost) ids |
| Expander.ExpandPairs | script.ts:190-210 | the nested loop, diseases outer and statuses inner, produces exactly the chunk DeriveAll over the cross product |
| Expander.ExpandTemplate | script.ts:154-210 | the three-way branch on which selection is empty produces exactly the template's chunk |
| ExpansionFacts.ExpandStepFound | script.ts:145-151 | after a found template, the expansion of the remaining ids is that template's chunk in front of the expansion of the ids after it, with the counter moved past the chunk's draws |
| ExpansionFacts.ExpandStepMissing | script.ts:149-151 | at a missing template, the whole expansion is the error naming that id, and nothing more is drawn |
| Expander.ExpandTemplates | script.ts:139-212 | the loop over template ids returns exactly Expand: the concatenated chunks, or the error for the first missing template. It draws exactly Demand ids, so none for the missing template or any later one |
| Outcomes.NoOptionsNoDemand | script.ts:229-231 | when no option is chosen, a run draws no ids |
| Expander.Run | script.ts:221-238 | main without I/O returns exactly Outcome and advances the counter by the run's demand |
| Expander.RunFresh | script.ts:215-238 | a process that starts the counter at 0 returns exactly Outcome with the counter at 0 |
| Outcomes.OutcomeErrors | script.ts:229-231 | a run raises "no options found" exactly when both selections are empty. It succeeds exactly when some option is chosen and every template is found; otherwise the error names the first missing template id |
| Outcomes.OutcomeCount | script.ts:139-212 | a successful run writes #templateIds times #S, #D or #D·#S indicators, by which selection is empty |
| Outcomes.OutcomeIds | script.ts:139-218 | the ids a successful run writes are the pool entries right after the counter, indicator by indicator, own id before boundary ids |
| Outcomes.OutcomeIdsDistinct | script.ts:139-218 | with a pool without repeats, every id a successful run writes is unique |
| Outcomes.EarlierCodesUnused | script.ts:215-218 | with a pool without repeats, no entry at or before the counter is written; from a fresh start, codes[0] is never used |

## Left out

- Reading the snapshot and writing the output (script.ts:110-113, 245): file I/O and JSON parsing and printing are not modelled. The snapshot is a `Metadata` value, and the output is the `seq<Indicator>` a run returns. The output file holds only `programIndicators`.
- The two `console.log` calls (script.ts:244, 246).
- `new Date().toISOString()`: the wall clock is the parameter `clock`, read once per generated indicator. Its string format is not modelled.
- lodash `uniqueId` internals: only its effect is modelled. The counter starts at 0 in a fresh process, is incremented, and is then read as an index. Its string-to-number conversion is the identity here.
- Pool exhaustion: `codes[idx]` past the end is `undefined` in the source. The model requires a large enough pool (`CanDraw`, and the precondition of `IdSupplier.Next`) rather than modelling `undefined` ids.
- Sub-objects the script never reads or writes (sharing, access, users, attribute values, translations, legend sets, boundary types and targets, the snapshot's `system` and tracked entity attributes) are carried as opaque `Payload` values. They are copied unchanged.
- The spread copy `{ ...templateIndicator }` is shallow in the source. The model works on values. The difference is unobservable here, because the script replaces the copied boundary array rather than mutating it.
- `Array.prototype.find` is modelled as the pure function `Generation.FindTemplate`, not as a loop.
- Expander.ExpandTemplates: after a missing template the source has thrown, so it returns no counter value. The model states where the counter stands, but the thrown exception's message text is not modelled, only which id it names.
- GenerationFacts.FilterReadsBack: the source interpolates attribute ids and codes into the filter unescaped (script.ts:160, 178, 197). A code containing `"` or an attribute id containing `}` yields a filter that does not read back as its comparisons, so the reader's lemma requires `Readable`. The filter text itself is modelled for every input.
- Strings: JavaScript strings are sequences of UTF-16 code units, while Dafny's `string` is a sequence of Unicode scalar values. Equality and concatenation, the only string operations the core uses, agree on well-formed text. A lone surrogate has no counterpart in the model.
- constants.ts is not part of this model as a file: its literals are `Config.Baked`, and every operation takes the configuration as a parameter.
