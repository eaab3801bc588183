# OpenExtracts — a verified model of the extract rule engine

OpenExtracts is a server-side mod for SPT (a single-player Escape from Tarkov
server). At start-up it walks the extract records ("exits") of ten raid
locations and rewrites them in place, according to a configuration file. The
rewrites are:

- every extract becomes an individual one with no minimum party size;
- entry point restrictions can be lifted;
- the chance that a random extract is open can be overridden;
- the extraction time can be capped;
- co-op extracts can be converted to payment extracts;
- backpack restrictions can be removed;
- the item requirements of the Alpinist cliff extract can be removed.

In the current revision, train extracts skip the last three rules. In the
older revision they also skip the time cap and the individual / zero-player
normalisation.

Two revisions of this engine are modelled side by side. They are not merged,
because they differ in guards, order and data:

- **current** — `src/models/ModifyExtracts.ts`, class `ModifyExtracts`:
  - module `ExtractRules` holds the configuration, the location name catalogue, the extract predicates, and each rule as a pure function from the old field values of an extract to the new ones;
  - module `ModifyExtracts` holds the rules as in-place methods on an extract record, the entry point union computation, and the pass over all enabled locations;
  - every method is proved to compute exactly the matching function.
- **older** — `src/mod.ts`, class `OpenExtracts`, module `OpenExtractsMod`:
  - the `mod_enabled` gate of `postDBLoadAsync`;
  - the single inlined loop of `updateExtracts`;
  - the fixed entry point table `getEntryPoints`;
  - `locationNameLookup`.

  The guards are modelled as written: the chance override applies only values that are `>= 0 && >= 100` and truthy; the cliff rule matches the exact name "Alpinist"; the train check comes after the entry point and chance rules only.

Shared modules:

- `Exits` is the host's extract record: a class `Exit` updated in place, its value snapshot `ExitState`, and a `Location`, which is the base's `Id` and its sequence of records.
- `Text` holds the JavaScript built-ins the rules rely on: `toLowerCase`, `includes`, `split(",")`, `join(",")`, and the first-seen order of a `Set` filled one element at a time.

The configuration and the location table are parameters. Logging is left out.

Facts about the code that the model keeps:

- The current revision applies a configured chance whatever its value (src/models/ModifyExtracts.ts:144-147). There is no `[0, 100]` range check.
- The older revision applies a configured chance only when it is truthy and passes `>= 0 && >= 100` (src/mod.ts:78-86), so a value below 100 is never applied. `ChanceWrittenOnlyFromHundred` states exactly which values get through.
- Train extracts are not left untouched. Before the train check they still receive the entry point and chance rules in both revisions, and the normalisation and time cap in the current one (src/models/ModifyExtracts.ts:51-58, src/mod.ts:68-99).
- The cliff rule differs per revision. The current one needs "alpinist" in the lower-cased name and passage requirement "Reference" (src/models/ModifyExtracts.ts:300-302). The older one needs the exact name "Alpinist" and nothing else (src/mod.ts:125).

## Model

| member | source | states |
|---|---|---|
| `Text.ToLower` | src/models/ModifyExtracts.ts:321 | `toLowerCase`: same length, every ASCII capital replaced by its small letter, every other character kept |
| `Text.Join` | src/models/ModifyExtracts.ts:313 | `join(",")`: the pieces with the separator between them; `JoinSplit` and `SplitJoin` state that it inverts `Split` |
| `Text.ToLowerIdempotent` | src/models/ModifyExtracts.ts:321 | lower-casing twice is lower-casing once |
| `Text.Contains` | src/models/ModifyExtracts.ts:301 | `includes` is true exactly when the substring occurs at some index |
| `Text.Split` | src/models/ModifyExtracts.ts:310 | `split(",")` gives at least one piece, and no piece contains the separator |
| `Text.JoinSplit` | src/models/ModifyExtracts.ts:310-313 | joining the pieces of a split gives back the original string |
| `Text.SplitJoin` | src/models/ModifyExtracts.ts:313 | splitting a join of separator-free pieces gives back the pieces |
| `Text.FirstIndex` | src/models/ModifyExtracts.ts:311 | the position at which an element is first added to a set |
| `Text.Dedup` | src/models/ModifyExtracts.ts:308-313 | the set filled element by element has no duplicates and has exactly the elements added |
| `Text.DedupSnoc` | src/models/ModifyExtracts.ts:311 | adding one element leaves a set that already holds it unchanged, and appends it otherwise |
| `Text.DedupFirstSeenOrder` | src/models/ModifyExtracts.ts:313 | `Array.from` lists the set's elements in the order they were first added |
| `Text.DedupOfNoDup` | src/models/ModifyExtracts.ts:308-313 | a duplicate-free list fills a set in its own order |
| `Text.DedupAbsorbs` | src/models/ModifyExtracts.ts:311 | adding elements already present leaves the set as it was |
| `Text.FlattenMembership` | src/models/ModifyExtracts.ts:309-312 | an entry point is among all the extracts' pieces exactly when it is among one extract's pieces |
| `ExtractRules.EnabledLocations` | src/models/ModifyExtracts.ts:76-89 | ten distinct locations, each with an entry in the name table |
| `ExtractRules.GetLocationName` | src/models/ModifyExtracts.ts:15-27 | the name table of lines 15-27 read with the lower-cased game name, falling back to that name; `GetLocationNameLookup` states the result for every input |
| `ExtractRules.GetLocationNameLookup` | src/models/ModifyExtracts.ts:320-323 | the lookup is the table entry of the lower-cased name for the wanted kind, and the lower-cased name when there is no entry |
| `ExtractRules.GetLocationNameIgnoresCase` | src/models/ModifyExtracts.ts:320-323 | the lookup does not depend on letter case |
| `ExtractRules.ReserveSpellingsAgree` | src/models/ModifyExtracts.ts:22-23 | both reserve spellings resolve to "reserve" / "Reserve" |
| `ExtractRules.GetLocationNameExamples` | src/models/ModifyExtracts.ts:15-27 | "bigmap" is "Customs", "TarkovStreets" is configured as "streets", and an unknown map keeps its own name |
| `ExtractRules.IsCooperationExtract` | src/models/ModifyExtracts.ts:219-221 | an extract is a co-op extract exactly when its passage requirement is "ScavCooperation" |
| `ExtractRules.BackpackExtractRequirementTips` | src/models/ModifyExtracts.ts:265-267 | the two tips that mark a backpack extract |
| `ExtractRules.IsBackpackExtract` | src/models/ModifyExtracts.ts:255-260 | an extract is a backpack extract exactly when its tip is one of the two and its slot is "Backpack" |
| `ExtractRules.IsCliffExtract` | src/models/ModifyExtracts.ts:300-302 | an extract is the cliff extract exactly when its lower-cased name contains "alpinist" and its requirement is "Reference" |
| `ExtractRules.CommonAdjusted` | src/models/ModifyExtracts.ts:94-98 | the extract becomes individual with player count 0, and nothing else changes |
| `ExtractRules.EntryPointsWidened` | src/models/ModifyExtracts.ts:103-126 | with the flag on, the entry points become the location's full list; with it off, the extract is unchanged; only entry points are written |
| `ExtractRules.ChanceAdjusted` | src/models/ModifyExtracts.ts:131-159 | with random chances enabled and an entry configured under the location's config name, the chance becomes that value; otherwise the extract is unchanged; only the chance is written |
| `ExtractRules.TimeCapped` | src/models/ModifyExtracts.ts:164-184 | the extraction time becomes the minimum of itself and the cap; only the time is written |
| `ExtractRules.CooperationConverted` | src/models/ModifyExtracts.ts:189-221 | a co-op extract becomes a TransferItem extract paying the configured item and count; other extracts are unchanged; no co-op extract remains while the flag is on |
| `ExtractRules.BackpackRemoved` | src/models/ModifyExtracts.ts:226-267 | an extract with one of the two backpack tips and slot Backpack loses the requirement; others are unchanged; none remains while the flag is on |
| `ExtractRules.CliffRemoved` | src/models/ModifyExtracts.ts:272-302 | an extract whose lower-cased name contains "alpinist" and whose requirement is "Reference" has its id and requirement cleared; others are unchanged; none remains while the flag is on |
| `ExtractRules.Pipeline` | src/models/ModifyExtracts.ts:51-63 | after the per-extract pipeline the extract is individual and time-capped; its entry points are the full list when enabled; a train extract keeps every gating field |
| `ExtractRules.PipelineIdempotent` | src/models/ModifyExtracts.ts:51-63 | running the pipeline twice gives the same extract as running it once |
| `ExtractRules.EntryPointUnionMembers` | src/models/ModifyExtracts.ts:307-314 | an entry point is in the location's union exactly when some extract lists it |
| `ExtractRules.EntryPointUnionShape` | src/models/ModifyExtracts.ts:307-314 | union members are comma-free, and a location with an extract has a non-empty union |
| `ExtractRules.AllEntryPoints` | src/models/ModifyExtracts.ts:307-314 | the comma-joined union of the extracts' entry points; `AllEntryPointsIsUnion` states what splitting it gives back |
| `ExtractRules.AllEntryPointsIsUnion` | src/models/ModifyExtracts.ts:307-314 | splitting the joined string gives back the union: duplicate-free, every extract's entry points, in first-seen order |
| `ExtractRules.UnionStable` | src/models/ModifyExtracts.ts:50-52 | rewriting already-visited extracts to the joined union does not change the union recomputed for later extracts |
| `ExtractRules.AdjustedLocation` | src/models/ModifyExtracts.ts:50-64 | every extract of the location is individual, keeps its name, gets the location's original union when enabled, and keeps its gating fields if it is a train |
| `ExtractRules.AdjustedLocationKeepsUnion` | src/models/ModifyExtracts.ts:50-64 | the pass does not change a location's entry point union |
| `ExtractRules.AdjustedLocationIdempotent` | src/models/ModifyExtracts.ts:48-64 | running the pass twice over a location gives the state of running it once |
| `ExtractRules.DedupExample` | src/models/ModifyExtracts.ts:308-313 | adding a, b, b, c to a set holds a, b, c in that order |
| `ExtractRules.AllEntryPointsExample` | src/models/ModifyExtracts.ts:307-314 | extracts with entry points "A,B" and "B,C" give "A,B,C" |
| `ExtractRules.TimeCapExample` | src/models/ModifyExtracts.ts:164-173 | with a 30-second cap, 45 becomes 30 and 20 stays 20 |
| `ExtractRules.ChanceOverrideExample` | src/models/ModifyExtracts.ts:137-147 | a chance configured under "customs" applies on "bigmap"; an unconfigured extract is unchanged |
| `ModifyExtracts.CommonAdjustments` | src/models/ModifyExtracts.ts:94-98 | the record's new state is `CommonAdjusted` of its old state |
| `ModifyExtracts.AddAll` | src/models/ModifyExtracts.ts:311 | adding one extract's pieces one at a time to a set that holds the union of the earlier pieces gives the union with these pieces, in first-seen order |
| `ModifyExtracts.GetAllEntryPoints` | src/models/ModifyExtracts.ts:307-314 | the set-filling loops return the comma-joined first-seen union of the location's current records |
| `ModifyExtracts.EnableAllEntryPoints` | src/models/ModifyExtracts.ts:103-126 | the record's new state is `EntryPointsWidened` against the union of the location as it was before the call |
| `ModifyExtracts.AdjustChanceEnabled` | src/models/ModifyExtracts.ts:131-159 | the record's new state is `ChanceAdjusted` of its old state |
| `ModifyExtracts.AdjustMaximumExtractTime` | src/models/ModifyExtracts.ts:164-184 | the record's new state is `TimeCapped` of its old state |
| `ModifyExtracts.ConvertCooperationToPayment` | src/models/ModifyExtracts.ts:189-214 | the record's new state is `CooperationConverted` of its old state |
| `ModifyExtracts.RemoveBackpackRequirement` | src/models/ModifyExtracts.ts:226-250 | the record's new state is `BackpackRemoved` of its old state |
| `ModifyExtracts.RemoveCliffRequirements` | src/models/ModifyExtracts.ts:272-295 | the record's new state is `CliffRemoved` of its old state |
| `ModifyExtracts.AdjustExtract` | src/models/ModifyExtracts.ts:51-63 | one loop body: the record's new state is `Pipeline` of its old state against the location's original union |
| `ModifyExtracts.AdjustLocation` | src/models/ModifyExtracts.ts:50-64 | the inner loop leaves the location's records equal to `AdjustedLocation` of their old states |
| `ModifyExtracts.AdjustNamedLocation` | src/models/ModifyExtracts.ts:48-64 | one outer iteration adjusts the named location and leaves every other listed location's records unchanged |
| `ModifyExtracts.MakeAdjustments` | src/models/ModifyExtracts.ts:41-71 | after the pass, each enabled location's records equal `AdjustedLocation` of their old states |
| `OpenExtractsMod.LocationNames` | src/mod.ts:47-58 | ten distinct location names |
| `OpenExtractsMod.GetEntryPoints` | src/mod.ts:156-183 | the fixed entry point list of each exact base id, and "" for any other id; `GetEntryPointsCaseSensitive` and `StreetsEntryPointsRepeat` state its behaviour |
| `OpenExtractsMod.GetEntryPointsCaseSensitive` | src/mod.ts:156-183 | the entry point table is keyed by exact, case-sensitive base ids; other spellings fall to "" |
| `OpenExtractsMod.StreetsEntryPointsRepeat` | src/mod.ts:175-176 | the streets entry point list splits into seven pieces, with E6_1 twice |
| `OpenExtractsMod.LocationNameLookup` | src/mod.ts:193-212 | the configuration name of a lower-cased internal name, falling back to that name; the three lookup lemmas below state its behaviour |
| `OpenExtractsMod.LocationNameLookupTable` | src/mod.ts:193-212 | the internal names map to "customs", "factory_day", "factory_night", "reserve" (both spellings) and "streets"; others keep their lower-cased name |
| `OpenExtractsMod.LocationNameLookupIgnoresCase` | src/mod.ts:195 | the lookup does not depend on letter case |
| `OpenExtractsMod.LocationNameLookupFallback` | src/mod.ts:210-211 | a name outside the switch comes back lower-cased |
| `OpenExtractsMod.EntryPointsReplaced` | src/mod.ts:68-75 | with `ignore_entry_point` on, the entry points become the table value of the base id; with it off, the extract is unchanged; only entry points are written |
| `OpenExtractsMod.ChanceUpdated` | src/mod.ts:77-93 | when the guard as written holds, the chance becomes the configured value; otherwise the extract is unchanged; only the chance is written |
| `OpenExtractsMod.CooperationPaid` | src/mod.ts:101-111 | with `convert_cooperation` on, a "ScavCooperation" extract becomes a TransferItem extract paying the configured item and count; otherwise it is unchanged; only those four fields are written |
| `OpenExtractsMod.BackpackDropped` | src/mod.ts:113-122 | with the flag on, an extract with one of the two tips and slot Backpack gets requirement "None", slot "FirstPrimaryWeapon" and an empty tip; otherwise it is unchanged; none remains while the flag is on |
| `OpenExtractsMod.AlpinistFreed` | src/mod.ts:124-132 | with the flag on, the extract named exactly "Alpinist" has its id and requirement cleared; otherwise it is unchanged; only those two fields are written |
| `OpenExtractsMod.TimeLimited` | src/mod.ts:134-140 | the time becomes the smaller of itself and the maximum; only the time is written |
| `OpenExtractsMod.NonTrainUpdated` | src/mod.ts:101-144 | after the non-train part the extract is individual with 0 players and time-capped; name, entry points and chance are kept |
| `OpenExtractsMod.UpdatedExtract` | src/mod.ts:66-144 | entry points become the table value when enabled; a changed chance is at least 100; a train extract changes only entry points and chance; any other extract becomes individual and time-capped |
| `OpenExtractsMod.ChanceWrittenOnlyFromHundred` | src/mod.ts:77-93 | the chance changes exactly when the written guard holds, then takes the configured value; a configured value below 100 is never applied |
| `OpenExtractsMod.NonTrainRewrites` | src/mod.ts:101-132 | for a non-train extract, the final requirement, tip, slot, id and count, for every combination of the three rewrites: each field keeps its value unless a rule that writes it fires; the backpack rule never fires after the co-op conversion; the exact-name cliff rule fires even after it |
| `OpenExtractsMod.UpdatedExtractIdempotent` | src/mod.ts:66-144 | running the loop body twice on an extract is running it once |
| `OpenExtractsMod.NonTrainUpdatedIdempotent` | src/mod.ts:101-144 | the non-train part of the loop body is idempotent |
| `OpenExtractsMod.UpdatedLocation` | src/mod.ts:64-145 | every non-train extract is individual with 0 players; train extracts change only entry points and chance; entry points are the table value when enabled |
| `OpenExtractsMod.UpdatedLocationIdempotent` | src/mod.ts:64-145 | running the inner loop twice over a location is running it once |
| `OpenExtractsMod.UpdateExtract` | src/mod.ts:66-99 | one loop body: the record's new state is `UpdatedExtract` of its old state |
| `OpenExtractsMod.UpdateNonTrainExtract` | src/mod.ts:101-144 | the part of the loop body after the train check: the new state is `NonTrainUpdated` of the old |
| `OpenExtractsMod.UpdateLocation` | src/mod.ts:64-145 | the inner loop leaves the location's records equal to `UpdatedLocation` of their old states |
| `OpenExtractsMod.UpdateNamedLocation` | src/mod.ts:61-146 | one outer iteration updates the named location and leaves the other listed locations unchanged |
| `OpenExtractsMod.UpdateExtracts` | src/mod.ts:44-147 | after the pass, each listed location's records equal `UpdatedLocation` of their old states |
| `OpenExtractsMod.PostDBLoadAsync` | src/mod.ts:24-38 | with `mod_enabled` false no record changes; otherwise the records are those of `updateExtracts` |

## Left out

- Logging (`logger.log`, `logWithColor`, `debug`, `warning`) and the `debug` flags: they only produce messages and change no record.
- The dependency container, the database server and the asynchronous import of the configuration file are left out. The configuration value and the location table are parameters of the model.
- The `ModifyExtracts` constructor (src/models/ModifyExtracts.ts:33-35) only calls `makeAdjustments`, which is modelled as `ModifyExtracts.MakeAdjustments`.
- The current revision's switch that decides whether the engine runs at all is in a file that is not part of this model. The older revision's `mod_enabled` gate is modelled.
- `toLowerCase` is modelled for ASCII letters only. Unicode case mapping is not modelled, and every name and key in the source is ASCII.
- Aliased records are not modelled. The passes require every extract record of the listed locations to be a distinct object. A record shared by two locations, or listed twice, would be rewritten twice by the host. The model excludes that case.
- A missing location in the table is not modelled. It makes the source throw on `locations[name].base`, so the passes require every listed location to be present.
- Configuration values are modelled as integers and strings. The following JavaScript behaviour is not modelled:
  - a missing key in a chance map is modelled as "not in the map", and other JavaScript values (`null`, strings, `NaN`) are not;
  - prototype keys such as `constructor` looked up in the plain objects;
  - floating-point chances and times.
- `for ... in` over `exits` is modelled as iteration in index order.
- The train check's `continue` is modelled as a `return` from the method that models one loop body (`AdjustExtract`, `UpdateExtract`).
- The part of `updateExtracts`' loop body after the train check is a separate method (`UpdateNonTrainExtract`), to keep each proof small. The statements and their order are those of the source.
