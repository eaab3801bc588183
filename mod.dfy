/**
 * The older revision of the engine (src/mod.ts): the same kinds of rule,
 * inlined in one loop, in a different order and with different guards. The
 * entry point list comes from a fixed table keyed by the location's `Id`,
 * the chance override only applies values of at least 100, the train check
 * comes before the cooperation, backpack, cliff, time-cap and normalisation
 * steps, and the cliff rule matches the extract's exact name. The
 * whole pass is skipped when `mod_enabled` is false.
 */
module OpenExtractsMod {
  import opened Text
  import opened Exits

  /** The configuration file of this revision (the debug flag only gates logging). */
  datatype ModConfig = ModConfig(
    modEnabled: bool,
    ignoreEntryPoint: bool,
    randomExtractChances: map<string, map<string, int>>,
    randomExtractUpdate: bool,
    convertCooperation: bool,
    cooperationItem: string,
    cooperationNumber: int,
    ignoreBackpackRequirements: bool,
    ignoreCliffRequirements: bool,
    maxExtractionTime: int)

  /** The locations the pass visits, in order. */
  function LocationNames(): (r: seq<string>)
    ensures |r| == 10 && NoDup(r)
  {
    ["bigmap", "factory4_day", "factory4_night", "interchange", "laboratory",
     "lighthouse", "rezervbase", "shoreline", "tarkovstreets", "woods"]
  }

  /** The fixed entry point list of a location, by its exact `Id`; unknown ids get "". */
  function GetEntryPoints(location: string): string {
    if location == "bigmap" then "Customs,Boiler Tanks"
    else if location == "factory4_day" then "Factory"
    else if location == "factory4_night" then "Factory"
    else if location == "Interchange" then "MallSE,MallNW"
    else if location == "laboratory" then "Common"
    else if location == "Lighthouse" then "Tunnel,North"
    else if location == "RezervBase" then "Common"
    else if location == "Shoreline" then "Village,Riverside"
    else if location == "TarkovStreets" then "E1_2,E6_1,E2_3,E3_4,E4_5,E5_6,E6_1"
    else if location == "Woods" then "House,Old Station"
    else ""
  }

  /** The configuration-file name of a location, from its lower-cased internal name. */
  function LocationNameLookup(location: string): string {
    var location := ToLower(location);
    if location == "bigmap" then "customs"
    else if location == "factory4_day" then "factory_day"
    else if location == "factory4_night" then "factory_night"
    else if location == "rezervbase" || location == "reservebase" then "reserve"
    else if location == "tarkovstreets" then "streets"
    else location
  }

  /**
   * The configured chance is present and truthy: the location has an entry
   * and that entry holds a non-zero value for the extract.
   */
  predicate HasTruthyChance(cfg: ModConfig, locationName: string, extractName: string) {
    var key := LocationNameLookup(locationName);
    key in cfg.randomExtractChances && extractName in cfg.randomExtractChances[key]
    && cfg.randomExtractChances[key][extractName] != 0
  }

  function ConfigChance(cfg: ModConfig, locationName: string, extractName: string): int
    requires HasTruthyChance(cfg, locationName, extractName)
  {
    cfg.randomExtractChances[LocationNameLookup(locationName)][extractName]
  }

  /** The chance guard as written: present, updates on, `>= 0 && >= 100`, and different. */
  predicate ChanceApplies(cfg: ModConfig, locationName: string, x: ExitState) {
    && HasTruthyChance(cfg, locationName, x.Name)
    && cfg.randomExtractUpdate
    && ConfigChance(cfg, locationName, x.Name) >= 0
    && ConfigChance(cfg, locationName, x.Name) >= 100
    && ConfigChance(cfg, locationName, x.Name) != x.Chance
  }

  /** The entry point rule: the table value replaces a different one when the flag is on. */
  function EntryPointsReplaced(x: ExitState, cfg: ModConfig, locationId: string): (r: ExitState)
    ensures cfg.ignoreEntryPoint ==> r.EntryPoints == GetEntryPoints(locationId)
    ensures !cfg.ignoreEntryPoint ==> r == x
    ensures SameExcept(x, r, {EntryPointsField})
  {
    var newEntryPoint := GetEntryPoints(locationId);
    if cfg.ignoreEntryPoint && x.EntryPoints != newEntryPoint then x.(EntryPoints := newEntryPoint) else x
  }

  /** The chance rule: the configured value is applied when the guard as written holds. */
  function ChanceUpdated(x: ExitState, cfg: ModConfig, locationName: string): (r: ExitState)
    ensures ChanceApplies(cfg, locationName, x) ==> r.Chance == ConfigChance(cfg, locationName, x.Name)
    ensures !ChanceApplies(cfg, locationName, x) ==> r == x
    ensures SameExcept(x, r, {ChanceField})
  {
    if ChanceApplies(cfg, locationName, x) then x.(Chance := ConfigChance(cfg, locationName, x.Name)) else x
  }

  /** The guard of the cooperation rule: the flag is on and the extract needs a co-op partner. */
  predicate CoopApplies(x: ExitState, cfg: ModConfig) {
    cfg.convertCooperation && x.PassageRequirement == "ScavCooperation"
  }

  /** The cooperation rule: a co-op extract becomes a payment extract. */
  function CooperationPaid(x: ExitState, cfg: ModConfig): (r: ExitState)
    ensures CoopApplies(x, cfg) ==>
              && r.PassageRequirement == "TransferItem" && r.RequirementTip == "EXFIL_Item"
              && r.Id == cfg.cooperationItem && r.Count == cfg.cooperationNumber
    ensures !CoopApplies(x, cfg) ==> r == x
    ensures SameExcept(x, r, {PassageRequirementField, RequirementTipField, IdField, CountField})
  {
    if CoopApplies(x, cfg)
    then x.(PassageRequirement := "TransferItem", RequirementTip := "EXFIL_Item",
            Id := cfg.cooperationItem, Count := cfg.cooperationNumber)
    else x
  }

  /** The backpack tip and slot test of this revision. */
  predicate NeedsBackpack(x: ExitState) {
    (x.RequirementTip == "EXFIL_tip_backpack" || x.RequirementTip == "EXFIL_INTERCHANGE_HOLE_TIP")
    && x.RequiredSlot == "Backpack"
  }

  /** The guard of the backpack rule. */
  predicate BackpackApplies(x: ExitState, cfg: ModConfig) {
    cfg.ignoreBackpackRequirements && NeedsBackpack(x)
  }

  /** The backpack rule: the requirement is dropped and the tip cleared. */
  function BackpackDropped(x: ExitState, cfg: ModConfig): (r: ExitState)
    ensures BackpackApplies(x, cfg) ==>
              r.PassageRequirement == "None" && r.RequiredSlot == "FirstPrimaryWeapon" && r.RequirementTip == ""
    ensures !BackpackApplies(x, cfg) ==> r == x
    ensures SameExcept(x, r, {PassageRequirementField, RequiredSlotField, RequirementTipField})
    ensures cfg.ignoreBackpackRequirements ==> !NeedsBackpack(r)
  {
    if BackpackApplies(x, cfg)
    then x.(PassageRequirement := "None", RequiredSlot := "FirstPrimaryWeapon", RequirementTip := "")
    else x
  }

  /** The guard of the cliff rule: the flag is on and the extract is named exactly "Alpinist". */
  predicate CliffApplies(x: ExitState, cfg: ModConfig) {
    cfg.ignoreCliffRequirements && x.Name == "Alpinist"
  }

  /** The cliff rule: the extract named exactly "Alpinist" loses its requirement. */
  function AlpinistFreed(x: ExitState, cfg: ModConfig): (r: ExitState)
    ensures CliffApplies(x, cfg) ==> r.Id == "" && r.PassageRequirement == "None"
    ensures !CliffApplies(x, cfg) ==> r == x
    ensures SameExcept(x, r, {IdField, PassageRequirementField})
  {
    if CliffApplies(x, cfg) then x.(Id := "", PassageRequirement := "None") else x
  }

  /** The time cap: a longer exfiltration time becomes the maximum. */
  function TimeLimited(x: ExitState, maxTime: int): (r: ExitState)
    ensures r.ExfiltrationTime <= maxTime && r.ExfiltrationTime <= x.ExfiltrationTime
    ensures r.ExfiltrationTime == maxTime || r.ExfiltrationTime == x.ExfiltrationTime
    ensures SameExcept(x, r, {ExfiltrationTimeField})
  {
    if x.ExfiltrationTime > maxTime then x.(ExfiltrationTime := maxTime) else x
  }

  /**
   * The part of the loop body that train extracts skip: cooperation,
   * backpack and cliff rules, the time cap, and the normalisation.
   */
  function NonTrainUpdated(x: ExitState, cfg: ModConfig): (r: ExitState)
    ensures r.Name == x.Name && r.EntryPoints == x.EntryPoints && r.Chance == x.Chance
    ensures r.ExfiltrationType == "Individual" && r.PlayersCount == 0
    ensures r.ExfiltrationTime <= x.ExfiltrationTime && r.ExfiltrationTime <= cfg.maxExtractionTime
    ensures r.ExfiltrationTime == x.ExfiltrationTime || r.ExfiltrationTime == cfg.maxExtractionTime
  {
    var e := AlpinistFreed(BackpackDropped(CooperationPaid(x, cfg), cfg), cfg);
    TimeLimited(e, cfg.maxExtractionTime).(ExfiltrationType := "Individual", PlayersCount := 0)
  }

  /**
   * One extract after the loop body, for the location listed as
   * `locationName` whose base has identifier `locationId`: entry points and
   * chance first, then, for non-train extracts only, cooperation, backpack,
   * cliff, time cap, and the individual / zero-player normalisation.
   */
  function UpdatedExtract(x: ExitState, cfg: ModConfig, locationName: string, locationId: string): (r: ExitState)
    ensures r.Name == x.Name
    ensures cfg.ignoreEntryPoint ==> r.EntryPoints == GetEntryPoints(locationId)
    ensures !cfg.ignoreEntryPoint ==> r.EntryPoints == x.EntryPoints
    ensures r.Chance != x.Chance ==> r.Chance >= 100
    ensures x.PassageRequirement == "Train" ==> SameExcept(x, r, {EntryPointsField, ChanceField})
    ensures x.PassageRequirement != "Train" ==>
              && r.ExfiltrationType == "Individual" && r.PlayersCount == 0
              && r.ExfiltrationTime <= x.ExfiltrationTime && r.ExfiltrationTime <= cfg.maxExtractionTime
              && (r.ExfiltrationTime == x.ExfiltrationTime || r.ExfiltrationTime == cfg.maxExtractionTime)
  {
    var b := ChanceUpdated(EntryPointsReplaced(x, cfg, locationId), cfg, locationName);
    if b.PassageRequirement == "Train" then b else NonTrainUpdated(b, cfg)
  }

  /**
   * The chance changes exactly when the guard as written holds, so a value
   * below 100 (and 0 in particular) is never applied.
   */
  lemma ChanceWrittenOnlyFromHundred(x: ExitState, cfg: ModConfig, locationName: string, locationId: string)
    ensures var r := UpdatedExtract(x, cfg, locationName, locationId);
      && (r.Chance != x.Chance <==> ChanceApplies(cfg, locationName, x))
      && (ChanceApplies(cfg, locationName, x) ==> r.Chance == ConfigChance(cfg, locationName, x.Name))
      && (HasTruthyChance(cfg, locationName, x.Name) && ConfigChance(cfg, locationName, x.Name) < 100 ==>
            r.Chance == x.Chance)
  {
  }

  /**
   * For a non-train extract, the final value of every field the three
   * rewrites write, in terms of which of them fire. The backpack test runs
   * after the cooperation rule, whose new tip it never matches, so the two
   * never both fire; the cliff rule looks only at the exact name, so it also
   * fires on an extract the cooperation rule has just turned into a payment
   * extract. A field none of the firing rules writes keeps its value.
   */
  lemma NonTrainRewrites(x: ExitState, cfg: ModConfig, locationName: string, locationId: string)
    requires x.PassageRequirement != "Train"
    ensures var r := UpdatedExtract(x, cfg, locationName, locationId);
      var coop, backpack, cliff := CoopApplies(x, cfg), BackpackApplies(x, cfg) && !CoopApplies(x, cfg), CliffApplies(x, cfg);
      && r.PassageRequirement
         == (if cliff || backpack then "None" else if coop then "TransferItem" else x.PassageRequirement)
      && r.RequirementTip == (if coop then "EXFIL_Item" else if backpack then "" else x.RequirementTip)
      && r.RequiredSlot == (if backpack then "FirstPrimaryWeapon" else x.RequiredSlot)
      && r.Id == (if cliff then "" else if coop then cfg.cooperationItem else x.Id)
      && r.Count == (if coop then cfg.cooperationNumber else x.Count)
  {
    var b := ChanceUpdated(EntryPointsReplaced(x, cfg, locationId), cfg, locationName);
    assert b.Name == x.Name && b.PassageRequirement == x.PassageRequirement;
    assert b.RequirementTip == x.RequirementTip && b.RequiredSlot == x.RequiredSlot;
    assert b.Id == x.Id && b.Count == x.Count;
    var c := CooperationPaid(b, cfg);
    var d := BackpackDropped(c, cfg);
    assert BackpackApplies(c, cfg) <==> BackpackApplies(x, cfg) && !CoopApplies(x, cfg);
    var e := AlpinistFreed(d, cfg);
    assert CliffApplies(d, cfg) <==> CliffApplies(x, cfg);
  }

  /** Running the loop body twice on an extract leaves it as running it once. */
  lemma UpdatedExtractIdempotent(x: ExitState, cfg: ModConfig, locationName: string, locationId: string)
    ensures var once := UpdatedExtract(x, cfg, locationName, locationId);
            UpdatedExtract(once, cfg, locationName, locationId) == once
  {
    var once := UpdatedExtract(x, cfg, locationName, locationId);
    var b := ChanceUpdated(EntryPointsReplaced(x, cfg, locationId), cfg, locationName);
    assert EntryPointsReplaced(once, cfg, locationId) == once;
    assert !ChanceApplies(cfg, locationName, once);
    if b.PassageRequirement != "Train" {
      NonTrainUpdatedIdempotent(b, cfg);
    }
  }

  /** The part of the loop body after the train check is idempotent. */
  lemma NonTrainUpdatedIdempotent(x: ExitState, cfg: ModConfig)
    ensures NonTrainUpdated(NonTrainUpdated(x, cfg), cfg) == NonTrainUpdated(x, cfg)
  {
    var c := CooperationPaid(x, cfg);
    var d := BackpackDropped(c, cfg);
    var e := AlpinistFreed(d, cfg);
    var once := NonTrainUpdated(x, cfg);
    assert CooperationPaid(once, cfg) == once;
    assert !NeedsBackpack(c) ==> !NeedsBackpack(once);
    assert BackpackDropped(once, cfg) == once;
    assert AlpinistFreed(once, cfg) == once;
  }

  /** The streets entry of the table. */
  lemma StreetsTableEntry()
    ensures GetEntryPoints("TarkovStreets") == "E1_2,E6_1,E2_3,E3_4,E4_5,E5_6,E6_1"
  {
  }

  /** The seven streets pieces, concatenated with commas between them. */
  lemma StreetsPiecesConcat()
    ensures "E1_2" + [','] + ("E6_1" + [','] + ("E2_3" + [','] + ("E3_4" + [','] + ("E4_5" + [','] + ("E5_6" + [','] + "E6_1")))))
            == "E1_2,E6_1,E2_3,E3_4,E4_5,E5_6,E6_1"
  {
  }

  /** The seven streets pieces, joined with commas. */
  lemma StreetsPiecesJoin()
    ensures Join(["E1_2", "E6_1", "E2_3", "E3_4", "E4_5", "E5_6", "E6_1"], ',') == "E1_2,E6_1,E2_3,E3_4,E4_5,E5_6,E6_1"
  {
    JoinSeven("E1_2", "E6_1", "E2_3", "E3_4", "E4_5", "E5_6", "E6_1");
    StreetsPiecesConcat();
  }

  /** The entry point table is not de-duplicated: the streets list names `E6_1` twice. */
  lemma StreetsEntryPointsRepeat()
    ensures var parts := Split(GetEntryPoints("TarkovStreets"), ',');
            |parts| == 7 && parts[1] == parts[6] == "E6_1" && !NoDup(parts)
  {
    var parts := ["E1_2", "E6_1", "E2_3", "E3_4", "E4_5", "E5_6", "E6_1"];
    StreetsTableEntry();
    StreetsPiecesJoin();
    SplitJoin(parts, ',');
  }

  /** The entry point table is keyed case-sensitively. */
  lemma GetEntryPointsCaseSensitive()
    ensures GetEntryPoints("Interchange") == "MallSE,MallNW"
    ensures GetEntryPoints("interchange") == ""
    ensures GetEntryPoints("RezervBase") == "Common"
    ensures GetEntryPoints("rezervbase") == ""
  {
  }

  /** The lookup ignores case, and falls back to the lower-cased name. */
  lemma LocationNameLookupIgnoresCase(location: string)
    ensures LocationNameLookup(location) == LocationNameLookup(ToLower(location))
  {
    ToLowerIdempotent(location);
  }

  lemma LocationNameLookupTable()
    ensures LocationNameLookup("bigmap") == "customs"
    ensures LocationNameLookup("factory4_day") == "factory_day"
    ensures LocationNameLookup("factory4_night") == "factory_night"
    ensures LocationNameLookup("RezervBase") == "reserve"
    ensures LocationNameLookup("reservebase") == "reserve"
    ensures LocationNameLookup("TarkovStreets") == "streets"
    ensures LocationNameLookup("Woods") == "woods"
  {
    assert ToLower("bigmap") == "bigmap";
    assert ToLower("factory4_day") == "factory4_day";
    assert ToLower("factory4_night") == "factory4_night";
    assert ToLower("RezervBase") == "rezervbase";
    assert ToLower("reservebase") == "reservebase";
    assert ToLower("TarkovStreets") == "tarkovstreets";
    assert ToLower("Woods") == "woods";
  }

  /** Names outside the switch come back lower-cased. */
  lemma LocationNameLookupFallback(location: string)
    requires ToLower(location) !in {"bigmap", "factory4_day", "factory4_night", "rezervbase",
                                    "reservebase", "tarkovstreets"}
    ensures LocationNameLookup(location) == ToLower(location)
  {
  }

  /** All extracts of one location after the inner loop. */
  function UpdatedLocation(xs: seq<ExitState>, cfg: ModConfig, locationName: string, locationId: string): (r: seq<ExitState>)
    ensures |r| == |xs|
    ensures forall i :: 0 <= i < |r| && xs[i].PassageRequirement != "Train" ==>
              r[i].ExfiltrationType == "Individual" && r[i].PlayersCount == 0
    ensures forall i :: 0 <= i < |r| && xs[i].PassageRequirement == "Train" ==>
              SameExcept(xs[i], r[i], {EntryPointsField, ChanceField})
    ensures cfg.ignoreEntryPoint ==> forall i :: 0 <= i < |r| ==> r[i].EntryPoints == GetEntryPoints(locationId)
  {
    seq(|xs|, i requires 0 <= i < |xs| => UpdatedExtract(xs[i], cfg, locationName, locationId))
  }

  /** Running the inner loop twice over a location leaves the state of running it once. */
  lemma UpdatedLocationIdempotent(xs: seq<ExitState>, cfg: ModConfig, locationName: string, locationId: string)
    ensures var once := UpdatedLocation(xs, cfg, locationName, locationId);
            UpdatedLocation(once, cfg, locationName, locationId) == once
  {
    var once := UpdatedLocation(xs, cfg, locationName, locationId);
    forall i | 0 <= i < |once|
      ensures UpdatedLocation(once, cfg, locationName, locationId)[i] == once[i]
    {
      UpdatedExtractIdempotent(xs[i], cfg, locationName, locationId);
    }
  }

  /**
   * The body of the inner loop, for one extract; the early `return` is the
   * loop's `continue` for train extracts.
   */
  method UpdateExtract(extract: Exit, cfg: ModConfig, locationName: string, locationId: string)
    modifies extract
    ensures extract.State() == UpdatedExtract(old(extract.State()), cfg, locationName, locationId)
  {
    var extractName := extract.Name;

    // Make extracts available no matter what side of the map you spawned.
    var newEntryPoint := GetEntryPoints(locationId);
    if cfg.ignoreEntryPoint && extract.EntryPoints != newEntryPoint {
      extract.EntryPoints := newEntryPoint;
    }
    ghost var a := extract.State();
    assert a == EntryPointsReplaced(old(extract.State()), cfg, locationId);

    // Updates the percentage that random extracts are available.
    var key := LocationNameLookup(locationName);
    if key in cfg.randomExtractChances && extractName in cfg.randomExtractChances[key]
       && cfg.randomExtractChances[key][extractName] != 0
    {
      var configChance := cfg.randomExtractChances[key][extractName];
      if cfg.randomExtractUpdate && configChance >= 0 && configChance >= 100 && configChance != extract.Chance {
        extract.Chance := configChance;
      }
    }
    assert extract.State() == ChanceUpdated(a, cfg, locationName);

    if extract.PassageRequirement == "Train" {
      return;
    }
    UpdateNonTrainExtract(extract, cfg);
  }

  /** The rest of the loop body, which train extracts skip. */
  method UpdateNonTrainExtract(extract: Exit, cfg: ModConfig)
    modifies extract
    ensures extract.State() == NonTrainUpdated(old(extract.State()), cfg)
  {
    ghost var c := CooperationPaid(extract.State(), cfg);
    ghost var d := BackpackDropped(c, cfg);
    ghost var e := AlpinistFreed(d, cfg);
    ghost var f := TimeLimited(e, cfg.maxExtractionTime);

    if cfg.convertCooperation && extract.PassageRequirement == "ScavCooperation" {
      extract.PassageRequirement := "TransferItem";
      extract.RequirementTip := "EXFIL_Item";
      extract.Id := cfg.cooperationItem;
      extract.Count := cfg.cooperationNumber;
    }
    assert extract.State() == c;

    if cfg.ignoreBackpackRequirements
       && (extract.RequirementTip == "EXFIL_tip_backpack" || extract.RequirementTip == "EXFIL_INTERCHANGE_HOLE_TIP")
       && extract.RequiredSlot == "Backpack"
    {
      extract.PassageRequirement := "None";
      extract.RequiredSlot := "FirstPrimaryWeapon";
      extract.RequirementTip := "";
    }
    assert extract.State() == d;

    if cfg.ignoreCliffRequirements && extract.Name == "Alpinist" {
      extract.Id := "";
      extract.PassageRequirement := "None";
    }
    assert extract.State() == e;

    if extract.ExfiltrationTime > cfg.maxExtractionTime {
      extract.ExfiltrationTime := cfg.maxExtractionTime;
    }
    assert extract.State() == f;

    extract.ExfiltrationType := "Individual";
    extract.PlayersCount := 0;
  }

  /** The inner loop: every extract of one location, in storage order. */
  method UpdateLocation(location: Location, locationName: string, cfg: ModConfig)
    requires DistinctRecords(location.exits)
    modifies location.exits
    ensures States(location.exits) == UpdatedLocation(old(States(location.exits)), cfg, locationName, location.Id)
  {
    ghost var before := States(location.exits);
    for j := 0 to |location.exits|
      invariant forall t :: 0 <= t < j ==>
                  location.exits[t].State() == UpdatedExtract(before[t], cfg, locationName, location.Id)
      invariant forall t :: j <= t < |location.exits| ==> location.exits[t].State() == before[t]
    {
      label Before:
      UpdateExtract(location.exits[j], cfg, locationName, location.Id);
      forall t | 0 <= t < |location.exits| && t != j
        ensures location.exits[t].State() == old@Before(location.exits[t].State())
      {
        assert location.exits[t] != location.exits[j];
      }
    }
  }

  /**
   * One iteration of the outer loop: the `k`-th listed location is updated
   * and the records of the other listed locations are left as they were.
   */
  method UpdateNamedLocation(locations: map<string, Location>, names: seq<string>, k: nat, cfg: ModConfig)
    requires AllPresent(locations, names) && Unaliased(locations, names) && k < |names|
    modifies locations[names[k]].exits
    ensures States(locations[names[k]].exits)
            == UpdatedLocation(old(States(locations[names[k]].exits)), cfg, names[k], locations[names[k]].Id)
    ensures forall i :: 0 <= i < |names| && i != k ==>
              States(locations[names[i]].exits) == old(States(locations[names[i]].exits))
  {
    var location := locations[names[k]];
    UpdateLocation(location, names[k], cfg);
    forall i | 0 <= i < |names| && i != k
      ensures States(locations[names[i]].exits) == old(States(locations[names[i]].exits))
    {
      var others := locations[names[i]].exits;
      SeparateLocations(locations, names, i, k);
      forall t | 0 <= t < |others| ensures others[t].State() == old(others[t].State()) {
        assert others[t] !in location.exits;
      }
    }
  }

  /** The pass over the ten listed locations. */
  method UpdateExtracts(locations: map<string, Location>, cfg: ModConfig)
    requires AllPresent(locations, LocationNames())
    requires Unaliased(locations, LocationNames())
    modifies RecordsOf(locations, LocationNames())
    ensures forall i :: 0 <= i < |LocationNames()| ==>
              States(locations[LocationNames()[i]].exits)
              == UpdatedLocation(old(States(locations[LocationNames()[i]].exits)), cfg,
                                 LocationNames()[i], locations[LocationNames()[i]].Id)
  {
    var locationNames := LocationNames();
    for k := 0 to |locationNames|
      invariant forall i :: 0 <= i < k ==>
                  States(locations[locationNames[i]].exits)
                  == UpdatedLocation(old(States(locations[locationNames[i]].exits)), cfg,
                                     locationNames[i], locations[locationNames[i]].Id)
      invariant forall i :: k <= i < |locationNames| ==>
                  States(locations[locationNames[i]].exits) == old(States(locations[locationNames[i]].exits))
    {
      RecordsOfCovers(locations, locationNames, k);
      label Before:
      UpdateNamedLocation(locations, locationNames, k, cfg);
      forall i | 0 <= i < k
        ensures States(locations[locationNames[i]].exits)
                == UpdatedLocation(old(States(locations[locationNames[i]].exits)), cfg,
                                   locationNames[i], locations[locationNames[i]].Id)
      {
        assert States(locations[locationNames[i]].exits)
               == old@Before(States(locations[locationNames[i]].exits));
      }
    }
  }

  /**
   * The host's start-up hook: when `mod_enabled` is false it returns before
   * the pass and no record changes.
   */
  method PostDBLoadAsync(locations: map<string, Location>, cfg: ModConfig)
    requires cfg.modEnabled ==> AllPresent(locations, LocationNames()) && Unaliased(locations, LocationNames())
    modifies RecordsOf(locations, LocationNames())
    ensures !cfg.modEnabled ==> unchanged(RecordsOf(locations, LocationNames()))
    ensures cfg.modEnabled ==>
              forall i :: 0 <= i < |LocationNames()| ==>
                States(locations[LocationNames()[i]].exits)
                == UpdatedLocation(old(States(locations[LocationNames()[i]].exits)), cfg,
                                   LocationNames()[i], locations[LocationNames()[i]].Id)
  {
    if !cfg.modEnabled {
      return;
    }
    UpdateExtracts(locations, cfg);
  }
}
