/**
 * The pure part of the current rule engine (src/models/ModifyExtracts.ts):
 * the configuration it reads, the location catalogue, the extract
 * predicates, and each rule as a function from the old field values of one
 * extract to the new ones. The in-place methods in module ModifyExtracts are
 * proved to compute exactly these functions.
 */
module ExtractRules {
  import opened Text
  import opened Exits

  // ---------------------------------------------------------------------
  // Configuration (the `extracts` part of the configuration file)
  // ---------------------------------------------------------------------

  datatype RandomConfig = RandomConfig(enabled: bool, chances: map<string, map<string, int>>)

  datatype CooperationConfig = CooperationConfig(convertToPayment: bool, item: string, number: int)

  datatype ExtractsConfig = ExtractsConfig(
    ignoreEntryPoint: bool,
    random: RandomConfig,
    maxExtractionTime: int,
    cooperation: CooperationConfig,
    ignoreBackpackRequirements: bool,
    ignoreCliffRequirements: bool)

  // ---------------------------------------------------------------------
  // Location catalogue
  // ---------------------------------------------------------------------

  /** Which of the two names of a location is wanted. */
  datatype NameType = ConfigName | HumanName

  datatype LocationNames = LocationNames(config: string, human: string)

  /** Game location name (lower case) to its configuration and human-readable names. */
  const LocationNameMappings: map<string, LocationNames> := map[
    "bigmap" := LocationNames("customs", "Customs"),
    "factory4_day" := LocationNames("factoryDay", "Factory (Day)"),
    "factory4_night" := LocationNames("factoryNight", "Factory (Night)"),
    "interchange" := LocationNames("interchange", "Interchange"),
    "laboratory" := LocationNames("laboratory", "Laboratory"),
    "lighthouse" := LocationNames("lighthouse", "Lighthouse"),
    "rezervbase" := LocationNames("reserve", "Reserve"),
    "reservebase" := LocationNames("reserve", "Reserve"),
    "shoreline" := LocationNames("shoreline", "Shoreline"),
    "tarkovstreets" := LocationNames("streets", "Streets of Tarkov"),
    "woods" := LocationNames("woods", "Woods")
  ]

  /**
   * The wanted name of a game location: the table entry of the lower-cased
   * name, falling back to the lower-cased name itself when there is no entry
   * (or, as JavaScript's `||` would, when the entry is empty).
   */
  function GetLocationName(gameLocationName: string, nameType: NameType): string {
    var location := ToLower(gameLocationName);
    var mapped :=
      if location !in LocationNameMappings then ""
      else match nameType
        case ConfigName => LocationNameMappings[location].config
        case HumanName => LocationNameMappings[location].human;
    if mapped != "" then mapped else location
  }

  /** The locations whose extracts are adjusted, in iteration order. */
  function EnabledLocations(): (r: seq<string>)
    ensures |r| == 10 && NoDup(r)
    ensures forall i :: 0 <= i < |r| ==> r[i] in LocationNameMappings
  {
    ["bigmap", "factory4_day", "factory4_night", "interchange", "laboratory",
     "lighthouse", "rezervbase", "shoreline", "tarkovstreets", "woods"]
  }

  lemma GetLocationNameLookup(gameLocationName: string, nameType: NameType)
    ensures var location := ToLower(gameLocationName);
      && (location in LocationNameMappings && nameType == ConfigName ==>
            GetLocationName(gameLocationName, nameType) == LocationNameMappings[location].config)
      && (location in LocationNameMappings && nameType == HumanName ==>
            GetLocationName(gameLocationName, nameType) == LocationNameMappings[location].human)
      && (location !in LocationNameMappings ==>
            GetLocationName(gameLocationName, nameType) == location)
  {
  }

  /** The lookup does not depend on letter case. */
  lemma GetLocationNameIgnoresCase(gameLocationName: string, nameType: NameType)
    ensures GetLocationName(gameLocationName, nameType) == GetLocationName(ToLower(gameLocationName), nameType)
  {
    ToLowerIdempotent(gameLocationName);
  }

  /** Both spellings of the reserve base resolve to the same names. */
  lemma ReserveSpellingsAgree(nameType: NameType)
    ensures GetLocationName("RezervBase", nameType) == GetLocationName("reservebase", nameType)
    ensures GetLocationName("RezervBase", ConfigName) == "reserve"
    ensures GetLocationName("RezervBase", HumanName) == "Reserve"
  {
    assert ToLower("RezervBase") == "rezervbase";
    assert ToLower("reservebase") == "reservebase";
  }

  lemma GetLocationNameExamples()
    ensures GetLocationName("bigmap", HumanName) == "Customs"
    ensures GetLocationName("TarkovStreets", ConfigName) == "streets"
    ensures GetLocationName("unknownmap", HumanName) == "unknownmap"
  {
    assert ToLower("bigmap") == "bigmap";
    assert ToLower("TarkovStreets") == "tarkovstreets";
    assert ToLower("unknownmap") == "unknownmap";
  }

  // ---------------------------------------------------------------------
  // Extract predicates
  // ---------------------------------------------------------------------

  predicate IsCooperationExtract(x: ExitState) {
    x.PassageRequirement == "ScavCooperation"
  }

  function BackpackExtractRequirementTips(): set<string> {
    {"EXFIL_tip_backpack", "EXFIL_INTERCHANGE_HOLE_TIP"}
  }

  predicate IsBackpackExtract(x: ExitState) {
    x.RequirementTip in BackpackExtractRequirementTips() && x.RequiredSlot == "Backpack"
  }

  predicate IsCliffExtract(x: ExitState) {
    Contains(ToLower(x.Name), "alpinist") && x.PassageRequirement == "Reference"
  }

  // ---------------------------------------------------------------------
  // The rules, one extract at a time
  // ---------------------------------------------------------------------

  /** Every extract becomes an individual one with no minimum party size. */
  function CommonAdjusted(x: ExitState): (r: ExitState)
    ensures r.ExfiltrationType == "Individual" && r.PlayersCount == 0
    ensures SameExcept(x, r, {ExfiltrationTypeField, PlayersCountField})
  {
    x.(ExfiltrationType := "Individual", PlayersCount := 0)
  }

  /** With `ignoreEntryPoint`, the extract takes the location's full entry point list. */
  function EntryPointsWidened(x: ExitState, cfg: ExtractsConfig, allEntryPoints: string): (r: ExitState)
    ensures cfg.ignoreEntryPoint ==> r.EntryPoints == allEntryPoints
    ensures !cfg.ignoreEntryPoint ==> r == x
    ensures SameExcept(x, r, {EntryPointsField})
  {
    if !cfg.ignoreEntryPoint then x
    else if x.EntryPoints != allEntryPoints then x.(EntryPoints := allEntryPoints)
    else x
  }

  /** The configuration holds a chance for this extract on this location. */
  predicate HasConfiguredChance(cfg: ExtractsConfig, locationId: string, name: string) {
    var key := GetLocationName(locationId, ConfigName);
    key in cfg.random.chances && name in cfg.random.chances[key]
  }

  function ConfiguredChance(cfg: ExtractsConfig, locationId: string, name: string): int
    requires HasConfiguredChance(cfg, locationId, name)
  {
    cfg.random.chances[GetLocationName(locationId, ConfigName)][name]
  }

  /**
   * With `random.enabled`, a chance configured for the extract replaces its
   * chance, whatever its value; a missing entry leaves it alone.
   */
  function ChanceAdjusted(x: ExitState, cfg: ExtractsConfig, locationId: string): (r: ExitState)
    ensures !cfg.random.enabled || !HasConfiguredChance(cfg, locationId, x.Name) ==> r == x
    ensures cfg.random.enabled && HasConfiguredChance(cfg, locationId, x.Name) ==>
              r.Chance == ConfiguredChance(cfg, locationId, x.Name)
    ensures SameExcept(x, r, {ChanceField})
  {
    if !cfg.random.enabled then x
    else if !HasConfiguredChance(cfg, locationId, x.Name) then x
    else
      var configChance := ConfiguredChance(cfg, locationId, x.Name);
      if configChance != x.Chance then x.(Chance := configChance) else x
  }

  /** The extraction time becomes the smaller of itself and the cap. */
  function TimeCapped(x: ExitState, maxTime: int): (r: ExitState)
    ensures r.ExfiltrationTime <= x.ExfiltrationTime && r.ExfiltrationTime <= maxTime
    ensures r.ExfiltrationTime == x.ExfiltrationTime || r.ExfiltrationTime == maxTime
    ensures SameExcept(x, r, {ExfiltrationTimeField})
  {
    if x.ExfiltrationTime <= maxTime then x else x.(ExfiltrationTime := maxTime)
  }

  /** With `cooperation.convertToPayment`, a cooperation extract becomes a payment extract. */
  function CooperationConverted(x: ExitState, cfg: ExtractsConfig): (r: ExitState)
    ensures cfg.cooperation.convertToPayment && IsCooperationExtract(x) ==>
              && r.PassageRequirement == "TransferItem" && r.RequirementTip == "EXFIL_Item"
              && r.Id == cfg.cooperation.item && r.Count == cfg.cooperation.number
    ensures !(cfg.cooperation.convertToPayment && IsCooperationExtract(x)) ==> r == x
    ensures SameExcept(x, r, {PassageRequirementField, RequirementTipField, IdField, CountField})
    ensures cfg.cooperation.convertToPayment ==> !IsCooperationExtract(r)
  {
    if !cfg.cooperation.convertToPayment || !IsCooperationExtract(x) then x
    else x.(PassageRequirement := "TransferItem", RequirementTip := "EXFIL_Item",
            Id := cfg.cooperation.item, Count := cfg.cooperation.number)
  }

  /** With `ignoreBackpackRequirements`, a backpack-gated extract loses its gating. */
  function BackpackRemoved(x: ExitState, cfg: ExtractsConfig): (r: ExitState)
    ensures cfg.ignoreBackpackRequirements && IsBackpackExtract(x) ==>
              r.PassageRequirement == "None" && r.RequiredSlot == "FirstPrimaryWeapon" && r.RequirementTip == ""
    ensures !(cfg.ignoreBackpackRequirements && IsBackpackExtract(x)) ==> r == x
    ensures SameExcept(x, r, {PassageRequirementField, RequiredSlotField, RequirementTipField})
    ensures cfg.ignoreBackpackRequirements ==> !IsBackpackExtract(r)
  {
    if !cfg.ignoreBackpackRequirements || !IsBackpackExtract(x) then x
    else x.(PassageRequirement := "None", RequiredSlot := "FirstPrimaryWeapon", RequirementTip := "")
  }

  /** With `ignoreCliffRequirements`, the alpinist cliff extract loses its item gating. */
  function CliffRemoved(x: ExitState, cfg: ExtractsConfig): (r: ExitState)
    ensures cfg.ignoreCliffRequirements && IsCliffExtract(x) ==>
              r.Id == "" && r.PassageRequirement == "None"
    ensures !(cfg.ignoreCliffRequirements && IsCliffExtract(x)) ==> r == x
    ensures SameExcept(x, r, {IdField, PassageRequirementField})
    ensures cfg.ignoreCliffRequirements ==> !IsCliffExtract(r)
  {
    if !cfg.ignoreCliffRequirements || !IsCliffExtract(x) then x
    else x.(Id := "", PassageRequirement := "None")
  }

  /**
   * The whole per-extract pipeline, in the order the engine applies it; the
   * last three rules are skipped for train extracts.
   */
  function Pipeline(x: ExitState, cfg: ExtractsConfig, locationId: string, allEntryPoints: string): (r: ExitState)
    ensures r.ExfiltrationType == "Individual" && r.PlayersCount == 0
    ensures r.ExfiltrationTime <= x.ExfiltrationTime && r.ExfiltrationTime <= cfg.maxExtractionTime
    ensures r.ExfiltrationTime == x.ExfiltrationTime || r.ExfiltrationTime == cfg.maxExtractionTime
    ensures r.Name == x.Name
    ensures cfg.ignoreEntryPoint ==> r.EntryPoints == allEntryPoints
    ensures !cfg.ignoreEntryPoint ==> r.EntryPoints == x.EntryPoints
    ensures x.PassageRequirement == "Train" ==>
              && r.PassageRequirement == x.PassageRequirement && r.RequirementTip == x.RequirementTip
              && r.RequiredSlot == x.RequiredSlot && r.Id == x.Id && r.Count == x.Count
  {
    var a := CommonAdjusted(x);
    var b := EntryPointsWidened(a, cfg, allEntryPoints);
    var c := ChanceAdjusted(b, cfg, locationId);
    var d := TimeCapped(c, cfg.maxExtractionTime);
    if d.PassageRequirement == "Train" then d
    else
      var e := CooperationConverted(d, cfg);
      var f := BackpackRemoved(e, cfg);
      var g := CliffRemoved(f, cfg);
      assert g.(PassageRequirement := d.PassageRequirement, RequirementTip := d.RequirementTip,
                RequiredSlot := d.RequiredSlot, Id := d.Id, Count := d.Count) == d;
      g
  }

  /** Running the pipeline twice, against the same entry point list, is running it once. */
  lemma PipelineIdempotent(x: ExitState, cfg: ExtractsConfig, locationId: string, allEntryPoints: string)
    ensures var once := Pipeline(x, cfg, locationId, allEntryPoints);
            Pipeline(once, cfg, locationId, allEntryPoints) == once
  {
    var once := Pipeline(x, cfg, locationId, allEntryPoints);
    assert CommonAdjusted(once) == once;
    assert EntryPointsWidened(once, cfg, allEntryPoints) == once;
    assert ChanceAdjusted(once, cfg, locationId) == once;
    assert TimeCapped(once, cfg.maxExtractionTime) == once;
    if once.PassageRequirement != "Train" {
      assert CooperationConverted(once, cfg) == once;
      assert BackpackRemoved(once, cfg) == once;
      assert CliffRemoved(once, cfg) == once;
    }
  }

  // ---------------------------------------------------------------------
  // Entry points of a whole location
  // ---------------------------------------------------------------------

  /** Each extract's entry points, split on commas. */
  function EntryPointLists(xs: seq<ExitState>): (r: seq<seq<string>>)
    ensures |r| == |xs|
    ensures forall i :: 0 <= i < |xs| ==> r[i] == Split(xs[i].EntryPoints, ',')
  {
    seq(|xs|, i requires 0 <= i < |xs| => Split(xs[i].EntryPoints, ','))
  }

  /** The entry points of all extracts, each once, in the order first seen. */
  function EntryPointUnion(xs: seq<ExitState>): seq<string> {
    Dedup(Flatten(EntryPointLists(xs)))
  }

  /** The comma-joined entry point union of a location. */
  function AllEntryPoints(xs: seq<ExitState>): string {
    Join(EntryPointUnion(xs), ',')
  }

  lemma {:induction false} EntryPointUnionMembers(xs: seq<ExitState>, p: string)
    ensures p in EntryPointUnion(xs) <==> exists i :: 0 <= i < |xs| && p in Split(xs[i].EntryPoints, ',')
  {
    var lists := EntryPointLists(xs);
    FlattenMembership(lists, p);
  }

  /** Every member of the union is comma-free, and a location with an extract has a non-empty union. */
  lemma EntryPointUnionShape(xs: seq<ExitState>)
    ensures forall p :: p in EntryPointUnion(xs) ==> ',' !in p
    ensures |xs| > 0 ==> |EntryPointUnion(xs)| > 0
  {
    forall p | p in EntryPointUnion(xs) ensures ',' !in p {
      EntryPointUnionMembers(xs, p);
    }
    if |xs| > 0 {
      var first := Split(xs[0].EntryPoints, ',')[0];
      EntryPointUnionMembers(xs, first);
    }
  }

  /**
   * Splitting a location's entry point string on commas gives every entry
   * point of every extract, each once, in the order first seen.
   */
  lemma AllEntryPointsIsUnion(xs: seq<ExitState>)
    requires |xs| > 0
    ensures var parts := Split(AllEntryPoints(xs), ',');
      && parts == EntryPointUnion(xs)
      && NoDup(parts)
      && (forall p :: p in parts <==> exists i :: 0 <= i < |xs| && p in Split(xs[i].EntryPoints, ','))
      && (forall i, j :: 0 <= i < j < |parts| ==>
            FirstIndex(Flatten(EntryPointLists(xs)), parts[i]) < FirstIndex(Flatten(EntryPointLists(xs)), parts[j]))
  {
    var u := EntryPointUnion(xs);
    EntryPointUnionShape(xs);
    SplitJoin(u, ',');
    forall p ensures p in u <==> exists i :: 0 <= i < |xs| && p in Split(xs[i].EntryPoints, ',') {
      EntryPointUnionMembers(xs, p);
    }
    DedupFirstSeenOrder(Flatten(EntryPointLists(xs)));
  }

  /** Splitting the joined union of a location with an extract gives back the union. */
  lemma SplitAllEntryPoints(xs: seq<ExitState>)
    requires |xs| > 0
    ensures Split(AllEntryPoints(xs), ',') == EntryPointUnion(xs)
  {
    EntryPointUnionShape(xs);
    SplitJoin(EntryPointUnion(xs), ',');
  }

  /**
   * After the first `j` extracts are rewritten to the joined union, the
   * entry points of every extract but the first are already in the union.
   */
  lemma LaterEntryPointsInUnion(xs: seq<ExitState>, ys: seq<ExitState>, j: nat, p: string)
    requires |ys| == |xs| && 0 < j <= |xs|
    requires forall t :: 0 <= t < j ==> ys[t].EntryPoints == AllEntryPoints(xs)
    requires forall t :: j <= t < |xs| ==> ys[t].EntryPoints == xs[t].EntryPoints
    requires p in Flatten(EntryPointLists(ys)[1..])
    ensures p in EntryPointUnion(xs)
  {
    var rest := EntryPointLists(ys)[1..];
    FlattenMembership(rest, p);
    var t :| 0 <= t < |rest| && p in rest[t];
    if t + 1 >= j {
      EntryPointUnionMembers(xs, p);
    } else {
      SplitAllEntryPoints(xs);
    }
  }

  /**
   * Rewriting the entry points of a prefix of the extracts to the joined
   * union does not change the union: the rewritten extracts contribute the
   * union itself, and everything else was in it already.
   */
  lemma UnionStable(xs: seq<ExitState>, ys: seq<ExitState>, j: nat)
    requires |ys| == |xs| && j <= |xs|
    requires forall t :: 0 <= t < j ==> ys[t].EntryPoints == AllEntryPoints(xs)
    requires forall t :: j <= t < |xs| ==> ys[t].EntryPoints == xs[t].EntryPoints
    ensures EntryPointUnion(ys) == EntryPointUnion(xs)
  {
    var lists' := EntryPointLists(ys);
    if j == 0 {
      assert lists' == EntryPointLists(xs);
    } else {
      var u := EntryPointUnion(xs);
      SplitAllEntryPoints(xs);
      assert lists'[0] == u;
      FlattenCons(lists');
      forall p | p in Flatten(lists'[1..]) ensures p in u {
        LaterEntryPointsInUnion(xs, ys, j, p);
      }
      DedupAbsorbs(u, Flatten(lists'[1..]));
      DedupOfNoDup(u);
    }
  }

  // ---------------------------------------------------------------------
  // A whole location
  // ---------------------------------------------------------------------

  /**
   * The extracts of one location after the pass: each goes through the
   * pipeline against the entry point union of the location as it was.
   */
  function AdjustedLocation(xs: seq<ExitState>, cfg: ExtractsConfig, locationId: string): (r: seq<ExitState>)
    ensures |r| == |xs|
    ensures forall i :: 0 <= i < |r| ==> r[i].ExfiltrationType == "Individual" && r[i].PlayersCount == 0
    ensures forall i :: 0 <= i < |r| ==> r[i].Name == xs[i].Name
    ensures cfg.ignoreEntryPoint ==> forall i :: 0 <= i < |r| ==> r[i].EntryPoints == AllEntryPoints(xs)
    ensures forall i :: 0 <= i < |r| && xs[i].PassageRequirement == "Train" ==>
              && r[i].PassageRequirement == xs[i].PassageRequirement
              && r[i].RequirementTip == xs[i].RequirementTip
              && r[i].RequiredSlot == xs[i].RequiredSlot
              && r[i].Id == xs[i].Id && r[i].Count == xs[i].Count
  {
    var all := AllEntryPoints(xs);
    seq(|xs|, i requires 0 <= i < |xs| => Pipeline(xs[i], cfg, locationId, all))
  }

  /** The pass leaves the entry point union of a location as it was. */
  lemma AdjustedLocationKeepsUnion(xs: seq<ExitState>, cfg: ExtractsConfig, locationId: string)
    ensures EntryPointUnion(AdjustedLocation(xs, cfg, locationId)) == EntryPointUnion(xs)
  {
    var ys := AdjustedLocation(xs, cfg, locationId);
    if cfg.ignoreEntryPoint {
      UnionStable(xs, ys, |xs|);
    } else {
      UnionStable(xs, ys, 0);
    }
  }

  /** Running the pass on a location twice leaves the state of running it once. */
  lemma AdjustedLocationIdempotent(xs: seq<ExitState>, cfg: ExtractsConfig, locationId: string)
    ensures var once := AdjustedLocation(xs, cfg, locationId);
            AdjustedLocation(once, cfg, locationId) == once
  {
    var once := AdjustedLocation(xs, cfg, locationId);
    AdjustedLocationKeepsUnion(xs, cfg, locationId);
    var all := AllEntryPoints(xs);
    assert AllEntryPoints(once) == all;
    forall i | 0 <= i < |once|
      ensures AdjustedLocation(once, cfg, locationId)[i] == once[i]
    {
      PipelineIdempotent(xs[i], cfg, locationId, all);
    }
  }

  // ---------------------------------------------------------------------
  // Worked examples
  // ---------------------------------------------------------------------

  /** Two extracts with entry points "A,B" and "B,C" give the location entry points "A,B,C". */
  lemma AllEntryPointsExample(x: ExitState, y: ExitState)
    requires x.EntryPoints == "A,B" && y.EntryPoints == "B,C"
    ensures AllEntryPoints([x, y]) == "A,B,C"
  {
    assert Join(["A", "B"], ',') == "A,B";
    assert Join(["B", "C"], ',') == "B,C";
    SplitJoin(["A", "B"], ',');
    SplitJoin(["B", "C"], ',');
    var lists := EntryPointLists([x, y]);
    assert lists == [["A", "B"], ["B", "C"]];
    FlattenPairs("A", "B", "B", "C");
    DedupExample("A", "B", "C");
    assert EntryPointUnion([x, y]) == ["A", "B", "C"];
    assert Join(["A", "B", "C"], ',') == "A,B,C";
  }

  /** Two lists of two entry points each flatten to the four entry points in order. */
  lemma FlattenPairs(a: string, b: string, c: string, d: string)
    ensures Flatten([[a, b], [c, d]]) == [a, b, c, d]
  {
    var lists := [[a, b], [c, d]];
    var first := lists[..1];
    assert first == [[a, b]] && first[..0] == [];
    assert Flatten(first) == [] + [a, b];
    assert Flatten(lists) == Flatten(first) + [c, d];
  }

  /** Adding a, b, b, c to an empty insertion-ordered set holds a, b, c. */
  lemma DedupExample(a: string, b: string, c: string)
    requires a != b && a != c && b != c
    ensures Dedup([a, b, b, c]) == [a, b, c]
  {
    DedupOfNoDup([a, b]);
    DedupAbsorbs([a, b], [b]);
    assert [a, b] + [b] == [a, b, b];
    DedupSnoc([a, b, b], c);
    assert [a, b, b] + [c] == [a, b, b, c];
  }

  /** A 45-second extract is capped at 30 seconds; a 20-second one keeps its time. */
  lemma TimeCapExample(x: ExitState, y: ExitState)
    requires x.ExfiltrationTime == 45 && y.ExfiltrationTime == 20
    ensures TimeCapped(x, 30).ExfiltrationTime == 30
    ensures TimeCapped(y, 30).ExfiltrationTime == 20
  {
  }

  /** The configured chance for an extract on "bigmap" is read from the "customs" entry. */
  lemma ChanceOverrideExample(x: ExitState, y: ExitState, cfg: ExtractsConfig)
    requires cfg.random.enabled && "customs" in cfg.random.chances
    requires cfg.random.chances["customs"] == map["SomeExtract" := 75]
    requires x.Name == "SomeExtract" && x.Chance == 50 && y.Name != "SomeExtract"
    ensures ChanceAdjusted(x, cfg, "bigmap").Chance == 75
    ensures ChanceAdjusted(y, cfg, "bigmap") == y
  {
    assert ToLower("bigmap") == "bigmap";
  }
}
