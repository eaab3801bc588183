/**
 * The current rule engine (src/models/ModifyExtracts.ts) as it runs: every
 * rule updates the fields of one extract record in place, and the pass walks
 * the extracts of every enabled location in storage order. Each method is
 * proved to compute the matching function of module ExtractRules. The
 * configuration and the location table are parameters; logging is left out.
 */
module ModifyExtracts {
  import opened Text
  import opened Exits
  import opened ExtractRules

  method CommonAdjustments(extract: Exit)
    modifies extract
    ensures extract.State() == CommonAdjusted(old(extract.State()))
  {
    extract.ExfiltrationType := "Individual";
    extract.PlayersCount := 0;
  }

  /**
   * `entryPoints.forEach(entryPoint => entryPointsSet.add(entryPoint))`, on an
   * insertion-ordered set that holds what adding `seen` one at a time gives.
   */
  method AddAll(entryPointsSet: seq<string>, entryPoints: seq<string>, ghost seen: seq<string>) returns (r: seq<string>)
    requires entryPointsSet == Dedup(seen)
    ensures r == Dedup(seen + entryPoints)
  {
    r := entryPointsSet;
    assert seen + entryPoints[..0] == seen;
    for k := 0 to |entryPoints|
      invariant r == Dedup(seen + entryPoints[..k])
    {
      assert seen + entryPoints[..k + 1] == (seen + entryPoints[..k]) + [entryPoints[k]];
      DedupSnoc(seen + entryPoints[..k], entryPoints[k]);
      if entryPoints[k] !in r {
        r := r + [entryPoints[k]];
      }
    }
    assert entryPoints[..|entryPoints|] == entryPoints;
  }

  /**
   * Fills an insertion-ordered set with the comma-separated entry points of
   * every extract of the location and joins it with commas.
   */
  method GetAllEntryPoints(location: Location) returns (r: string)
    ensures r == AllEntryPoints(States(location.exits))
  {
    ghost var lists := EntryPointLists(States(location.exits));
    var entryPointsSet: seq<string> := [];
    for i := 0 to |location.exits|
      invariant entryPointsSet == Dedup(Flatten(lists[..i]))
    {
      var entryPoints := Split(location.exits[i].EntryPoints, ',');
      FlattenSnoc(lists, i);
      entryPointsSet := AddAll(entryPointsSet, entryPoints, Flatten(lists[..i]));
    }
    assert lists[..|location.exits|] == lists;
    r := Join(entryPointsSet, ',');
  }

  method EnableAllEntryPoints(extract: Exit, location: Location, cfg: ExtractsConfig)
    modifies extract
    ensures extract.State() == EntryPointsWidened(old(extract.State()), cfg, AllEntryPoints(old(States(location.exits))))
  {
    if !cfg.ignoreEntryPoint {
      return;
    }
    var allEntryPoints := GetAllEntryPoints(location);
    if extract.EntryPoints != allEntryPoints {
      extract.EntryPoints := allEntryPoints;
    }
  }

  method AdjustChanceEnabled(extract: Exit, location: Location, cfg: ExtractsConfig)
    modifies extract
    ensures extract.State() == ChanceAdjusted(old(extract.State()), cfg, location.Id)
  {
    if !cfg.random.enabled {
      return;
    }
    var key := GetLocationName(location.Id, ConfigName);
    if key !in cfg.random.chances || extract.Name !in cfg.random.chances[key] {
      return;
    }
    var configChance := cfg.random.chances[key][extract.Name];
    if configChance != extract.Chance {
      extract.Chance := configChance;
    }
  }

  method AdjustMaximumExtractTime(extract: Exit, cfg: ExtractsConfig)
    modifies extract
    ensures extract.State() == TimeCapped(old(extract.State()), cfg.maxExtractionTime)
  {
    var maxTime := cfg.maxExtractionTime;
    if extract.ExfiltrationTime <= maxTime {
      return;
    }
    extract.ExfiltrationTime := maxTime;
  }

  method ConvertCooperationToPayment(extract: Exit, cfg: ExtractsConfig)
    modifies extract
    ensures extract.State() == CooperationConverted(old(extract.State()), cfg)
  {
    if !cfg.cooperation.convertToPayment {
      return;
    }
    if !IsCooperationExtract(extract.State()) {
      return;
    }
    extract.PassageRequirement := "TransferItem";
    extract.RequirementTip := "EXFIL_Item";
    extract.Id := cfg.cooperation.item;
    extract.Count := cfg.cooperation.number;
  }

  method RemoveBackpackRequirement(extract: Exit, cfg: ExtractsConfig)
    modifies extract
    ensures extract.State() == BackpackRemoved(old(extract.State()), cfg)
  {
    if !cfg.ignoreBackpackRequirements {
      return;
    }
    if !IsBackpackExtract(extract.State()) {
      return;
    }
    extract.PassageRequirement := "None";
    extract.RequiredSlot := "FirstPrimaryWeapon";
    extract.RequirementTip := "";
  }

  method RemoveCliffRequirements(extract: Exit, cfg: ExtractsConfig)
    modifies extract
    ensures extract.State() == CliffRemoved(old(extract.State()), cfg)
  {
    if !cfg.ignoreCliffRequirements {
      return;
    }
    if !IsCliffExtract(extract.State()) {
      return;
    }
    extract.Id := "";
    extract.PassageRequirement := "None";
  }

  /**
   * The body of the inner loop of the pass, for one extract of `location`.
   * `allEntryPoints` is the entry point union the location had before the
   * pass; the union recomputed here from the current records equals it.
   */
  method AdjustExtract(extract: Exit, location: Location, cfg: ExtractsConfig, ghost allEntryPoints: string)
    requires cfg.ignoreEntryPoint ==> AllEntryPoints(States(location.exits)) == allEntryPoints
    modifies extract
    ensures extract.State() == Pipeline(old(extract.State()), cfg, location.Id, allEntryPoints)
  {
    CommonAdjustments(extract);
    if cfg.ignoreEntryPoint {
      // Only the entry points of the records matter to the union.
      UnionStable(old(States(location.exits)), States(location.exits), 0);
    }
    EnableAllEntryPoints(extract, location, cfg);
    AdjustChanceEnabled(extract, location, cfg);
    AdjustMaximumExtractTime(extract, cfg);

    // We can finish here if this is a train extract.
    if extract.PassageRequirement == "Train" {
      return;
    }

    ConvertCooperationToPayment(extract, cfg);
    RemoveBackpackRequirement(extract, cfg);
    RemoveCliffRequirements(extract, cfg);
  }

  /**
   * The inner loop of the pass: every extract of one location goes through
   * the pipeline. The entry point union is recomputed for every extract,
   * from records some of which have already been rewritten, and is the same
   * each time.
   */
  method AdjustLocation(location: Location, cfg: ExtractsConfig)
    requires DistinctRecords(location.exits)
    modifies location.exits
    ensures States(location.exits) == AdjustedLocation(old(States(location.exits)), cfg, location.Id)
  {
    ghost var before := States(location.exits);
    ghost var all := AllEntryPoints(before);
    for j := 0 to |location.exits|
      invariant forall t :: 0 <= t < j ==> location.exits[t].State() == Pipeline(before[t], cfg, location.Id, all)
      invariant forall t :: j <= t < |location.exits| ==> location.exits[t].State() == before[t]
    {
      if cfg.ignoreEntryPoint {
        UnionStable(before, States(location.exits), j);
      }
      label Before:
      AdjustExtract(location.exits[j], location, cfg, all);
      forall t | 0 <= t < |location.exits| && t != j
        ensures location.exits[t].State() == old@Before(location.exits[t].State())
      {
        assert location.exits[t] != location.exits[j];
      }
    }
  }

  /**
   * One iteration of the outer loop of the pass: the extracts of the `k`-th
   * named location are adjusted, and the records of the other named
   * locations are left as they were.
   */
  method AdjustNamedLocation(locations: map<string, Location>, names: seq<string>, k: nat, cfg: ExtractsConfig)
    requires AllPresent(locations, names) && Unaliased(locations, names) && k < |names|
    modifies locations[names[k]].exits
    ensures States(locations[names[k]].exits)
            == AdjustedLocation(old(States(locations[names[k]].exits)), cfg, locations[names[k]].Id)
    ensures forall i :: 0 <= i < |names| && i != k ==>
              States(locations[names[i]].exits) == old(States(locations[names[i]].exits))
  {
    var location := locations[names[k]];
    AdjustLocation(location, cfg);
    forall i | 0 <= i < |names| && i != k
      ensures States(locations[names[i]].exits) == old(States(locations[names[i]].exits))
    {
      var others := locations[names[i]].exits;
      SeparateLocations(locations, names, i, k);
      forall t | 0 <= t < |others| ensures others[t].State() == old(others[t].State()) {
        assert others[t] !in location.exits;
      }
    }
  }

  /**
   * The pass: every extract of every enabled location, in storage order.
   * Records of other locations are not touched.
   */
  method MakeAdjustments(locations: map<string, Location>, cfg: ExtractsConfig)
    requires AllPresent(locations, EnabledLocations())
    requires Unaliased(locations, EnabledLocations())
    modifies RecordsOf(locations, EnabledLocations())
    ensures forall i :: 0 <= i < |EnabledLocations()| ==>
              States(locations[EnabledLocations()[i]].exits)
              == AdjustedLocation(old(States(locations[EnabledLocations()[i]].exits)), cfg,
                                  locations[EnabledLocations()[i]].Id)
  {
    var enabledLocations := EnabledLocations();
    for k := 0 to |enabledLocations|
      invariant forall i :: 0 <= i < k ==>
                  States(locations[enabledLocations[i]].exits)
                  == AdjustedLocation(old(States(locations[enabledLocations[i]].exits)), cfg,
                                      locations[enabledLocations[i]].Id)
      invariant forall i :: k <= i < |enabledLocations| ==>
                  States(locations[enabledLocations[i]].exits) == old(States(locations[enabledLocations[i]].exits))
    {
      RecordsOfCovers(locations, enabledLocations, k);
      label Before:
      AdjustNamedLocation(locations, enabledLocations, k, cfg);
      forall i | 0 <= i < k
        ensures States(locations[enabledLocations[i]].exits)
                == AdjustedLocation(old(States(locations[enabledLocations[i]].exits)), cfg,
                                    locations[enabledLocations[i]].Id)
      {
        assert States(locations[enabledLocations[i]].exits)
               == old@Before(States(locations[enabledLocations[i]].exits));
      }
    }
  }
}
