/**
 * The host's extract records. An `Exit` is owned by the host's location
 * table and is updated in place by the rules; `ExitState` is the value of
 * its fields at one moment, which the rule specifications are written over.
 * Only the fields the rules read or write are modelled.
 */
module Exits {

  /** The fields of one extract, as a value. */
  datatype ExitState = ExitState(
    Name: string,
    EntryPoints: string,
    Chance: int,
    ExfiltrationTime: int,
    ExfiltrationType: string,
    PlayersCount: int,
    PassageRequirement: string,
    RequirementTip: string,
    RequiredSlot: string,
    Id: string,
    Count: int)

  /** Names for the fields, so that a rule can say which ones it writes. */
  datatype Field =
    | NameField | EntryPointsField | ChanceField | ExfiltrationTimeField
    | ExfiltrationTypeField | PlayersCountField | PassageRequirementField
    | RequirementTipField | RequiredSlotField | IdField | CountField

  /** Every field outside `written` has the same value in `x` and `y`. */
  predicate SameExcept(x: ExitState, y: ExitState, written: set<Field>) {
    && (NameField !in written ==> y.Name == x.Name)
    && (EntryPointsField !in written ==> y.EntryPoints == x.EntryPoints)
    && (ChanceField !in written ==> y.Chance == x.Chance)
    && (ExfiltrationTimeField !in written ==> y.ExfiltrationTime == x.ExfiltrationTime)
    && (ExfiltrationTypeField !in written ==> y.ExfiltrationType == x.ExfiltrationType)
    && (PlayersCountField !in written ==> y.PlayersCount == x.PlayersCount)
    && (PassageRequirementField !in written ==> y.PassageRequirement == x.PassageRequirement)
    && (RequirementTipField !in written ==> y.RequirementTip == x.RequirementTip)
    && (RequiredSlotField !in written ==> y.RequiredSlot == x.RequiredSlot)
    && (IdField !in written ==> y.Id == x.Id)
    && (CountField !in written ==> y.Count == x.Count)
  }

  /** One extract record of a location, updated in place. */
  class Exit {
    var Name: string
    var EntryPoints: string
    var Chance: int
    var ExfiltrationTime: int
    var ExfiltrationType: string
    var PlayersCount: int
    var PassageRequirement: string
    var RequirementTip: string
    var RequiredSlot: string
    var Id: string
    var Count: int

    constructor (s: ExitState)
      ensures State() == s
    {
      Name, EntryPoints, Chance, ExfiltrationTime := s.Name, s.EntryPoints, s.Chance, s.ExfiltrationTime;
      ExfiltrationType, PlayersCount := s.ExfiltrationType, s.PlayersCount;
      PassageRequirement, RequirementTip, RequiredSlot := s.PassageRequirement, s.RequirementTip, s.RequiredSlot;
      Id, Count := s.Id, s.Count;
    }

    /** The current values of the fields. */
    function State(): ExitState
      reads this
    {
      ExitState(Name, EntryPoints, Chance, ExfiltrationTime, ExfiltrationType, PlayersCount,
                PassageRequirement, RequirementTip, RequiredSlot, Id, Count)
    }
  }

  /** A location's base: its identifier and its extracts in storage order. */
  datatype Location = Location(Id: string, exits: seq<Exit>)

  /** The current values of a sequence of records. */
  function States(exits: seq<Exit>): (r: seq<ExitState>)
    reads exits
    ensures |r| == |exits|
    ensures forall i :: 0 <= i < |exits| ==> r[i] == exits[i].State()
  {
    seq(|exits|, i reads exits requires 0 <= i < |exits| => exits[i].State())
  }

  /** No record appears twice in the sequence. */
  predicate DistinctRecords(exits: seq<Exit>) {
    forall i, j :: 0 <= i < j < |exits| ==> exits[i] != exits[j]
  }

  /** Every name in `names` has a location in the table. */
  predicate AllPresent(locations: map<string, Location>, names: seq<string>) {
    forall i :: 0 <= i < |names| ==> names[i] in locations
  }

  /**
   * The records of the locations named in `names` are pairwise distinct
   * objects: no record is listed twice, within or across locations.
   */
  predicate Unaliased(locations: map<string, Location>, names: seq<string>)
    requires AllPresent(locations, names)
  {
    && (forall i :: 0 <= i < |names| ==> DistinctRecords(locations[names[i]].exits))
    && (forall i, j :: 0 <= i < j < |names| ==>
          forall e :: e in locations[names[i]].exits ==> e !in locations[names[j]].exits)
  }

  /** Two different names of an unaliased table share no record. */
  lemma SeparateLocations(locations: map<string, Location>, names: seq<string>, i: nat, k: nat)
    requires AllPresent(locations, names) && Unaliased(locations, names)
    requires i < |names| && k < |names| && i != k
    ensures forall e :: e in locations[names[i]].exits ==> e !in locations[names[k]].exits
  {
  }

  /** All records of the locations named in `names`. */
  function RecordsOf(locations: map<string, Location>, names: seq<string>): set<Exit> {
    set i, e | 0 <= i < |names| && names[i] in locations && e in locations[names[i]].exits :: e
  }

  /** The records of every named location are among the records of the table. */
  lemma RecordsOfCovers(locations: map<string, Location>, names: seq<string>, k: nat)
    requires k < |names| && names[k] in locations
    ensures forall e :: e in locations[names[k]].exits ==> e in RecordsOf(locations, names)
  {
  }
}
