/** The rules `validateGame` checks (business/decode.go), stated as
    functions: which messages each group of checks appends, and the rules
    themselves as one predicate on the record.

    Each failed check appends one message. Messages are modelled as the
    constructors of `Violation`, carrying the values the program formats
    into the text; the text itself is not modelled. */
module Rules {
  import opened Model
  import opened Sorting

  /** One message of `validateGame`, one constructor per `AddError` call. */
  datatype Violation =
    | PhaseTooHigh                                  // "phase cannot be more than 3"
    | IncorrectScale(scale: Scale)                  // "incorrect scale %q"
    | PlayerCount                                   // "game must have only 2 players"
    | AllianceCount                                 // "game must have only 2 alliances"
    | InvalidAllianceEntry(alliance: Alliance)      // "invalid alliance entry: %q"
    | SameAlliances                                 // "game must have a 2 different alliances"
    | VictorRequired                                // "victor is required"
    | InvalidVictor(victor: Victor)                 // "invalid victor: %q"
    | VictorNotInGame(alliances: seq<Alliance>)     // "victor must be one of %v or DRAW"
    | BPAllocationCount                             // "bp_allocation must have 2 entries"
    | BPAllocationForeignAlliance                   // "bp_allocation should only mention alliances ..."
    | BPAllocationInvalidLocation(alliance: Alliance, location: Location)
    | SAPGainForeignAlliance                        // "sap_gain should only mention alliances ..."
    | SAPAllocationForeignAlliance                  // "sap_allocation should only mention alliances ..."
    | SAPAllocationInvalidLocation(alliance: Alliance, location: Location)
    | SAPUnallocated(alliance: Alliance)            // "sap gained are unallocated for alliance %v"

  datatype Option<T> = None | Some(value: T)

  // ----- The messages each group of checks produces, as functions -----

  /** The checks on phase, scale, players and alliance count. */
  function HeaderViolations(game: GameRecord): (r: seq<Violation>)
    ensures |r| <= 4
    ensures forall v :: v in r ==> v.PhaseTooHigh? || v.IncorrectScale? || v.PlayerCount? || v.AllianceCount?
  {
    (if game.phase > 3 then [PhaseTooHigh] else [])
    + (if IsScale(game.scale) then [] else [IncorrectScale(game.scale)])
    + (if |game.players| != 2 then [PlayerCount] else [])
    + (if |game.alliances| != 2 then [AllianceCount] else [])
  }

  /** One message per alliance entry outside the three alliances, in order. */
  function AllianceEntryViolations(alliances: seq<Alliance>): (r: seq<Violation>)
    ensures forall v :: v in r ==> v.InvalidAllianceEntry? && v.alliance in alliances && !IsAlliance(v.alliance)
  {
    if alliances == [] then []
    else
      var last := alliances[|alliances| - 1];
      AllianceEntryViolations(alliances[..|alliances| - 1])
      + (if IsAlliance(last) then [] else [InvalidAllianceEntry(last)])
  }

  /** The checks on the two alliances, the victor and the size of bp_allocation. */
  function MatchViolations(game: GameRecord): (r: seq<Violation>)
    requires |game.alliances| >= 2
    ensures |r| <= 5
    ensures forall v :: v in r ==>
      v.SameAlliances? || v.VictorRequired? || v.InvalidVictor? || v.VictorNotInGame? || v.BPAllocationCount?
  {
    (if game.alliances[0] == game.alliances[1] then [SameAlliances] else [])
    + (if game.victor == "" then [VictorRequired] else [])
    + (if IsVictor(game.victor) then [] else [InvalidVictor(game.victor)])
    + (if game.victor != VictorDraw && game.victor !in game.alliances
       then [VictorNotInGame(game.alliances)] else [])
    + (if |game.bpAllocation| != 2 then [BPAllocationCount] else [])
  }

  /** The three loops over a map: bp_allocation, sap_gain, sap_allocation. */
  datatype Section = BPSection | GainSection | SAPSection

  function SectionKeys(game: GameRecord, section: Section): set<Alliance> {
    match section
    case BPSection => game.bpAllocation.Keys
    case GainSection => game.sapGain.Keys
    case SAPSection => game.sapAllocation.Keys
  }

  /** Whether a key of the section is one the section's loop accepts as
      an owner: an alliance of the game, or for sap_allocation a key of
      sap_gain. */
  predicate Allowed(game: GameRecord, section: Section, a: Alliance) {
    match section
    case BPSection => a in game.alliances
    case GainSection => a in game.alliances
    case SAPSection => a in game.sapGain
  }

  /** The message a key that is not allowed produces in the section. */
  function ForeignMessage(section: Section): Violation {
    match section
    case BPSection => BPAllocationForeignAlliance
    case GainSection => SAPGainForeignAlliance
    case SAPSection => SAPAllocationForeignAlliance
  }

  /** The message an entry with an unknown location produces, if the section has one. */
  function LocationMessage(section: Section, a: Alliance, l: Location): Option<Violation> {
    match section
    case BPSection => Some(BPAllocationInvalidLocation(a, l))
    case GainSection => None
    case SAPSection => Some(SAPAllocationInvalidLocation(a, l))
  }

  /** Whether a message is one a section's loop can produce. */
  predicate InSection(v: Violation, section: Section) {
    match section
    case BPSection => v.BPAllocationForeignAlliance? || v.BPAllocationInvalidLocation?
    case GainSection => v.SAPGainForeignAlliance?
    case SAPSection => v.SAPAllocationForeignAlliance? || v.SAPAllocationInvalidLocation?
  }

  /** The messages of one iteration of a section's loop, for key `a`. */
  function EntryViolations(game: GameRecord, section: Section, a: Alliance): (r: seq<Violation>)
    ensures forall v :: v in r ==> InSection(v, section)
    ensures forall v :: v in r && (v.BPAllocationInvalidLocation? || v.SAPAllocationInvalidLocation?) ==> v.alliance == a
  {
    (if Allowed(game, section, a) then [] else [ForeignMessage(section)])
    + match section
      case BPSection =>
        var l := LocationAt(game.bpAllocation, a);
        if IsLocation(l) then [] else [BPAllocationInvalidLocation(a, l)]
      case GainSection => []
      case SAPSection =>
        var l := LocationAt(game.sapAllocation, a);
        if IsLocation(l) then [] else [SAPAllocationInvalidLocation(a, l)]
  }

  /** The messages of a section's loop when it visits the keys in `order`. */
  function SectionViolations(game: GameRecord, section: Section, order: seq<Alliance>): (r: seq<Violation>)
    ensures forall v :: v in r ==> InSection(v, section)
  {
    if order == [] then []
    else
      SectionViolations(game, section, order[..|order| - 1])
      + EntryViolations(game, section, order[|order| - 1])
  }

  /** One message per sap_gain alliance without a sap_allocation entry,
      in the order of `gainAlliances`. */
  function UnallocatedViolations(game: GameRecord, gainAlliances: seq<Alliance>): (r: seq<Violation>)
    ensures forall v :: v in r ==> v.SAPUnallocated? && v.alliance in gainAlliances && v.alliance !in game.sapAllocation
  {
    if gainAlliances == [] then []
    else
      var last := gainAlliances[|gainAlliances| - 1];
      UnallocatedViolations(game, gainAlliances[..|gainAlliances| - 1])
      + (if last in game.sapAllocation then [] else [SAPUnallocated(last)])
  }

  /** Every message `validateGame` appends, in order, when the three map
      loops visit their keys in the given orders. */
  function ViolationsIn(game: GameRecord, bpOrder: seq<Alliance>, gainOrder: seq<Alliance>, sapOrder: seq<Alliance>): seq<Violation>
    requires |game.alliances| >= 2
    requires Enumerates(bpOrder, game.bpAllocation.Keys)
    requires Enumerates(gainOrder, game.sapGain.Keys)
    requires Enumerates(sapOrder, game.sapAllocation.Keys)
  {
    HeaderViolations(game)
    + AllianceEntryViolations(game.alliances)
    + MatchViolations(game)
    + SectionViolations(game, BPSection, bpOrder)
    + SectionViolations(game, GainSection, gainOrder)
    + SectionViolations(game, SAPSection, sapOrder)
    + UnallocatedViolations(game, SortedKeys(game.sapGain.Keys))
  }

  /** The campaign rules, stated directly on the record. */
  predicate WellFormed(game: GameRecord) {
    FieldsWellFormed(game) && MapsWellFormed(game)
  }

  /** The rules on the record's scalar and list fields. */
  predicate FieldsWellFormed(game: GameRecord) {
    && game.phase <= 3
    && IsScale(game.scale)
    && |game.players| == 2
    && |game.alliances| == 2
    && (forall i :: 0 <= i < |game.alliances| ==> IsAlliance(game.alliances[i]))
    && game.alliances[0] != game.alliances[1]
    && game.victor != ""
    && IsVictor(game.victor)
    && (game.victor == VictorDraw || game.victor in game.alliances)
    && |game.bpAllocation| == 2
  }

  /** The rules on the three maps. */
  predicate MapsWellFormed(game: GameRecord) {
    BPAllocationValid(game) && SAPGainValid(game) && SAPAllocationValid(game) && SAPGainAllocated(game)
  }

  /** bp_allocation names only alliances of the game, each at a known location. */
  predicate BPAllocationValid(game: GameRecord) {
    forall a :: a in game.bpAllocation ==> a in game.alliances && IsLocation(game.bpAllocation[a])
  }

  /** sap_gain names only alliances of the game. */
  predicate SAPGainValid(game: GameRecord) {
    forall a :: a in game.sapGain ==> a in game.alliances
  }

  /** sap_allocation names only sap_gain alliances, each at a known location. */
  predicate SAPAllocationValid(game: GameRecord) {
    forall a :: a in game.sapAllocation ==> a in game.sapGain && IsLocation(game.sapAllocation[a])
  }

  /** Every sap_gain alliance has a sap_allocation entry. */
  predicate SAPGainAllocated(game: GameRecord) {
    forall a :: a in game.sapGain ==> a in game.sapAllocation
  }
}
