/** The record shape of one played game and the string-typed enumerations
    of the campaign (model/gamerecord.go).

    Alliance, Scale, Location and Victor are open string types in the
    program: a decoded record may carry any string in those fields, and
    the validator is what rejects unknown values. They are therefore kept
    as strings here, with the known values as constants and one predicate
    per type saying which strings are the known ones. */
module Model {

  /** A campaign phase; any integer, although only 1, 2 and 3 are named. */
  type Phase = int
  type Alliance = string
  type Scale = string
  type Location = string
  type Victor = string

  const Phase1: Phase := 1
  const Phase2: Phase := 2
  const Phase3: Phase := 3

  const AllianceGuardians: Alliance := "guardians"
  const AllianceDespoilers: Alliance := "despoilers"
  const AllianceMarauders: Alliance := "marauders"

  const ScaleIncursion: Scale := "incursion"
  const ScaleStrikeForce: Scale := "strike_force"
  const ScaleOnslaught: Scale := "onslaught"

  const LocationBastion: Location := "bastion"
  const LocationTower: Location := "tower"
  const LocationBattery: Location := "battery"
  const LocationSpaceport: Location := "spaceport"

  /** The draw marker, and one victor per alliance spelled as that alliance. */
  const VictorDraw: Victor := "DRAW"
  const VictorGuardians: Victor := AllianceGuardians
  const VictorDespoilers: Victor := AllianceDespoilers
  const VictorMarauders: Victor := AllianceMarauders

  /** One game. SAP gains are unsigned in the program, hence `nat`.
      An absent YAML mapping decodes to a nil map, which behaves as the
      empty map here. */
  datatype GameRecord = GameRecord(
    date: string,
    phase: Phase,
    scale: Scale,
    mission: string,
    players: seq<string>,
    alliances: seq<Alliance>,
    victor: Victor,
    sapGain: map<Alliance, nat>,
    bpAllocation: map<Alliance, Location>,
    sapAllocation: map<Alliance, Location>)

  /** Reading a map as Go does: a missing key yields the zero value. */
  function LocationAt(m: map<Alliance, Location>, a: Alliance): Location {
    if a in m then m[a] else ""
  }

  function GainAt(m: map<Alliance, nat>, a: Alliance): nat {
    if a in m then m[a] else 0
  }

  predicate IsNamedPhase(p: Phase) {
    p == Phase1 || p == Phase2 || p == Phase3
  }

  predicate IsAlliance(a: Alliance) {
    a == AllianceGuardians || a == AllianceMarauders || a == AllianceDespoilers
  }

  predicate IsScale(s: Scale) {
    s == ScaleIncursion || s == ScaleStrikeForce || s == ScaleOnslaught
  }

  predicate IsLocation(l: Location) {
    l == LocationTower || l == LocationBastion || l == LocationBattery || l == LocationSpaceport
  }

  predicate IsVictor(v: Victor) {
    v == VictorDraw || v == VictorGuardians || v == VictorDespoilers || v == VictorMarauders
  }

  /** The named phases are exactly 1, 2 and 3. */
  lemma NamedPhases(p: Phase)
    ensures IsNamedPhase(p) <==> 1 <= p <= 3
  {
  }

  /** Three alliances, three scales, four locations, pairwise distinct. */
  lemma ConstantsDistinct()
    ensures |{AllianceGuardians, AllianceDespoilers, AllianceMarauders}| == 3
    ensures |{ScaleIncursion, ScaleStrikeForce, ScaleOnslaught}| == 3
    ensures |{LocationBastion, LocationTower, LocationBattery, LocationSpaceport}| == 4
  {
  }

  /** Every non-draw victor constant is the string of its alliance, so the
      conversion from Victor to Alliance keeps the alliance; the draw marker
      is none of the alliances, so a draw never equals a participant. */
  lemma VictorIsAllianceOrDraw(v: Victor)
    ensures IsVictor(v) <==> v == VictorDraw || IsAlliance(v)
    ensures !IsAlliance(VictorDraw)
  {
  }
}
