/** Scoring (business/calculate.go): battle points from the result tables,
    per-location counters of BP and SAP, and the per-phase results of a
    list of games.

    `LocationBPs`, `LocationSAPs`, `AllianceResults` and `PhaseResults` are
    value structs in the program: they are copied into the results map and
    passed by value, so they are datatypes here, and the in-place `update`
    of a counter struct is a function returning the updated value. */
module Calculate {
  import opened Model
  import opened Rules

  /** Four counters, one per location. `LocationBPs` and `LocationSAPs`
      have the same shape and the same operations. */
  datatype LocationCounts = LocationCounts(tower: nat, spaceport: nat, battery: nat, bastion: nat)
  {
    /** The counter a location names; an unknown location names none. */
    function At(l: Location): nat {
      if l == LocationTower then tower
      else if l == LocationSpaceport then spaceport
      else if l == LocationBattery then battery
      else if l == LocationBastion then bastion
      else 0
    }

    /** `Total`: the points of all four locations together. */
    function Total(): (r: nat)
      ensures forall l :: IsLocation(l) ==> At(l) <= r
    {
      bastion + battery + spaceport + tower
    }

    /** `update`: adds `gain` to the counter of `l`; an unknown location
        changes nothing. */
    function Update(l: Location, gain: nat): (r: LocationCounts)
      ensures IsLocation(l) ==> r.At(l) == At(l) + gain
      ensures forall m :: m != l ==> r.At(m) == At(m)
      ensures !IsLocation(l) ==> r == this
    {
      if l == LocationBastion then this.(bastion := bastion + gain)
      else if l == LocationBattery then this.(battery := battery + gain)
      else if l == LocationTower then this.(tower := tower + gain)
      else if l == LocationSpaceport then this.(spaceport := spaceport + gain)
      else this
    }

    /** Counter-wise sum. */
    function Add(o: LocationCounts): LocationCounts {
      LocationCounts(tower + o.tower, spaceport + o.spaceport, battery + o.battery, bastion + o.bastion)
    }
  }

  type LocationBPs = LocationCounts
  type LocationSAPs = LocationCounts

  const NoPoints: LocationCounts := LocationCounts(0, 0, 0, 0)

  /** `Total` is the sum of the four counters a location names. */
  lemma TotalOfCounters(c: LocationCounts)
    ensures c.Total() == c.At(LocationTower) + c.At(LocationSpaceport) + c.At(LocationBattery) + c.At(LocationBastion)
    ensures c.Total() == 0 <==> c == NoPoints
  {
  }

  /** A counter struct is determined by what its four locations read. */
  lemma CountersEqual(c: LocationCounts, d: LocationCounts)
    requires forall l :: IsLocation(l) ==> c.At(l) == d.At(l)
    ensures c == d
  {
    assert c.At(LocationTower) == d.At(LocationTower);
    assert c.At(LocationSpaceport) == d.At(LocationSpaceport);
    assert c.At(LocationBattery) == d.At(LocationBattery);
    assert c.At(LocationBastion) == d.At(LocationBastion);
  }

  /** An update raises the total by the gain, or not at all for an unknown location. */
  lemma UpdateTotal(c: LocationCounts, l: Location, gain: nat)
    ensures c.Update(l, gain).Total() == c.Total() + (if IsLocation(l) then gain else 0)
  {
  }

  /** An update adds a one-counter struct, so updates commute. */
  lemma UpdateIsAdd(c: LocationCounts, l: Location, gain: nat)
    ensures c.Update(l, gain) == c.Add(NoPoints.Update(l, gain))
  {
  }

  datatype AllianceResults = AllianceResults(bpAllocation: LocationBPs, sapAllocation: LocationSAPs)
  {
    function Add(o: AllianceResults): AllianceResults {
      AllianceResults(bpAllocation.Add(o.bpAllocation), sapAllocation.Add(o.sapAllocation))
    }
  }

  const NoResults: AllianceResults := AllianceResults(NoPoints, NoPoints)

  datatype PhaseResults = PhaseResults(guardians: AllianceResults, despoilers: AllianceResults, marauders: AllianceResults)
  {
    /** The results of one of the three alliances. */
    function Of(a: Alliance): AllianceResults
      requires IsAlliance(a)
    {
      if a == AllianceGuardians then guardians
      else if a == AllianceDespoilers then despoilers
      else marauders
    }

    function Add(o: PhaseResults): PhaseResults {
      PhaseResults(guardians.Add(o.guardians), despoilers.Add(o.despoilers), marauders.Add(o.marauders))
    }

    /** `PhaseResults.update`: credits every alliance entry of the game, in
        order, on a copy of the receiver. */
    method Update(game: GameRecord) returns (r: PhaseResults)
      ensures r == Credited(this, game, game.alliances)
    {
      var pr := this;
      for i := 0 to |game.alliances|
        invariant pr == Credited(this, game, game.alliances[..i])
      {
        var alliance := game.alliances[i];
        var bpLocation := LocationAt(game.bpAllocation, alliance);
        var bpGain := CalculateBPGain(alliance, game.victor, game.scale);
        var sapLocation := LocationAt(game.sapAllocation, alliance);
        if alliance == AllianceGuardians {
          pr := pr.(guardians := pr.guardians.(bpAllocation := pr.guardians.bpAllocation.Update(bpLocation, bpGain)));
          pr := pr.(guardians := pr.guardians.(sapAllocation := pr.guardians.sapAllocation.Update(sapLocation, GainAt(game.sapGain, AllianceGuardians))));
        } else if alliance == AllianceDespoilers {
          pr := pr.(despoilers := pr.despoilers.(bpAllocation := pr.despoilers.bpAllocation.Update(bpLocation, bpGain)));
          pr := pr.(despoilers := pr.despoilers.(sapAllocation := pr.despoilers.sapAllocation.Update(sapLocation, GainAt(game.sapGain, AllianceDespoilers))));
        } else if alliance == AllianceMarauders {
          pr := pr.(marauders := pr.marauders.(bpAllocation := pr.marauders.bpAllocation.Update(bpLocation, bpGain)));
          pr := pr.(marauders := pr.marauders.(sapAllocation := pr.marauders.sapAllocation.Update(sapLocation, GainAt(game.sapGain, AllianceMarauders))));
        }
        assert game.alliances[..i + 1][..i] == game.alliances[..i];
      }
      assert game.alliances[..|game.alliances|] == game.alliances;
      r := pr;
    }
  }

  const NoPhaseResults: PhaseResults := PhaseResults(NoResults, NoResults, NoResults)

  lemma AddCommutes(x: PhaseResults, y: PhaseResults)
    ensures x.Add(y) == y.Add(x)
  {
  }

  lemma AddAssociates(x: PhaseResults, y: PhaseResults, z: PhaseResults)
    ensures x.Add(y).Add(z) == x.Add(y.Add(z))
  {
  }

  lemma AddNothing(x: PhaseResults)
    ensures x.Add(NoPhaseResults) == x && NoPhaseResults.Add(x) == x
  {
  }

  // ----- Battle points -----

  /** The battle point tables, by scale: win, draw, loss. */
  const WinBP: map<Scale, nat> := map[ScaleIncursion := 2, ScaleStrikeForce := 3, ScaleOnslaught := 4]
  const DrawBP: map<Scale, nat> := map[ScaleIncursion := 2, ScaleStrikeForce := 2, ScaleOnslaught := 3]
  const LossBP: map<Scale, nat> := map[ScaleIncursion := 1, ScaleStrikeForce := 1, ScaleOnslaught := 2]

  /** A table read as Go reads a map: a missing scale yields 0. */
  function Lookup(table: map<Scale, nat>, scale: Scale): nat {
    if scale in table then table[scale] else 0
  }

  /** `calculateBPGain`. */
  function CalculateBPGain(alliance: Alliance, victor: Victor, scale: Scale): (r: nat)
    ensures Lookup(LossBP, scale) <= r <= Lookup(WinBP, scale)
    ensures r > 0 <==> IsScale(scale)
  {
    if victor == VictorDraw then Lookup(DrawBP, scale)
    else if alliance == victor then Lookup(WinBP, scale)
    else Lookup(LossBP, scale)
  }

  /** The literal table: incursion 2/2/1, strike_force 3/2/1, onslaught
      4/3/2 for win/draw/loss, and 0 for a scale the tables do not list. */
  lemma BPGainTable(alliance: Alliance, victor: Victor, scale: Scale)
    ensures var gain := CalculateBPGain(alliance, victor, scale);
      var outcome := if victor == VictorDraw then 1 else if alliance == victor then 0 else 2;
      && (scale == ScaleIncursion ==> gain == [2, 2, 1][outcome])
      && (scale == ScaleStrikeForce ==> gain == [3, 2, 1][outcome])
      && (scale == ScaleOnslaught ==> gain == [4, 3, 2][outcome])
      && (!IsScale(scale) ==> gain == 0)
  {
  }

  /** On a draw every alliance gets the draw value; a win is never worth
      less than a draw, nor a draw less than a loss. */
  lemma DrawIgnoresAlliance(a: Alliance, b: Alliance, victor: Victor, scale: Scale)
    ensures victor == VictorDraw ==> CalculateBPGain(a, victor, scale) == CalculateBPGain(b, victor, scale)
    ensures Lookup(WinBP, scale) >= Lookup(DrawBP, scale) >= Lookup(LossBP, scale)
    ensures IsScale(scale) ==> Lookup(LossBP, scale) > 0
  {
  }

  // ----- Crediting one game -----

  /** The results of alliance `a` after one iteration of the loop of
      `PhaseResults.update` credits it. */
  function Credit(ar: AllianceResults, game: GameRecord, a: Alliance): AllianceResults {
    AllianceResults(
      ar.bpAllocation.Update(LocationAt(game.bpAllocation, a), CalculateBPGain(a, game.victor, game.scale)),
      ar.sapAllocation.Update(LocationAt(game.sapAllocation, a), GainAt(game.sapGain, a)))
  }

  /** One iteration of the loop: an entry that is not one of the three
      alliances matches no case of the switch. */
  function CreditEntry(pr: PhaseResults, game: GameRecord, a: Alliance): PhaseResults {
    if a == AllianceGuardians then pr.(guardians := Credit(pr.guardians, game, a))
    else if a == AllianceDespoilers then pr.(despoilers := Credit(pr.despoilers, game, a))
    else if a == AllianceMarauders then pr.(marauders := Credit(pr.marauders, game, a))
    else pr
  }

  /** The loop of `PhaseResults.update` over the entries `alliances`. */
  function Credited(pr: PhaseResults, game: GameRecord, alliances: seq<Alliance>): PhaseResults {
    if alliances == [] then pr
    else CreditEntry(Credited(pr, game, alliances[..|alliances| - 1]), game, alliances[|alliances| - 1])
  }

  /** What one game adds to the results of its phase. */
  function Delta(game: GameRecord): PhaseResults {
    Credited(NoPhaseResults, game, game.alliances)
  }

  /** BP one entry of alliance `b` adds at location `l`. */
  function BPShare(game: GameRecord, b: Alliance, l: Location): nat {
    if LocationAt(game.bpAllocation, b) == l then CalculateBPGain(b, game.victor, game.scale) else 0
  }

  /** SAP one entry of alliance `b` adds at location `l`; a missing sap_gain entry adds 0. */
  function SAPShare(game: GameRecord, b: Alliance, l: Location): nat {
    if LocationAt(game.sapAllocation, b) == l then GainAt(game.sapGain, b) else 0
  }

  lemma CreditEntryCounts(pr: PhaseResults, game: GameRecord, a: Alliance, b: Alliance, l: Location)
    requires IsAlliance(b) && IsLocation(l)
    ensures CreditEntry(pr, game, a).Of(b).bpAllocation.At(l)
         == pr.Of(b).bpAllocation.At(l) + (if a == b then BPShare(game, b, l) else 0)
    ensures CreditEntry(pr, game, a).Of(b).sapAllocation.At(l)
         == pr.Of(b).sapAllocation.At(l) + (if a == b then SAPShare(game, b, l) else 0)
  {
    if a == b {
      assert CreditEntry(pr, game, a).Of(b) == Credit(pr.Of(b), game, b);
    } else {
      assert CreditEntry(pr, game, a).Of(b) == pr.Of(b);
    }
  }

  /** Each entry of an alliance credits its BP at its bp_allocation
      location; the counter rises by the alliance's number of entries times
      its share. */
  lemma {:induction false} CreditedBP(pr: PhaseResults, game: GameRecord, alliances: seq<Alliance>, b: Alliance, l: Location)
    requires IsAlliance(b) && IsLocation(l)
    ensures Credited(pr, game, alliances).Of(b).bpAllocation.At(l)
         == pr.Of(b).bpAllocation.At(l) + multiset(alliances)[b] * BPShare(game, b, l)
  {
    if alliances != [] {
      var init := alliances[..|alliances| - 1];
      var last := alliances[|alliances| - 1];
      assert alliances == init + [last];
      var n := multiset(init)[b];
      var share := BPShare(game, b, l);
      assert multiset(alliances)[b] == n + (if last == b then 1 else 0);
      var before := Credited(pr, game, init);
      assert Credited(pr, game, alliances) == CreditEntry(before, game, last);
      CreditedBP(pr, game, init, b, l);
      CreditEntryCounts(before, game, last, b, l);
      AddShare(pr.Of(b).bpAllocation.At(l), before.Of(b).bpAllocation.At(l), Credited(pr, game, alliances).Of(b).bpAllocation.At(l), n, share, last == b);
    }
  }

  /** The same for SAP: each entry credits the alliance's sap_gain at its
      sap_allocation location. */
  lemma {:induction false} CreditedSAP(pr: PhaseResults, game: GameRecord, alliances: seq<Alliance>, b: Alliance, l: Location)
    requires IsAlliance(b) && IsLocation(l)
    ensures Credited(pr, game, alliances).Of(b).sapAllocation.At(l)
         == pr.Of(b).sapAllocation.At(l) + multiset(alliances)[b] * SAPShare(game, b, l)
  {
    if alliances != [] {
      var init := alliances[..|alliances| - 1];
      var last := alliances[|alliances| - 1];
      assert alliances == init + [last];
      var n := multiset(init)[b];
      var share := SAPShare(game, b, l);
      assert multiset(alliances)[b] == n + (if last == b then 1 else 0);
      var before := Credited(pr, game, init);
      assert Credited(pr, game, alliances) == CreditEntry(before, game, last);
      CreditedSAP(pr, game, init, b, l);
      CreditEntryCounts(before, game, last, b, l);
      AddShare(pr.Of(b).sapAllocation.At(l), before.Of(b).sapAllocation.At(l), Credited(pr, game, alliances).Of(b).sapAllocation.At(l), n, share, last == b);
    }
  }

  /** One more entry adds one more share. */
  lemma AddShare(start: nat, before: nat, after: nat, n: nat, share: nat, hit: bool)
    requires before == start + n * share
    requires after == before + (if hit then share else 0)
    ensures after == start + (n + if hit then 1 else 0) * share
  {
  }

  /** An alliance without an entry in the game keeps its results. */
  lemma {:induction false} AbsentUntouched(pr: PhaseResults, game: GameRecord, alliances: seq<Alliance>, b: Alliance)
    requires IsAlliance(b) && b !in alliances
    ensures Credited(pr, game, alliances).Of(b) == pr.Of(b)
  {
    if alliances != [] {
      var init := alliances[..|alliances| - 1];
      assert forall x :: x in init ==> x in alliances;
      AbsentUntouched(pr, game, init, b);
    }
  }

  /** An alliance without a sap_gain entry gains no SAP anywhere. */
  lemma NoGainNoSAP(pr: PhaseResults, game: GameRecord, b: Alliance)
    requires IsAlliance(b) && b !in game.sapGain
    ensures Credited(pr, game, game.alliances).Of(b).sapAllocation == pr.Of(b).sapAllocation
  {
    forall l | IsLocation(l)
      ensures Credited(pr, game, game.alliances).Of(b).sapAllocation.At(l) == pr.Of(b).sapAllocation.At(l)
    {
      CreditedSAP(pr, game, game.alliances, b, l);
    }
    CountersEqual(Credited(pr, game, game.alliances).Of(b).sapAllocation, pr.Of(b).sapAllocation);
  }

  /** A game that passes validation has both alliances in bp_allocation. */
  lemma BothAllocated(game: GameRecord)
    requires WellFormed(game)
    ensures game.alliances[0] in game.bpAllocation && game.alliances[1] in game.bpAllocation
  {
    var keys := game.bpAllocation.Keys;
    assert |keys| == 2;
    assert forall a :: a in keys ==> a == game.alliances[0] || a == game.alliances[1] by {
      forall a | a in keys ensures a == game.alliances[0] || a == game.alliances[1] {
        assert a in game.alliances;
      }
    }
    if game.alliances[0] !in keys {
      AtMostOne(keys, game.alliances[1]);
    }
    if game.alliances[1] !in keys {
      AtMostOne(keys, game.alliances[0]);
    }
  }

  lemma AtMostOne(keys: set<Alliance>, a: Alliance)
    requires forall k :: k in keys ==> k == a
    ensures |keys| <= 1
  {
    if keys != {} {
      assert keys == {a};
    }
  }

  /** For a game that passes validation and is not a draw, the winner's BP
      counter at its bp_allocation location rises by the win value and the
      loser's by the loss value. */
  lemma WinnerAndLoser(pr: PhaseResults, game: GameRecord, winner: Alliance, loser: Alliance)
    requires WellFormed(game) && game.victor != VictorDraw
    requires winner == game.victor && loser in game.alliances && loser != winner
    ensures IsAlliance(winner) && IsAlliance(loser)
    ensures IsLocation(LocationAt(game.bpAllocation, winner)) && IsLocation(LocationAt(game.bpAllocation, loser))
    ensures var l := LocationAt(game.bpAllocation, winner);
      Credited(pr, game, game.alliances).Of(winner).bpAllocation.At(l)
      == pr.Of(winner).bpAllocation.At(l) + Lookup(WinBP, game.scale)
    ensures var l := LocationAt(game.bpAllocation, loser);
      Credited(pr, game, game.alliances).Of(loser).bpAllocation.At(l)
      == pr.Of(loser).bpAllocation.At(l) + Lookup(LossBP, game.scale)
  {
    BothAllocated(game);
    var entries := game.alliances;
    assert entries == [entries[0], entries[1]];
    assert multiset(entries)[winner] == 1 && multiset(entries)[loser] == 1;
    CreditedBP(pr, game, entries, winner, LocationAt(game.bpAllocation, winner));
    CreditedBP(pr, game, entries, loser, LocationAt(game.bpAllocation, loser));
  }

  lemma AllianceAddNothing(ar: AllianceResults)
    ensures ar.Add(NoResults) == ar
  {
  }

  lemma CreditIsAdd(ar: AllianceResults, game: GameRecord, a: Alliance)
    ensures Credit(ar, game, a) == ar.Add(Credit(NoResults, game, a))
  {
    UpdateIsAdd(ar.bpAllocation, LocationAt(game.bpAllocation, a), CalculateBPGain(a, game.victor, game.scale));
    UpdateIsAdd(ar.sapAllocation, LocationAt(game.sapAllocation, a), GainAt(game.sapGain, a));
  }

  /** Crediting is adding: the loop adds the same amounts whatever the
      starting results. */
  lemma CreditEntryIsAdd(pr: PhaseResults, game: GameRecord, a: Alliance)
    ensures CreditEntry(pr, game, a) == pr.Add(CreditEntry(NoPhaseResults, game, a))
  {
    AllianceAddNothing(pr.guardians);
    AllianceAddNothing(pr.despoilers);
    AllianceAddNothing(pr.marauders);
    if a == AllianceGuardians {
      CreditIsAdd(pr.guardians, game, a);
    } else if a == AllianceDespoilers {
      CreditIsAdd(pr.despoilers, game, a);
    } else if a == AllianceMarauders {
      CreditIsAdd(pr.marauders, game, a);
    }
  }

  lemma {:induction false} CreditedIsAdd(pr: PhaseResults, game: GameRecord, alliances: seq<Alliance>)
    ensures Credited(pr, game, alliances) == pr.Add(Credited(NoPhaseResults, game, alliances))
    decreases |alliances|
  {
    if alliances == [] {
      AddNothing(pr);
    } else {
      var init := alliances[..|alliances| - 1];
      var last := alliances[|alliances| - 1];
      CreditedIsAdd(pr, game, init);
      CreditedIsAdd(NoPhaseResults, game, init);
      var before := Credited(NoPhaseResults, game, init);
      var entry := CreditEntry(NoPhaseResults, game, last);
      CreditEntryIsAdd(pr.Add(before), game, last);
      CreditEntryIsAdd(before, game, last);
      AddAssociates(pr, before, entry);
      AddNothing(before);
    }
  }

  // ----- Aggregating a campaign -----

  /** `Results`: the results of each phase. */
  type Results = map<Phase, PhaseResults>

  /** The starting map: phases 1, 2 and 3, all counters zero. */
  const InitialResults: Results := map[Phase1 := NoPhaseResults, Phase2 := NoPhaseResults, Phase3 := NoPhaseResults]

  /** Reading the results map as Go does: a missing phase yields zero results. */
  function ResultsAt(results: Results, p: Phase): PhaseResults {
    if p in results then results[p] else NoPhaseResults
  }

  /** One iteration of the loop of `CalculateResults`. */
  function Step(results: Results, game: GameRecord): Results {
    results[game.phase := Credited(ResultsAt(results, game.phase), game, game.alliances)]
  }

  function AggregateFrom(results: Results, games: seq<GameRecord>): Results {
    if games == [] then results
    else Step(AggregateFrom(results, games[..|games| - 1]), games[|games| - 1])
  }

  /** The results `CalculateResults` returns for `games`. */
  function Aggregate(games: seq<GameRecord>): Results {
    AggregateFrom(InitialResults, games)
  }

  /** `CalculateResults`. */
  method CalculateResults(games: seq<GameRecord>) returns (results: Results)
    ensures results == Aggregate(games)
  {
    results := map[Phase1 := NoPhaseResults, Phase2 := NoPhaseResults, Phase3 := NoPhaseResults];
    for i := 0 to |games|
      invariant results == AggregateFrom(InitialResults, games[..i])
    {
      var game := games[i];
      var phaseResults := if game.phase in results then results[game.phase] else NoPhaseResults;
      var updated := phaseResults.Update(game);
      results := results[game.phase := updated];
      assert games[..i + 1][..i] == games[..i];
    }
    assert games[..|games|] == games;
  }

  /** The sum of what the games of phase `p` add. */
  function PhaseSum(games: seq<GameRecord>, p: Phase): PhaseResults {
    if games == [] then NoPhaseResults
    else
      var last := games[|games| - 1];
      PhaseSum(games[..|games| - 1], p).Add(if last.phase == p then Delta(last) else NoPhaseResults)
  }

  /** An empty campaign yields exactly phases 1, 2 and 3, all zero. */
  lemma EmptyCampaign()
    ensures Aggregate([]).Keys == {1, 2, 3}
    ensures forall p :: p in Aggregate([]) ==> Aggregate([])[p] == NoPhaseResults
    ensures forall p, a :: p in Aggregate([]) && IsAlliance(a) ==>
      Aggregate([])[p].Of(a).bpAllocation.Total() == 0 && Aggregate([])[p].Of(a).sapAllocation.Total() == 0
  {
  }

  /** The phases present: 1, 2, 3 and the phase of every game. */
  lemma {:induction false} AggregateFromKeys(results: Results, games: seq<GameRecord>)
    ensures AggregateFrom(results, games).Keys == results.Keys + set g | g in games :: g.phase
  {
    if games != [] {
      var init := games[..|games| - 1];
      var last := games[|games| - 1];
      assert games == init + [last];
      AggregateFromKeys(results, init);
      assert (set g | g in games :: g.phase) == (set g | g in init :: g.phase) + {last.phase};
    }
  }

  /** Each phase holds its starting value plus what the games of that
      phase add. */
  lemma {:induction false} AggregateFromAt(results: Results, games: seq<GameRecord>, p: Phase)
    ensures ResultsAt(AggregateFrom(results, games), p) == ResultsAt(results, p).Add(PhaseSum(games, p))
  {
    if games == [] {
      AddNothing(ResultsAt(results, p));
    } else {
      var init := games[..|games| - 1];
      var last := games[|games| - 1];
      var before := AggregateFrom(results, init);
      AggregateFromAt(results, init, p);
      if last.phase == p {
        CreditedIsAdd(ResultsAt(before, p), last, last.alliances);
        AddAssociates(ResultsAt(results, p), PhaseSum(init, p), Delta(last));
      } else {
        AddNothing(PhaseSum(init, p));
      }
    }
  }

  lemma {:induction false} PhaseSumAppend(s: seq<GameRecord>, t: seq<GameRecord>, p: Phase)
    ensures PhaseSum(s + t, p) == PhaseSum(s, p).Add(PhaseSum(t, p))
    decreases |t|
  {
    if t == [] {
      assert s + t == s;
      AddNothing(PhaseSum(s, p));
    } else {
      var init := t[..|t| - 1];
      var last := t[|t| - 1];
      assert (s + t)[..|s + t| - 1] == s + init;
      PhaseSumAppend(s, init, p);
      AddAssociates(PhaseSum(s, p), PhaseSum(init, p), if last.phase == p then Delta(last) else NoPhaseResults);
    }
  }

  lemma RemoveOne(t: seq<GameRecord>, k: int)
    requires 0 <= k < |t|
    ensures multiset(t) == multiset(t[..k] + t[k + 1..]) + multiset{t[k]}
  {
    assert t == t[..k] + [t[k]] + t[k + 1..];
  }

  lemma Cancel(m: multiset<GameRecord>, n: multiset<GameRecord>, x: GameRecord)
    requires m + multiset{x} == n + multiset{x}
    ensures m == n
  {
    forall y ensures m[y] == n[y] {
      assert (m + multiset{x})[y] == (n + multiset{x})[y];
    }
  }

  /** The per-phase sums do not depend on the order of the games. */
  lemma {:induction false} PhaseSumPermutation(s: seq<GameRecord>, t: seq<GameRecord>, p: Phase)
    requires multiset(s) == multiset(t)
    ensures PhaseSum(s, p) == PhaseSum(t, p)
    decreases |s|
  {
    if s == [] {
      assert |t| == |multiset(t)| == 0;
    } else {
      var init := s[..|s| - 1];
      var x := s[|s| - 1];
      assert s == init + [x];
      assert x in multiset(t);
      var k :| 0 <= k < |t| && t[k] == x;
      var rest := t[..k] + t[k + 1..];
      assert t == t[..k] + [x] + t[k + 1..];
      RemoveOne(t, k);
      RemoveOne(s, |s| - 1);
      assert s[..|s| - 1] + s[|s|..] == init;
      Cancel(multiset(init), multiset(rest), x);
      PhaseSumPermutation(init, rest, p);
      var share := if x.phase == p then Delta(x) else NoPhaseResults;
      assert PhaseSum([x], p) == share by {
        assert [x][..0] == [];
        AddNothing(share);
      }
      PhaseSumAppend(t[..k] + [x], t[k + 1..], p);
      PhaseSumAppend(t[..k], [x], p);
      PhaseSumAppend(t[..k], t[k + 1..], p);
      AddAssociates(PhaseSum(t[..k], p), share, PhaseSum(t[k + 1..], p));
      AddCommutes(share, PhaseSum(t[k + 1..], p));
      AddAssociates(PhaseSum(t[..k], p), PhaseSum(t[k + 1..], p), share);
    }
  }

  /** The results do not depend on the order of the games. */
  lemma OrderIndependent(s: seq<GameRecord>, t: seq<GameRecord>)
    requires multiset(s) == multiset(t)
    ensures Aggregate(s) == Aggregate(t)
  {
    AggregateFromKeys(InitialResults, s);
    AggregateFromKeys(InitialResults, t);
    assert (set g | g in s :: g.phase) == (set g | g in t :: g.phase) by {
      assert forall g :: g in s <==> g in multiset(s);
    }
    forall p | p in Aggregate(s)
      ensures Aggregate(s)[p] == Aggregate(t)[p]
    {
      AggregateFromAt(InitialResults, s, p);
      AggregateFromAt(InitialResults, t, p);
      PhaseSumPermutation(s, t, p);
    }
  }

  /** A game is added into the entry of its phase and nowhere else; a phase
      outside 1-3 gets an entry of its own and phases 1-3 stay as they were. */
  lemma AddedToItsPhase(games: seq<GameRecord>, game: GameRecord)
    ensures var after := Aggregate(games + [game]);
      && game.phase in after
      && after[game.phase] == ResultsAt(Aggregate(games), game.phase).Add(Delta(game))
      && forall p :: p != game.phase ==> ResultsAt(after, p) == ResultsAt(Aggregate(games), p)
    ensures !IsNamedPhase(game.phase) ==>
      forall p :: IsNamedPhase(p) ==> p in Aggregate(games + [game]) && Aggregate(games + [game])[p] == Aggregate(games)[p]
  {
    assert (games + [game])[..|games|] == games;
    CreditedIsAdd(ResultsAt(Aggregate(games), game.phase), game, game.alliances);
    AggregateFromKeys(InitialResults, games);
  }
}
