/** The validator of business/decode.go: `validateGame` runs every rule
    check on one record and collects one message per failed check in a
    `GameErrors`; `validateGames` splits a batch into the valid records and
    the collected errors.

    The three loops over Go maps visit their keys in an unspecified order.
    Each loop here picks the next key with `:|`, and `ValidateGame` returns
    the order it took as ghost results, so its contract can name the exact
    message list for that order. */
module Decode {
  import opened Model
  import opened Sorting
  import opened Rules
  import opened RuleProperties

  /** The record under validation and the messages collected for it. */
  class GameErrors {
    const game: GameRecord
    var errors: seq<Violation>

    constructor (game: GameRecord)
      ensures this.game == game && errors == []
    {
      this.game := game;
      errors := [];
    }

    /** Appends one message. */
    method AddError(v: Violation)
      modifies this
      ensures errors == old(errors) + [v]
    {
      errors := errors + [v];
    }

    function HasErrors(): bool
      reads this
    {
      |errors| > 0
    }

    /** The value `*ge` that `validateGames` copies into its list. */
    function Copy(): ErrorReport
      reads this
    {
      ErrorReport(game, errors)
    }
  }

  /** A copy of a `GameErrors`: the record and its messages. */
  datatype ErrorReport = ErrorReport(game: GameRecord, errors: seq<Violation>)

  /** The checks on phase, scale, players and alliance count
      (business/decode.go:62-78). */
  method CheckHeader(ge: GameErrors)
    modifies ge
    ensures ge.errors == old(ge.errors) + HeaderViolations(ge.game)
  {
    var game := ge.game;
    if game.phase > 3 {
      ge.AddError(PhaseTooHigh);
    }
    if !IsScale(game.scale) {
      ge.AddError(IncorrectScale(game.scale));
    }
    if |game.players| != 2 {
      ge.AddError(PlayerCount);
    }
    if |game.alliances| != 2 {
      ge.AddError(AllianceCount);
    }
  }

  /** The loop over the alliance entries (business/decode.go:80-86). */
  method CheckAllianceEntries(ge: GameErrors)
    modifies ge
    ensures ge.errors == old(ge.errors) + AllianceEntryViolations(ge.game.alliances)
  {
    var alliances := ge.game.alliances;
    ghost var start := ge.errors;
    for i := 0 to |alliances|
      invariant ge.errors == start + AllianceEntryViolations(alliances[..i])
    {
      assert alliances[..i + 1][..i] == alliances[..i];
      if !IsAlliance(alliances[i]) {
        ge.AddError(InvalidAllianceEntry(alliances[i]));
      }
    }
    assert alliances[..|alliances|] == alliances;
  }

  /** The checks on the two alliances, the victor and the size of
      bp_allocation (business/decode.go:88-108). */
  method CheckMatch(ge: GameErrors)
    requires |ge.game.alliances| >= 2
    modifies ge
    ensures ge.errors == old(ge.errors) + MatchViolations(ge.game)
  {
    var game := ge.game;
    ghost var start := ge.errors;
    if game.alliances[0] == game.alliances[1] {
      ge.AddError(SameAlliances);
    }
    ghost var done := if game.alliances[0] == game.alliances[1] then [SameAlliances] else [];
    assert ge.errors == start + done;
    if game.victor == "" {
      ge.AddError(VictorRequired);
    }
    done := Extend(start, done, if game.victor == "" then [VictorRequired] else []);
    assert ge.errors == start + done;
    if !IsVictor(game.victor) {
      ge.AddError(InvalidVictor(game.victor));
    }
    done := Extend(start, done, if IsVictor(game.victor) then [] else [InvalidVictor(game.victor)]);
    assert ge.errors == start + done;
    if game.victor != VictorDraw && game.victor !in game.alliances {
      ge.AddError(VictorNotInGame(game.alliances));
    }
    done := Extend(start, done, if game.victor != VictorDraw && game.victor !in game.alliances
                                then [VictorNotInGame(game.alliances)] else []);
    assert ge.errors == start + done;
    if |game.bpAllocation| != 2 {
      ge.AddError(BPAllocationCount);
    }
    done := Extend(start, done, if |game.bpAllocation| != 2 then [BPAllocationCount] else []);
    assert ge.errors == start + done;
  }


  /** The messages so far followed by those of one more check, regrouped
      after what came before. */
  ghost function Extend(start: seq<Violation>, done: seq<Violation>, part: seq<Violation>): (r: seq<Violation>)
    ensures start + r == start + done + part
  {
    done + part
  }

  /** One iteration of the loop over bp_allocation (business/decode.go:111-119). */
  method CheckBPEntry(ge: GameErrors, alliance: Alliance)
    requires alliance in ge.game.bpAllocation
    modifies ge
    ensures ge.errors == old(ge.errors) + EntryViolations(ge.game, BPSection, alliance)
  {
    var game := ge.game;
    var location := game.bpAllocation[alliance];
    if alliance !in game.alliances {
      ge.AddError(BPAllocationForeignAlliance);
    }
    if !IsLocation(location) {
      ge.AddError(BPAllocationInvalidLocation(alliance, location));
    }
  }

  /** The loop over bp_allocation (business/decode.go:110-120), visiting the
      keys in the order it returns. */
  method CheckBPAllocation(ge: GameErrors) returns (ghost order: seq<Alliance>)
    modifies ge
    ensures Enumerates(order, ge.game.bpAllocation.Keys)
    ensures ge.errors == old(ge.errors) + SectionViolations(ge.game, BPSection, order)
  {
    var game := ge.game;
    ghost var start := ge.errors;
    var remaining := game.bpAllocation.Keys;
    order := [];
    VisitStart(remaining);
    while remaining != {}
      invariant Visiting(order, remaining, game.bpAllocation.Keys)
      invariant ge.errors == start + SectionViolations(game, BPSection, order)
      decreases remaining
    {
      var alliance :| alliance in remaining;
      ghost var done := SectionViolations(game, BPSection, order);
      CheckBPEntry(ge, alliance);
      SectionSnoc(game, BPSection, order, alliance);
      assert ge.errors == start + (done + EntryViolations(game, BPSection, alliance));
      VisitNext(order, remaining, game.bpAllocation.Keys, alliance);
      order := order + [alliance];
      remaining := remaining - {alliance};
    }
    VisitDone(order, game.bpAllocation.Keys);
  }

  /** One iteration of the loop over sap_gain (business/decode.go:123-125). */
  method CheckGainEntry(ge: GameErrors, alliance: Alliance)
    modifies ge
    ensures ge.errors == old(ge.errors) + EntryViolations(ge.game, GainSection, alliance)
  {
    if alliance !in ge.game.alliances {
      ge.AddError(SAPGainForeignAlliance);
    }
  }

  /** The loop over sap_gain (business/decode.go:122-126). */
  method CheckSAPGain(ge: GameErrors) returns (ghost order: seq<Alliance>)
    modifies ge
    ensures Enumerates(order, ge.game.sapGain.Keys)
    ensures ge.errors == old(ge.errors) + SectionViolations(ge.game, GainSection, order)
  {
    var game := ge.game;
    ghost var start := ge.errors;
    var remaining := game.sapGain.Keys;
    order := [];
    VisitStart(remaining);
    while remaining != {}
      invariant Visiting(order, remaining, game.sapGain.Keys)
      invariant ge.errors == start + SectionViolations(game, GainSection, order)
      decreases remaining
    {
      var alliance :| alliance in remaining;
      ghost var done := SectionViolations(game, GainSection, order);
      CheckGainEntry(ge, alliance);
      SectionSnoc(game, GainSection, order, alliance);
      assert ge.errors == start + (done + EntryViolations(game, GainSection, alliance));
      VisitNext(order, remaining, game.sapGain.Keys, alliance);
      order := order + [alliance];
      remaining := remaining - {alliance};
    }
    VisitDone(order, game.sapGain.Keys);
  }

  /** One iteration of the loop over sap_allocation (business/decode.go:131-139),
      which looks the owner up in the sorted sap_gain keys. */
  method CheckSAPEntry(ge: GameErrors, sapGainAlliances: seq<Alliance>, alliance: Alliance)
    requires forall a :: a in sapGainAlliances <==> a in ge.game.sapGain
    requires alliance in ge.game.sapAllocation
    modifies ge
    ensures ge.errors == old(ge.errors) + EntryViolations(ge.game, SAPSection, alliance)
  {
    var game := ge.game;
    var location := game.sapAllocation[alliance];
    if alliance !in sapGainAlliances {
      ge.AddError(SAPAllocationForeignAlliance);
    }
    if !IsLocation(location) {
      ge.AddError(SAPAllocationInvalidLocation(alliance, location));
    }
  }

  /** The loop over sap_allocation (business/decode.go:130-140). */
  method CheckSAPAllocation(ge: GameErrors, sapGainAlliances: seq<Alliance>) returns (ghost order: seq<Alliance>)
    requires forall a :: a in sapGainAlliances <==> a in ge.game.sapGain
    modifies ge
    ensures Enumerates(order, ge.game.sapAllocation.Keys)
    ensures ge.errors == old(ge.errors) + SectionViolations(ge.game, SAPSection, order)
  {
    var game := ge.game;
    ghost var start := ge.errors;
    var remaining := game.sapAllocation.Keys;
    order := [];
    VisitStart(remaining);
    while remaining != {}
      invariant Visiting(order, remaining, game.sapAllocation.Keys)
      invariant ge.errors == start + SectionViolations(game, SAPSection, order)
      decreases remaining
    {
      var alliance :| alliance in remaining;
      ghost var done := SectionViolations(game, SAPSection, order);
      CheckSAPEntry(ge, sapGainAlliances, alliance);
      SectionSnoc(game, SAPSection, order, alliance);
      assert ge.errors == start + (done + EntryViolations(game, SAPSection, alliance));
      VisitNext(order, remaining, game.sapAllocation.Keys, alliance);
      order := order + [alliance];
      remaining := remaining - {alliance};
    }
    VisitDone(order, game.sapAllocation.Keys);
  }

  /** The loop over the sorted sap_gain keys (business/decode.go:142-146). */
  method CheckUnallocated(ge: GameErrors, sapGainAlliances: seq<Alliance>)
    modifies ge
    ensures ge.errors == old(ge.errors) + UnallocatedViolations(ge.game, sapGainAlliances)
  {
    var game := ge.game;
    ghost var start := ge.errors;
    for i := 0 to |sapGainAlliances|
      invariant ge.errors == start + UnallocatedViolations(game, sapGainAlliances[..i])
    {
      assert sapGainAlliances[..i + 1][..i] == sapGainAlliances[..i];
      if sapGainAlliances[i] !in game.sapAllocation {
        ge.AddError(SAPUnallocated(sapGainAlliances[i]));
      }
    }
    assert sapGainAlliances[..|sapGainAlliances|] == sapGainAlliances;
  }

  /** `validateGame`. A null result stands for Go's nil pointer. */
  method ValidateGame(game: GameRecord)
    returns (r: GameErrors?, ghost bpOrder: seq<Alliance>, ghost gainOrder: seq<Alliance>, ghost sapOrder: seq<Alliance>)
    requires |game.alliances| >= 2
    ensures Orders(game, bpOrder, gainOrder, sapOrder)
    ensures r == null <==> ViolationsIn(game, bpOrder, gainOrder, sapOrder) == []
    ensures r != null ==> r.game == game && r.errors == ViolationsIn(game, bpOrder, gainOrder, sapOrder)
    ensures r == null <==> WellFormed(game)
    ensures r != null ==> Reported(r.Copy())
  {
    var ge := new GameErrors(game);
    CheckHeader(ge);
    assert ge.errors == HeaderViolations(game);
    CheckAllianceEntries(ge);
    CheckMatch(ge);
    bpOrder := CheckBPAllocation(ge);
    gainOrder := CheckSAPGain(ge);
    var sapGainAlliances := SortedKeys(game.sapGain.Keys);
    sapOrder := CheckSAPAllocation(ge, sapGainAlliances);
    CheckUnallocated(ge, sapGainAlliances);

    NoViolationsIffWellFormed(game, bpOrder, gainOrder, sapOrder);
    forall v ensures multiset(ge.errors)[v] == Occurrences(game, v) {
      MessageCounts(game, bpOrder, gainOrder, sapOrder, v);
    }
    UnallocatedLast(game, bpOrder, gainOrder, sapOrder);

    if ge.HasErrors() {
      r := ge;
    } else {
      r := null;
    }
  }

  /** A rejected record's errors: at least one message; exactly the
      messages the checks append, in order, for some order of visiting the
      three maps; the "unallocated" messages last, in increasing alliance
      order; and each message as many times as the rules call for it. */
  ghost predicate Reported(report: ErrorReport) {
    && |report.game.alliances| >= 2
    && report.errors != []
    && (exists bpOrder, gainOrder, sapOrder :: Orders(report.game, bpOrder, gainOrder, sapOrder)
          && report.errors == ViolationsIn(report.game, bpOrder, gainOrder, sapOrder))
    && UnallocatedClose(report.errors)
    && forall v :: multiset(report.errors)[v] == Occurrences(report.game, v)
  }

  /** `CampaignErrors`: copies of the errors of the rejected records. */
  type CampaignErrors = seq<ErrorReport>

  /** The records of a batch that pass validation, in input order. */
  function WellFormedGames(games: seq<GameRecord>): seq<GameRecord> {
    if games == [] then []
    else
      var last := games[|games| - 1];
      WellFormedGames(games[..|games| - 1]) + (if WellFormed(last) then [last] else [])
  }

  /** The records of a batch that fail validation, in input order. */
  function IllFormedGames(games: seq<GameRecord>): seq<GameRecord> {
    if games == [] then []
    else
      var last := games[|games| - 1];
      IllFormedGames(games[..|games| - 1]) + (if WellFormed(last) then [] else [last])
  }

  /** Every record of a batch lands in exactly one of the two lists. */
  lemma {:induction false} BatchPartition(games: seq<GameRecord>)
    ensures multiset(WellFormedGames(games)) + multiset(IllFormedGames(games)) == multiset(games)
    ensures |WellFormedGames(games)| + |IllFormedGames(games)| == |games|
  {
    if games != [] {
      var init := games[..|games| - 1];
      var last := games[|games| - 1];
      assert games == init + [last];
      BatchPartition(init);
    }
  }

  /** A record is among the valid ones exactly when it is in the batch and
      passes validation, and among the rejected ones exactly when it is in
      the batch and fails. */
  lemma {:induction false} BatchMembership(games: seq<GameRecord>, g: GameRecord)
    ensures g in WellFormedGames(games) <==> g in games && WellFormed(g)
    ensures g in IllFormedGames(games) <==> g in games && !WellFormed(g)
  {
    if games != [] {
      var init := games[..|games| - 1];
      var last := games[|games| - 1];
      assert games == init + [last];
      BatchMembership(init, g);
    }
  }

  /** Both lists keep input order: splitting a batch in two and joining
      the results gives the results of the whole batch. */
  lemma {:induction false} ValidAppend(s: seq<GameRecord>, t: seq<GameRecord>)
    ensures WellFormedGames(s + t) == WellFormedGames(s) + WellFormedGames(t)
    decreases |t|
  {
    if t == [] {
      assert s + t == s;
    } else {
      var init := t[..|t| - 1];
      var last := t[|t| - 1];
      assert (s + t)[..|s + t| - 1] == s + init && (s + t)[|s + t| - 1] == last;
      ValidAppend(s, init);
      var tail := if WellFormed(last) then [last] else [];
      assert WellFormedGames(s + t) == WellFormedGames(s + init) + tail;
      assert WellFormedGames(t) == WellFormedGames(init) + tail;
    }
  }

  lemma {:induction false} RejectedAppend(s: seq<GameRecord>, t: seq<GameRecord>)
    ensures IllFormedGames(s + t) == IllFormedGames(s) + IllFormedGames(t)
    decreases |t|
  {
    if t == [] {
      assert s + t == s;
    } else {
      var init := t[..|t| - 1];
      var last := t[|t| - 1];
      assert (s + t)[..|s + t| - 1] == s + init && (s + t)[|s + t| - 1] == last;
      RejectedAppend(s, init);
      var tail := if WellFormed(last) then [] else [last];
      assert IllFormedGames(s + t) == IllFormedGames(s + init) + tail;
      assert IllFormedGames(t) == IllFormedGames(init) + tail;
    }
  }

  /** One more record extends exactly one of the two filters. */
  lemma FilterSnoc(games: seq<GameRecord>, i: int)
    requires 0 <= i < |games|
    ensures WellFormedGames(games[..i + 1]) == WellFormedGames(games[..i]) + (if WellFormed(games[i]) then [games[i]] else [])
    ensures IllFormedGames(games[..i + 1]) == IllFormedGames(games[..i]) + (if WellFormed(games[i]) then [] else [games[i]])
  {
    assert games[..i + 1][..i] == games[..i];
  }

  /** `reports` holds one report per record of `rejected`, in order. */
  ghost predicate ReportsOf(reports: CampaignErrors, rejected: seq<GameRecord>) {
    && |reports| == |rejected|
    && forall k :: 0 <= k < |reports| ==> reports[k].game == rejected[k] && Reported(reports[k])
  }

  lemma ReportsSnoc(reports: CampaignErrors, rejected: seq<GameRecord>, report: ErrorReport)
    requires ReportsOf(reports, rejected) && Reported(report)
    ensures ReportsOf(reports + [report], rejected + [report.game])
  {
  }

  /** `validateGames`. `None` stands for the nil error. */
  method ValidateGames(games: seq<GameRecord>) returns (validGames: seq<GameRecord>, err: Option<CampaignErrors>)
    requires forall g :: g in games ==> |g.alliances| >= 2
    ensures validGames == WellFormedGames(games)
    ensures err.None? <==> IllFormedGames(games) == []
    ensures err.Some? ==> |err.value| == |IllFormedGames(games)|
    ensures err.Some? ==> forall k :: 0 <= k < |err.value| ==>
      err.value[k].game == IllFormedGames(games)[k] && Reported(err.value[k])
  {
    validGames := [];
    var ce: CampaignErrors := [];
    for i := 0 to |games|
      invariant validGames == WellFormedGames(games[..i])
      invariant ReportsOf(ce, IllFormedGames(games[..i]))
    {
      FilterSnoc(games, i);
      var ge, _, _, _ := ValidateGame(games[i]);
      if ge != null {
        ReportsSnoc(ce, IllFormedGames(games[..i]), ge.Copy());
        ce := ce + [ge.Copy()];
      } else {
        validGames := validGames + [games[i]];
      }
    }
    assert games[..|games|] == games;
    if |ce| > 0 {
      err := Some(ce);
    } else {
      err := None;
    }
  }
}
