/** What the messages of `validateGame` say about a record, for every order
    in which the program's map loops may visit their keys. */
module RuleProperties {
  import opened Model
  import opened Sorting
  import opened Rules

  /** The preconditions of `ViolationsIn`. */
  ghost predicate Orders(game: GameRecord, bpOrder: seq<Alliance>, gainOrder: seq<Alliance>, sapOrder: seq<Alliance>) {
    && |game.alliances| >= 2
    && Enumerates(bpOrder, game.bpAllocation.Keys)
    && Enumerates(gainOrder, game.sapGain.Keys)
    && Enumerates(sapOrder, game.sapAllocation.Keys)
  }

  // ----- No message exactly when the record obeys every rule -----

  lemma {:induction false} AllianceEntriesAccepted(alliances: seq<Alliance>)
    ensures AllianceEntryViolations(alliances) == [] <==> forall i :: 0 <= i < |alliances| ==> IsAlliance(alliances[i])
  {
    if alliances != [] {
      var init := alliances[..|alliances| - 1];
      AllianceEntriesAccepted(init);
      assert forall i :: 0 <= i < |init| ==> init[i] == alliances[i];
    }
  }

  lemma {:induction false} SectionAccepted(game: GameRecord, section: Section, order: seq<Alliance>)
    ensures SectionViolations(game, section, order) == []
        <==> forall a :: a in order ==> EntryViolations(game, section, a) == []
  {
    if order != [] {
      var init := order[..|order| - 1];
      SectionAccepted(game, section, init);
      assert order == init + [order[|order| - 1]];
    }
  }

  lemma {:induction false} UnallocatedAccepted(game: GameRecord, gainAlliances: seq<Alliance>)
    ensures UnallocatedViolations(game, gainAlliances) == []
        <==> forall a :: a in gainAlliances ==> a in game.sapAllocation
  {
    if gainAlliances != [] {
      var init := gainAlliances[..|gainAlliances| - 1];
      UnallocatedAccepted(game, init);
      assert gainAlliances == init + [gainAlliances[|gainAlliances| - 1]];
    }
  }

  lemma BPSectionAccepted(game: GameRecord, order: seq<Alliance>)
    requires Enumerates(order, game.bpAllocation.Keys)
    ensures SectionViolations(game, BPSection, order) == []
        <==> BPAllocationValid(game)
  {
    SectionAccepted(game, BPSection, order);
  }

  lemma GainSectionAccepted(game: GameRecord, order: seq<Alliance>)
    requires Enumerates(order, game.sapGain.Keys)
    ensures SectionViolations(game, GainSection, order) == []
        <==> SAPGainValid(game)
  {
    SectionAccepted(game, GainSection, order);
  }

  lemma SAPSectionAccepted(game: GameRecord, order: seq<Alliance>)
    requires Enumerates(order, game.sapAllocation.Keys)
    ensures SectionViolations(game, SAPSection, order) == []
        <==> SAPAllocationValid(game)
  {
    SectionAccepted(game, SAPSection, order);
  }

  lemma UnallocatedSortedAccepted(game: GameRecord)
    ensures UnallocatedViolations(game, SortedKeys(game.sapGain.Keys)) == [] <==> SAPGainAllocated(game)
  {
    UnallocatedAccepted(game, SortedKeys(game.sapGain.Keys));
  }

  lemma FieldChecksAccepted(game: GameRecord)
    requires |game.alliances| >= 2
    ensures HeaderViolations(game) == [] && AllianceEntryViolations(game.alliances) == [] && MatchViolations(game) == []
        <==> FieldsWellFormed(game)
  {
    AllianceEntriesAccepted(game.alliances);
  }

  lemma MapChecksAccepted(game: GameRecord, bpOrder: seq<Alliance>, gainOrder: seq<Alliance>, sapOrder: seq<Alliance>)
    requires Orders(game, bpOrder, gainOrder, sapOrder)
    ensures SectionViolations(game, BPSection, bpOrder) == [] && SectionViolations(game, GainSection, gainOrder) == []
            && SectionViolations(game, SAPSection, sapOrder) == [] && UnallocatedViolations(game, SortedKeys(game.sapGain.Keys)) == []
        <==> MapsWellFormed(game)
  {
    BPSectionAccepted(game, bpOrder);
    GainSectionAccepted(game, gainOrder);
    SAPSectionAccepted(game, sapOrder);
    UnallocatedSortedAccepted(game);
  }

  lemma ViolationsEmpty(game: GameRecord, bpOrder: seq<Alliance>, gainOrder: seq<Alliance>, sapOrder: seq<Alliance>)
    requires Orders(game, bpOrder, gainOrder, sapOrder)
    ensures ViolationsIn(game, bpOrder, gainOrder, sapOrder) == []
        <==> && HeaderViolations(game) == [] && AllianceEntryViolations(game.alliances) == [] && MatchViolations(game) == []
             && SectionViolations(game, BPSection, bpOrder) == [] && SectionViolations(game, GainSection, gainOrder) == []
             && SectionViolations(game, SAPSection, sapOrder) == [] && UnallocatedViolations(game, SortedKeys(game.sapGain.Keys)) == []
  {
    assert |ViolationsIn(game, bpOrder, gainOrder, sapOrder)|
        == |HeaderViolations(game)| + |AllianceEntryViolations(game.alliances)| + |MatchViolations(game)|
         + |SectionViolations(game, BPSection, bpOrder)| + |SectionViolations(game, GainSection, gainOrder)|
         + |SectionViolations(game, SAPSection, sapOrder)| + |UnallocatedViolations(game, SortedKeys(game.sapGain.Keys))|;
  }

  /** `validateGame` appends nothing exactly when the record is well formed. */
  lemma NoViolationsIffWellFormed(game: GameRecord, bpOrder: seq<Alliance>, gainOrder: seq<Alliance>, sapOrder: seq<Alliance>)
    requires Orders(game, bpOrder, gainOrder, sapOrder)
    ensures ViolationsIn(game, bpOrder, gainOrder, sapOrder) == [] <==> WellFormed(game)
  {
    FieldChecksAccepted(game);
    MapChecksAccepted(game, bpOrder, gainOrder, sapOrder);
    ViolationsEmpty(game, bpOrder, gainOrder, sapOrder);
  }

  // ----- The messages do not depend on the map iteration order -----

  lemma SectionSnoc(game: GameRecord, section: Section, order: seq<Alliance>, a: Alliance)
    ensures SectionViolations(game, section, order + [a])
         == SectionViolations(game, section, order) + EntryViolations(game, section, a)
  {
    assert (order + [a])[..|order|] == order;
  }

  /** Removing an element before the last keeps the last element last. */
  lemma RemoveBeforeLast(order: seq<Alliance>, i: nat)
    requires i < |order| - 1
    ensures var rest := order[..i] + order[i + 1..];
            var init := order[..|order| - 1];
            rest != [] && rest[..|rest| - 1] == init[..i] + init[i + 1..] && rest[|rest| - 1] == order[|order| - 1]
  {
    var rest := order[..i] + order[i + 1..];
    var init := order[..|order| - 1];
    assert rest[..|rest| - 1] == init[..i] + init[i + 1..];
  }

  lemma Rearrange(whole: multiset<Violation>, init: multiset<Violation>, rest: multiset<Violation>,
                  common: multiset<Violation>, moved: multiset<Violation>, last: multiset<Violation>)
    requires whole == init + last && init == common + moved && rest == common + last
    ensures whole == rest + moved
  {
  }

  /** The messages of a loop over `order` whose iteration for key `a`
      appends `entry(a)`; `SectionViolations` is one such loop. */
  function Joined(entry: Alliance -> seq<Violation>, order: seq<Alliance>): seq<Violation> {
    if order == [] then []
    else Joined(entry, order[..|order| - 1]) + entry(order[|order| - 1])
  }

  lemma {:induction false} SectionJoined(game: GameRecord, section: Section, order: seq<Alliance>)
    ensures SectionViolations(game, section, order) == Joined(a => EntryViolations(game, section, a), order)
  {
    if order != [] {
      SectionJoined(game, section, order[..|order| - 1]);
    }
  }

  lemma {:induction false} JoinedMoveToEnd(entry: Alliance -> seq<Violation>, order: seq<Alliance>, i: nat)
    requires i < |order|
    ensures multiset(Joined(entry, order))
         == multiset(Joined(entry, order[..i] + order[i + 1..])) + multiset(entry(order[i]))
  {
    var n := |order|;
    var rest := order[..i] + order[i + 1..];
    var init := order[..n - 1];
    var lastPart := entry(order[n - 1]);
    if i < n - 1 {
      RemoveBeforeLast(order, i);
      JoinedMoveToEnd(entry, init, i);
      Rearrange(multiset(Joined(entry, order)),
                multiset(Joined(entry, init)),
                multiset(Joined(entry, rest)),
                multiset(Joined(entry, init[..i] + init[i + 1..])),
                multiset(entry(order[i])),
                multiset(lastPart));
    } else {
      assert rest == init;
    }
  }

  /** Taking the last key off one enumeration and the same key out of
      another leaves two enumerations of the same keys. */
  lemma RemoveMatching(order: seq<Alliance>, order': seq<Alliance>, i: nat)
    requires forall a :: a in order <==> a in order'
    requires Distinct(order) && Distinct(order')
    requires order != [] && i < |order'| && order'[i] == order[|order| - 1]
    ensures var init := order[..|order| - 1];
            var rest := order'[..i] + order'[i + 1..];
            && (forall a :: a in init <==> a in rest)
            && Distinct(init) && Distinct(rest)
  {
    var n := |order|;
    var init := order[..n - 1];
    var last := order[n - 1];
    var rest := order'[..i] + order'[i + 1..];
    assert forall k :: 0 <= k < |rest| ==> rest[k] == (if k < i then order'[k] else order'[k + 1]);
    forall a ensures a in init <==> a in rest {
      if a in init {
        var k :| 0 <= k < n - 1 && init[k] == a;
        assert a in order' && a != last;
        var k' :| 0 <= k' < |order'| && order'[k'] == a;
        assert k' != i;
        if k' < i { assert rest[k'] == a; } else { assert rest[k' - 1] == a; }
      }
      if a in rest {
        var k :| 0 <= k < |rest| && rest[k] == a;
        assert a in order && a != last;
        var k' :| 0 <= k' < n && order[k'] == a;
        assert k' != n - 1 && init[k'] == a;
      }
    }
  }

  lemma {:induction false} JoinedOrderIndependent(entry: Alliance -> seq<Violation>, order: seq<Alliance>, order': seq<Alliance>)
    requires forall a :: a in order <==> a in order'
    requires Distinct(order) && Distinct(order')
    ensures multiset(Joined(entry, order)) == multiset(Joined(entry, order'))
    decreases |order|
  {
    if order == [] {
      ElementOf(order', 0);
    } else {
      var n := |order|;
      var init := order[..n - 1];
      var last := order[n - 1];
      assert last in order';
      var i :| 0 <= i < |order'| && order'[i] == last;
      var rest := order'[..i] + order'[i + 1..];
      RemoveMatching(order, order', i);
      JoinedOrderIndependent(entry, init, rest);
      JoinedMoveToEnd(entry, order', i);
    }
  }

  /** A section's loop appends the same messages, the same number of
      times each, whatever order it visits the keys in. */
  lemma SectionOrderIndependent(game: GameRecord, section: Section, order: seq<Alliance>, order': seq<Alliance>)
    requires forall a :: a in order <==> a in order'
    requires Distinct(order) && Distinct(order')
    ensures multiset(SectionViolations(game, section, order)) == multiset(SectionViolations(game, section, order'))
  {
    SectionJoined(game, section, order);
    SectionJoined(game, section, order');
    JoinedOrderIndependent(a => EntryViolations(game, section, a), order, order');
  }

  /** Whatever order the three map loops take, the same messages are
      appended, the same number of times each. */
  lemma ViolationsOrderIndependent(game: GameRecord,
                                   bpOrder: seq<Alliance>, gainOrder: seq<Alliance>, sapOrder: seq<Alliance>,
                                   bpOrder': seq<Alliance>, gainOrder': seq<Alliance>, sapOrder': seq<Alliance>)
    requires Orders(game, bpOrder, gainOrder, sapOrder)
    requires Orders(game, bpOrder', gainOrder', sapOrder')
    ensures multiset(ViolationsIn(game, bpOrder, gainOrder, sapOrder))
         == multiset(ViolationsIn(game, bpOrder', gainOrder', sapOrder'))
  {
    SectionOrderIndependent(game, BPSection, bpOrder, bpOrder');
    SectionOrderIndependent(game, GainSection, gainOrder, gainOrder');
    SectionOrderIndependent(game, SAPSection, sapOrder, sapOrder');
  }

  // ----- Which messages, how many times each -----

  /** The group of checks that can produce a message. */
  datatype Check = HeaderChecks | EntryChecks | MatchChecks | LoopChecks(section: Section) | UnallocatedChecks

  function CheckOf(v: Violation): Check {
    match v
    case PhaseTooHigh => HeaderChecks
    case IncorrectScale(_) => HeaderChecks
    case PlayerCount => HeaderChecks
    case AllianceCount => HeaderChecks
    case InvalidAllianceEntry(_) => EntryChecks
    case SameAlliances => MatchChecks
    case VictorRequired => MatchChecks
    case InvalidVictor(_) => MatchChecks
    case VictorNotInGame(_) => MatchChecks
    case BPAllocationCount => MatchChecks
    case BPAllocationForeignAlliance => LoopChecks(BPSection)
    case BPAllocationInvalidLocation(_, _) => LoopChecks(BPSection)
    case SAPGainForeignAlliance => LoopChecks(GainSection)
    case SAPAllocationForeignAlliance => LoopChecks(SAPSection)
    case SAPAllocationInvalidLocation(_, _) => LoopChecks(SAPSection)
    case SAPUnallocated(_) => UnallocatedChecks
  }

  lemma InSectionCheck(v: Violation, section: Section)
    ensures InSection(v, section) <==> CheckOf(v) == LoopChecks(section)
  {
  }

  lemma Absent(s: seq<Violation>, v: Violation)
    requires v !in s
    ensures multiset(s)[v] == 0
  {
  }

  lemma HeaderOnly(game: GameRecord, v: Violation)
    ensures CheckOf(v) != HeaderChecks ==> multiset(HeaderViolations(game))[v] == 0
  {
    if CheckOf(v) != HeaderChecks {
      Absent(HeaderViolations(game), v);
    }
  }

  lemma EntryOnly(alliances: seq<Alliance>, v: Violation)
    ensures CheckOf(v) != EntryChecks ==> multiset(AllianceEntryViolations(alliances))[v] == 0
  {
    if CheckOf(v) != EntryChecks {
      Absent(AllianceEntryViolations(alliances), v);
    }
  }

  lemma MatchOnly(game: GameRecord, v: Violation)
    requires |game.alliances| >= 2
    ensures CheckOf(v) != MatchChecks ==> multiset(MatchViolations(game))[v] == 0
  {
    if CheckOf(v) != MatchChecks {
      Absent(MatchViolations(game), v);
    }
  }

  lemma SectionOnly(game: GameRecord, section: Section, order: seq<Alliance>, v: Violation)
    ensures CheckOf(v) != LoopChecks(section) ==> multiset(SectionViolations(game, section, order))[v] == 0
  {
    if CheckOf(v) != LoopChecks(section) {
      InSectionCheck(v, section);
      Absent(SectionViolations(game, section, order), v);
    }
  }

  lemma UnallocatedOnly(game: GameRecord, gainAlliances: seq<Alliance>, v: Violation)
    ensures CheckOf(v) != UnallocatedChecks ==> multiset(UnallocatedViolations(game, gainAlliances))[v] == 0
  {
    if CheckOf(v) != UnallocatedChecks {
      Absent(UnallocatedViolations(game, gainAlliances), v);
    }
  }

  /** The count of one message is the sum of its counts in each group of
      checks, and only its own group can produce it. */
  lemma CountParts(game: GameRecord, bpOrder: seq<Alliance>, gainOrder: seq<Alliance>, sapOrder: seq<Alliance>, v: Violation)
    requires Orders(game, bpOrder, gainOrder, sapOrder)
    ensures multiset(ViolationsIn(game, bpOrder, gainOrder, sapOrder))[v]
         == multiset(HeaderViolations(game))[v]
          + multiset(AllianceEntryViolations(game.alliances))[v]
          + multiset(MatchViolations(game))[v]
          + multiset(SectionViolations(game, BPSection, bpOrder))[v]
          + multiset(SectionViolations(game, GainSection, gainOrder))[v]
          + multiset(SectionViolations(game, SAPSection, sapOrder))[v]
          + multiset(UnallocatedViolations(game, SortedKeys(game.sapGain.Keys)))[v]
    ensures CheckOf(v) != HeaderChecks ==> multiset(HeaderViolations(game))[v] == 0
    ensures CheckOf(v) != EntryChecks ==> multiset(AllianceEntryViolations(game.alliances))[v] == 0
    ensures CheckOf(v) != MatchChecks ==> multiset(MatchViolations(game))[v] == 0
    ensures CheckOf(v) != LoopChecks(BPSection) ==> multiset(SectionViolations(game, BPSection, bpOrder))[v] == 0
    ensures CheckOf(v) != LoopChecks(GainSection) ==> multiset(SectionViolations(game, GainSection, gainOrder))[v] == 0
    ensures CheckOf(v) != LoopChecks(SAPSection) ==> multiset(SectionViolations(game, SAPSection, sapOrder))[v] == 0
    ensures CheckOf(v) != UnallocatedChecks ==> multiset(UnallocatedViolations(game, SortedKeys(game.sapGain.Keys)))[v] == 0
  {
    HeaderOnly(game, v);
    EntryOnly(game.alliances, v);
    MatchOnly(game, v);
    SectionOnly(game, BPSection, bpOrder, v);
    SectionOnly(game, GainSection, gainOrder, v);
    SectionOnly(game, SAPSection, sapOrder, v);
    UnallocatedOnly(game, SortedKeys(game.sapGain.Keys), v);
  }

  /** How many times `validateGame` appends each message, stated directly
      on the record. */
  ghost function Occurrences(game: GameRecord, v: Violation): nat
    requires |game.alliances| >= 2
  {
    match v
    case PhaseTooHigh => if game.phase > 3 then 1 else 0
    case IncorrectScale(scale) => if scale == game.scale && !IsScale(scale) then 1 else 0
    case PlayerCount => if |game.players| != 2 then 1 else 0
    case AllianceCount => if |game.alliances| != 2 then 1 else 0
    case InvalidAllianceEntry(a) => if IsAlliance(a) then 0 else multiset(game.alliances)[a]
    case SameAlliances => if game.alliances[0] == game.alliances[1] then 1 else 0
    case VictorRequired => if game.victor == "" then 1 else 0
    case InvalidVictor(victor) => if victor == game.victor && !IsVictor(victor) then 1 else 0
    case VictorNotInGame(alliances) =>
      if alliances == game.alliances && game.victor != VictorDraw && game.victor !in game.alliances then 1 else 0
    case BPAllocationCount => if |game.bpAllocation| != 2 then 1 else 0
    case BPAllocationForeignAlliance => |ForeignKeys(game, BPSection)|
    case BPAllocationInvalidLocation(a, l) =>
      if a in game.bpAllocation && game.bpAllocation[a] == l && !IsLocation(l) then 1 else 0
    case SAPGainForeignAlliance => |ForeignKeys(game, GainSection)|
    case SAPAllocationForeignAlliance => |ForeignKeys(game, SAPSection)|
    case SAPAllocationInvalidLocation(a, l) =>
      if a in game.sapAllocation && game.sapAllocation[a] == l && !IsLocation(l) then 1 else 0
    case SAPUnallocated(a) => if a in game.sapGain && a !in game.sapAllocation then 1 else 0
  }

  /** The keys of a section's map that its loop reports as not belonging:
      a bp_allocation or sap_gain key that is not an alliance of the game,
      a sap_allocation key that is not a sap_gain key. */
  ghost function ForeignKeys(game: GameRecord, section: Section): set<Alliance> {
    set a | a in SectionKeys(game, section) && !Allowed(game, section, a)
  }

  lemma HeaderCount(game: GameRecord, v: Violation)
    requires |game.alliances| >= 2 && CheckOf(v) == HeaderChecks
    ensures multiset(HeaderViolations(game))[v] == Occurrences(game, v)
  {
    match v {
      case PhaseTooHigh =>
        PhaseTooHighCount(game);
        HeaderOccurrences(game, game.scale);
      case IncorrectScale(scale) =>
        IncorrectScaleCount(game, scale);
        HeaderOccurrences(game, scale);
      case PlayerCount =>
        PlayerCountCount(game);
        HeaderOccurrences(game, game.scale);
      case AllianceCount =>
        AllianceCountCount(game);
        HeaderOccurrences(game, game.scale);
    }
  }

  lemma PhaseTooHighCount(game: GameRecord)
    ensures multiset(HeaderViolations(game))[PhaseTooHigh] == if game.phase > 3 then 1 else 0
  {
  }

  lemma IncorrectScaleCount(game: GameRecord, scale: Scale)
    ensures multiset(HeaderViolations(game))[IncorrectScale(scale)]
         == if scale == game.scale && !IsScale(scale) then 1 else 0
  {
  }

  lemma PlayerCountCount(game: GameRecord)
    ensures multiset(HeaderViolations(game))[PlayerCount] == if |game.players| != 2 then 1 else 0
  {
  }

  lemma AllianceCountCount(game: GameRecord)
    ensures multiset(HeaderViolations(game))[AllianceCount] == if |game.alliances| != 2 then 1 else 0
  {
  }

  lemma HeaderOccurrences(game: GameRecord, scale: Scale)
    requires |game.alliances| >= 2
    ensures Occurrences(game, PhaseTooHigh) == if game.phase > 3 then 1 else 0
    ensures Occurrences(game, IncorrectScale(scale)) == if scale == game.scale && !IsScale(scale) then 1 else 0
    ensures Occurrences(game, PlayerCount) == if |game.players| != 2 then 1 else 0
    ensures Occurrences(game, AllianceCount) == if |game.alliances| != 2 then 1 else 0
  {
  }

  lemma {:induction false} AllianceEntryCount(alliances: seq<Alliance>, a: Alliance)
    ensures multiset(AllianceEntryViolations(alliances))[InvalidAllianceEntry(a)]
         == if IsAlliance(a) then 0 else multiset(alliances)[a]
  {
    if alliances != [] {
      var init := alliances[..|alliances| - 1];
      var last := alliances[|alliances| - 1];
      assert alliances == init + [last];
      AllianceEntryCount(init, a);
      var ev := AllianceEntryViolations(init);
      var lv := if IsAlliance(last) then [] else [InvalidAllianceEntry(last)];
      assert multiset(ev + lv) == multiset(ev) + multiset(lv);
    }
  }

  lemma EntryCount(game: GameRecord, v: Violation)
    requires |game.alliances| >= 2 && CheckOf(v) == EntryChecks
    ensures multiset(AllianceEntryViolations(game.alliances))[v] == Occurrences(game, v)
  {
    AllianceEntryCount(game.alliances, v.alliance);
  }

  lemma MatchCount(game: GameRecord, v: Violation)
    requires |game.alliances| >= 2 && CheckOf(v) == MatchChecks
    ensures multiset(MatchViolations(game))[v] == Occurrences(game, v)
  {
    match v {
      case SameAlliances =>
        SameAlliancesCount(game);
        MatchOccurrences(game, game.victor, game.alliances);
      case VictorRequired =>
        VictorRequiredCount(game);
        MatchOccurrences(game, game.victor, game.alliances);
      case InvalidVictor(victor) =>
        InvalidVictorCount(game, victor);
        MatchOccurrences(game, victor, game.alliances);
      case VictorNotInGame(alliances) =>
        VictorNotInGameCount(game, alliances);
        MatchOccurrences(game, game.victor, alliances);
      case BPAllocationCount =>
        BPAllocationCountCount(game);
        MatchOccurrences(game, game.victor, game.alliances);
    }
  }

  lemma SameAlliancesCount(game: GameRecord)
    requires |game.alliances| >= 2
    ensures multiset(MatchViolations(game))[SameAlliances]
         == if game.alliances[0] == game.alliances[1] then 1 else 0
  {
  }

  lemma VictorRequiredCount(game: GameRecord)
    requires |game.alliances| >= 2
    ensures multiset(MatchViolations(game))[VictorRequired] == if game.victor == "" then 1 else 0
  {
  }

  lemma InvalidVictorCount(game: GameRecord, victor: Victor)
    requires |game.alliances| >= 2
    ensures multiset(MatchViolations(game))[InvalidVictor(victor)]
         == if victor == game.victor && !IsVictor(victor) then 1 else 0
  {
  }

  lemma VictorNotInGameCount(game: GameRecord, alliances: seq<Alliance>)
    requires |game.alliances| >= 2
    ensures multiset(MatchViolations(game))[VictorNotInGame(alliances)]
         == if alliances == game.alliances && game.victor != VictorDraw && game.victor !in game.alliances then 1 else 0
  {
  }

  lemma BPAllocationCountCount(game: GameRecord)
    requires |game.alliances| >= 2
    ensures multiset(MatchViolations(game))[BPAllocationCount] == if |game.bpAllocation| != 2 then 1 else 0
  {
  }

  lemma MatchOccurrences(game: GameRecord, victor: Victor, alliances: seq<Alliance>)
    requires |game.alliances| >= 2
    ensures Occurrences(game, SameAlliances) == if game.alliances[0] == game.alliances[1] then 1 else 0
    ensures Occurrences(game, VictorRequired) == if game.victor == "" then 1 else 0
    ensures Occurrences(game, InvalidVictor(victor)) == if victor == game.victor && !IsVictor(victor) then 1 else 0
    ensures Occurrences(game, VictorNotInGame(alliances))
         == if alliances == game.alliances && game.victor != VictorDraw && game.victor !in game.alliances then 1 else 0
    ensures Occurrences(game, BPAllocationCount) == if |game.bpAllocation| != 2 then 1 else 0
  {
  }

  lemma EntryForeignCount(game: GameRecord, section: Section, a: Alliance)
    ensures multiset(EntryViolations(game, section, a))[ForeignMessage(section)] == if Allowed(game, section, a) then 0 else 1
  {
  }

  lemma ForeignSetSnoc(game: GameRecord, section: Section, init: seq<Alliance>, last: Alliance)
    requires last !in init
    ensures |set a | a in init + [last] && !Allowed(game, section, a)|
         == |set a | a in init && !Allowed(game, section, a)| + if Allowed(game, section, last) then 0 else 1
  {
    var before := set a | a in init && !Allowed(game, section, a);
    var after := set a | a in init + [last] && !Allowed(game, section, a);
    if Allowed(game, section, last) {
      assert after == before;
    } else {
      assert after == before + {last};
    }
  }

  lemma {:induction false} ForeignCount(game: GameRecord, section: Section, order: seq<Alliance>)
    requires Distinct(order)
    ensures multiset(SectionViolations(game, section, order))[ForeignMessage(section)]
         == |set a | a in order && !Allowed(game, section, a)|
  {
    if order != [] {
      var init := order[..|order| - 1];
      var last := order[|order| - 1];
      assert order == init + [last];
      DistinctInit(order);
      ForeignCount(game, section, init);
      SectionSnoc(game, section, init, last);
      EntryForeignCount(game, section, last);
      ForeignSetSnoc(game, section, init, last);
      var sv := SectionViolations(game, section, init);
      var ev := EntryViolations(game, section, last);
      assert multiset(sv + ev) == multiset(sv) + multiset(ev);
    }
  }

  lemma {:induction false} KeyedCount(game: GameRecord, section: Section, order: seq<Alliance>, v: Violation)
    requires Distinct(order)
    requires v.BPAllocationInvalidLocation? || v.SAPAllocationInvalidLocation?
    ensures multiset(SectionViolations(game, section, order))[v]
         == if v.alliance in order then multiset(EntryViolations(game, section, v.alliance))[v] else 0
  {
    if order != [] {
      var init := order[..|order| - 1];
      var last := order[|order| - 1];
      assert order == init + [last];
      DistinctInit(order);
      KeyedCount(game, section, init, v);
      SectionSnoc(game, section, init, last);
      var sv := SectionViolations(game, section, init);
      var ev := EntryViolations(game, section, last);
      assert multiset(sv + ev) == multiset(sv) + multiset(ev);
      if last != v.alliance {
        Absent(ev, v);
      }
    }
  }

  lemma EntryLocationCount(game: GameRecord, section: Section, a: Alliance, v: Violation)
    requires |game.alliances| >= 2
    requires v.BPAllocationInvalidLocation? || v.SAPAllocationInvalidLocation?
    requires CheckOf(v) == LoopChecks(section) && v.alliance == a
    requires a in SectionKeys(game, section)
    ensures multiset(EntryViolations(game, section, a))[v] == Occurrences(game, v)
  {
    LocationOccurrences(game, a, v.location);
    if v.BPAllocationInvalidLocation? {
      assert section == BPSection;
      BPLocationCount(game, a, v.location);
    } else {
      assert section == SAPSection;
      SAPLocationCount(game, a, v.location);
    }
  }

  lemma BPLocationCount(game: GameRecord, a: Alliance, l: Location)
    requires a in game.bpAllocation
    ensures multiset(EntryViolations(game, BPSection, a))[BPAllocationInvalidLocation(a, l)]
         == if game.bpAllocation[a] == l && !IsLocation(l) then 1 else 0
  {
  }

  lemma SAPLocationCount(game: GameRecord, a: Alliance, l: Location)
    requires a in game.sapAllocation
    ensures multiset(EntryViolations(game, SAPSection, a))[SAPAllocationInvalidLocation(a, l)]
         == if game.sapAllocation[a] == l && !IsLocation(l) then 1 else 0
  {
  }

  lemma LocationOccurrences(game: GameRecord, a: Alliance, l: Location)
    requires |game.alliances| >= 2
    ensures Occurrences(game, BPAllocationInvalidLocation(a, l))
         == if a in game.bpAllocation && game.bpAllocation[a] == l && !IsLocation(l) then 1 else 0
    ensures Occurrences(game, SAPAllocationInvalidLocation(a, l))
         == if a in game.sapAllocation && game.sapAllocation[a] == l && !IsLocation(l) then 1 else 0
  {
  }

  lemma SectionCount(game: GameRecord, section: Section, order: seq<Alliance>, v: Violation)
    requires |game.alliances| >= 2 && CheckOf(v) == LoopChecks(section)
    requires Enumerates(order, SectionKeys(game, section))
    ensures multiset(SectionViolations(game, section, order))[v] == Occurrences(game, v)
  {
    if v.BPAllocationInvalidLocation? || v.SAPAllocationInvalidLocation? {
      SectionLocationCount(game, section, order, v);
    } else {
      SectionForeignCount(game, section, order);
    }
  }

  lemma SectionLocationCount(game: GameRecord, section: Section, order: seq<Alliance>, v: Violation)
    requires |game.alliances| >= 2 && CheckOf(v) == LoopChecks(section)
    requires v.BPAllocationInvalidLocation? || v.SAPAllocationInvalidLocation?
    requires Enumerates(order, SectionKeys(game, section))
    ensures multiset(SectionViolations(game, section, order))[v] == Occurrences(game, v)
  {
    KeyedCount(game, section, order, v);
    if v.alliance in order {
      EntryLocationCount(game, section, v.alliance, v);
    }
  }

  lemma SectionForeignCount(game: GameRecord, section: Section, order: seq<Alliance>)
    requires |game.alliances| >= 2
    requires Enumerates(order, SectionKeys(game, section))
    ensures multiset(SectionViolations(game, section, order))[ForeignMessage(section)]
         == Occurrences(game, ForeignMessage(section))
  {
    ForeignCount(game, section, order);
    VisitedForeign(game, section, order);
    ForeignOccurrences(game, section);
  }

  lemma VisitedForeign(game: GameRecord, section: Section, order: seq<Alliance>)
    requires Enumerates(order, SectionKeys(game, section))
    ensures (set a | a in order && !Allowed(game, section, a)) == ForeignKeys(game, section)
  {
  }

  lemma ForeignOccurrences(game: GameRecord, section: Section)
    requires |game.alliances| >= 2
    ensures Occurrences(game, ForeignMessage(section)) == |ForeignKeys(game, section)|
  {
  }

  lemma {:induction false} UnallocatedCount(game: GameRecord, gainAlliances: seq<Alliance>, a: Alliance)
    requires Distinct(gainAlliances)
    ensures multiset(UnallocatedViolations(game, gainAlliances))[SAPUnallocated(a)]
         == if a in gainAlliances && a !in game.sapAllocation then 1 else 0
  {
    if gainAlliances != [] {
      var init := gainAlliances[..|gainAlliances| - 1];
      var last := gainAlliances[|gainAlliances| - 1];
      assert gainAlliances == init + [last];
      DistinctInit(gainAlliances);
      UnallocatedCount(game, init, a);
      var uv := UnallocatedViolations(game, init);
      var lv := if last in game.sapAllocation then [] else [SAPUnallocated(last)];
      assert multiset(uv + lv) == multiset(uv) + multiset(lv);
    }
  }

  lemma UnallocatedTotal(game: GameRecord, v: Violation)
    requires |game.alliances| >= 2 && CheckOf(v) == UnallocatedChecks
    ensures multiset(UnallocatedViolations(game, SortedKeys(game.sapGain.Keys)))[v] == Occurrences(game, v)
  {
    SortedKeysEnumerates(game.sapGain.Keys);
    UnallocatedCount(game, SortedKeys(game.sapGain.Keys), v.alliance);
  }

  /** Whatever order the map loops take, each message is appended exactly
      as many times as `Occurrences` says. */
  lemma MessageCounts(game: GameRecord, bpOrder: seq<Alliance>, gainOrder: seq<Alliance>, sapOrder: seq<Alliance>, v: Violation)
    requires Orders(game, bpOrder, gainOrder, sapOrder)
    ensures multiset(ViolationsIn(game, bpOrder, gainOrder, sapOrder))[v] == Occurrences(game, v)
  {
    CountParts(game, bpOrder, gainOrder, sapOrder, v);
    match CheckOf(v) {
      case HeaderChecks => HeaderCount(game, v);
      case EntryChecks => EntryCount(game, v);
      case MatchChecks => MatchCount(game, v);
      case LoopChecks(BPSection) => SectionCount(game, BPSection, bpOrder, v);
      case LoopChecks(GainSection) => SectionCount(game, GainSection, gainOrder, v);
      case LoopChecks(SAPSection) => SectionCount(game, SAPSection, sapOrder, v);
      case UnallocatedChecks => UnallocatedTotal(game, v);
    }
  }

  /** An empty victor fires three checks at once, unless the empty string
      is itself listed among the alliances, in which case the victor counts
      as a participant and only the first two fire. */
  lemma EmptyVictorMessages(game: GameRecord)
    requires |game.alliances| >= 2
    requires game.victor == ""
    ensures Occurrences(game, VictorRequired) == 1
    ensures Occurrences(game, InvalidVictor("")) == 1
    ensures Occurrences(game, VictorNotInGame(game.alliances)) == if "" in game.alliances then 0 else 1
  {
  }

  /** The alliances named by a list of unallocated-gain messages increase. */
  predicate AlliancesIncrease(r: seq<Violation>)
    requires forall v :: v in r ==> v.SAPUnallocated?
  {
    forall i, j :: 0 <= i < j < |r| ==> Below(r[i].alliance, r[j].alliance)
  }

  lemma AlliancesIncreaseSnoc(r: seq<Violation>, bound: set<Alliance>, last: Alliance)
    requires forall v :: v in r ==> v.SAPUnallocated? && v.alliance in bound
    requires AlliancesIncrease(r)
    requires forall a :: a in bound ==> Below(a, last)
    ensures AlliancesIncrease(r + [SAPUnallocated(last)])
  {
    var r2 := r + [SAPUnallocated(last)];
    forall i, j | 0 <= i < j < |r2| ensures Below(r2[i].alliance, r2[j].alliance) {
      assert r2[i] == r[i] && r[i] in r;
      if j < |r| {
        assert r2[j] == r[j];
      }
    }
  }

  lemma {:induction false} UnallocatedIncreasing(game: GameRecord, gainAlliances: seq<Alliance>)
    requires StrictlyIncreasing(gainAlliances)
    ensures AlliancesIncrease(UnallocatedViolations(game, gainAlliances))
  {
    if gainAlliances != [] {
      var init := gainAlliances[..|gainAlliances| - 1];
      var last := gainAlliances[|gainAlliances| - 1];
      assert StrictlyIncreasing(init);
      UnallocatedIncreasing(game, init);
      var r' := UnallocatedViolations(game, init);
      if last !in game.sapAllocation {
        assert forall a :: a in init ==> Below(a, last);
        AlliancesIncreaseSnoc(r', (set a | a in init), last);
      }
    }
  }

  predicate NoUnallocated(s: seq<Violation>) {
    forall v :: v in s ==> !v.SAPUnallocated?
  }

  lemma JoinNoUnallocated(s: seq<Violation>, t: seq<Violation>)
    requires NoUnallocated(s) && NoUnallocated(t)
    ensures NoUnallocated(s + t)
  {
  }

  lemma AllocatedBefore(game: GameRecord, bpOrder: seq<Alliance>, gainOrder: seq<Alliance>, sapOrder: seq<Alliance>)
    requires |game.alliances| >= 2
    ensures NoUnallocated(HeaderViolations(game) + AllianceEntryViolations(game.alliances) + MatchViolations(game)
                          + SectionViolations(game, BPSection, bpOrder) + SectionViolations(game, GainSection, gainOrder)
                          + SectionViolations(game, SAPSection, sapOrder))
  {
    var h := HeaderViolations(game);
    var e := AllianceEntryViolations(game.alliances);
    var m := MatchViolations(game);
    var b := SectionViolations(game, BPSection, bpOrder);
    var g := SectionViolations(game, GainSection, gainOrder);
    var p := SectionViolations(game, SAPSection, sapOrder);
    assert NoUnallocated(h) && NoUnallocated(e) && NoUnallocated(m);
    assert NoUnallocated(b) && NoUnallocated(g) && NoUnallocated(p);
    JoinNoUnallocated(h, e);
    JoinNoUnallocated(h + e, m);
    JoinNoUnallocated(h + e + m, b);
    JoinNoUnallocated(h + e + m + b, g);
    JoinNoUnallocated(h + e + m + b + g, p);
  }

  /** Once an unallocated-gain message appears, only such messages follow,
      in increasing alliance order. */
  predicate UnallocatedClose(vs: seq<Violation>) {
    forall i, j :: 0 <= i < j < |vs| && vs[i].SAPUnallocated?
      ==> vs[j].SAPUnallocated? && Below(vs[i].alliance, vs[j].alliance)
  }

  lemma UnallocatedCloseJoin(head: seq<Violation>, tail: seq<Violation>)
    requires NoUnallocated(head)
    requires forall v :: v in tail ==> v.SAPUnallocated?
    requires AlliancesIncrease(tail)
    ensures UnallocatedClose(head + tail)
  {
    var vs := head + tail;
    forall i, j | 0 <= i < j < |vs| && vs[i].SAPUnallocated?
      ensures vs[j].SAPUnallocated? && Below(vs[i].alliance, vs[j].alliance)
    {
      assert vs[i] == tail[i - |head|] && vs[j] == tail[j - |head|] && tail[j - |head|] in tail;
    }
  }

  /** The unallocated-gain messages close the list, in increasing alliance order. */
  lemma UnallocatedLast(game: GameRecord, bpOrder: seq<Alliance>, gainOrder: seq<Alliance>, sapOrder: seq<Alliance>)
    requires Orders(game, bpOrder, gainOrder, sapOrder)
    ensures UnallocatedClose(ViolationsIn(game, bpOrder, gainOrder, sapOrder))
  {
    var sorted := SortedKeys(game.sapGain.Keys);
    UnallocatedIncreasing(game, sorted);
    AllocatedBefore(game, bpOrder, gainOrder, sapOrder);
    var head := HeaderViolations(game) + AllianceEntryViolations(game.alliances) + MatchViolations(game)
              + SectionViolations(game, BPSection, bpOrder) + SectionViolations(game, GainSection, gainOrder)
              + SectionViolations(game, SAPSection, sapOrder);
    UnallocatedCloseJoin(head, UnallocatedViolations(game, sorted));
  }
}
