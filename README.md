# nachmundtracker: validation and scoring of campaign games

nachmundtracker keeps the score of a three-phase campaign of tabletop
games. Each game record names a phase, a scale, two players and two
alliances, a victor, and three maps keyed by alliance:
- `sap_gain`: strategic-asset points gained;
- `bp_allocation`: where each alliance's battle points go;
- `sap_allocation`: where each alliance's strategic-asset points go.

This project models the two parts of the program that carry the rules:

* **Validation** (`business/decode.go`). `validateGame` runs every rule
  check on one record and collects one message per failed check in a
  `GameErrors`. `validateGames` splits a batch into the valid records and
  the errors of the rejected ones.
  - Model: `Decode`, with `GameErrors` as a class whose `AddError`
    appends. The messages each group of checks appends are stated as
    functions in `Rules`. The rules themselves are the predicate
    `Rules.WellFormed`.
  - Proofs: `RuleProperties` proves that a record draws no message
    exactly when it is well formed. It also proves how many times each
    message is appended, and that the order Go happens to iterate the
    maps in changes only the order of the messages.
* **Scoring** (`business/calculate.go`). `calculateBPGain` reads the
  win/draw/loss tables. `PhaseResults.update` credits one game to the
  per-location counters of its alliances. `CalculateResults` folds a list
  of games into per-phase results.
  - Model: `Calculate`. The two loop methods are proved against the fold
    functions `Credited` and `Aggregate`.
  - Proofs: what one game adds to each counter, and that the final
    results do not depend on the order of the games.

The record type and the enumerations of `model/gamerecord.go` are in
`Model`. `Sorting` holds the sorted key list that the validator takes of
`sap_gain`.

Enumerations are strings, as in the program, so a record can carry an
unknown scale, alliance, location or victor. A map read of a missing key
yields Go's zero value (`LocationAt`, `GainAt`, `Lookup`, `ResultsAt`).

The results map gains an entry for a game of any phase, not only phases
1 to 3. Validation rejects only phases above 3 (`business/decode.go:62`).
`CalculateResults` then reads `results[game.Phase]` as zero and stores
the updated value under that phase (`business/calculate.go:128-131`).
Such a game is therefore kept under its own key and leaves phases 1 to 3
untouched (`Calculate.AddedToItsPhase`).

## Model

| member | source | states |
|---|---|---|
| Model.NamedPhases | model/gamerecord.go:22-28 | The named phases are exactly 1, 2 and 3. |
| Model.ConstantsDistinct | model/gamerecord.go:30-53 | The three alliances, the three scales and the four locations are distinct values. |
| Model.VictorIsAllianceOrDraw | model/gamerecord.go:55-62 | A valid victor is either the draw marker or one of the three alliances (each alliance value is also a victor value), and the draw marker is not an alliance. |
| Sorting.SortedKeys | business/decode.go:128 | The sorted key list is strictly increasing, holds exactly the map's keys, and has one element per key. |
| Sorting.SortedKeysEnumerates | business/decode.go:128 | The sorted key list lists every key exactly once. |
| Sorting.IncreasingUnique | business/decode.go:128 | Two strictly increasing lists with the same elements are equal, so the sorted key list is determined by the key set. |
| Rules.HeaderViolations | business/decode.go:62-78 | The header checks append at most four messages, each one of the phase, scale, player-count and alliance-count messages. |
| Rules.AllianceEntryViolations | business/decode.go:80-86 | Every message of the alliance-entry loop names an entry of the list that is not one of the three alliances. |
| Rules.MatchViolations | business/decode.go:88-108 | The match checks append at most five messages, each one of the same-alliances, victor-required, invalid-victor, victor-not-in-game and `bp_allocation`-size messages. |
| Rules.EntryViolations | business/decode.go:110-140 | One iteration of a map loop appends only messages of that loop, and an invalid-location message names the key being visited. |
| Rules.SectionViolations | business/decode.go:110-140 | A map loop appends only messages of that loop. |
| Rules.UnallocatedViolations | business/decode.go:142-146 | Every "unallocated" message names a `sap_gain` alliance that has no `sap_allocation` entry. |
| Rules.ViolationsIn | business/decode.go:59-146 | Definition: the header, alliance-entry and match messages, then the three map loops in the given visiting orders, then the unallocated check over the sorted `sap_gain` keys. |
| Rules.WellFormed | business/decode.go:62-146 | Definition: the rules as a predicate on the record, one conjunct per check, with no reference to messages. |
| RuleProperties.Occurrences | business/decode.go:62-146 | Definition: how many times each message is due, read off the record directly (once per failed scalar check, once per unknown alliance entry, once per foreign key, once per bad location, once per unallocated gain). |
| RuleProperties.AllianceEntriesAccepted | business/decode.go:80-86 | The alliance-entry loop appends nothing iff every entry is one of the three alliances. |
| RuleProperties.SectionAccepted | business/decode.go:110-140 | A map loop appends nothing iff no visited key draws a message. |
| RuleProperties.UnallocatedAccepted | business/decode.go:142-146 | The unallocated check appends nothing iff every listed alliance has a `sap_allocation` entry. |
| RuleProperties.BPSectionAccepted | business/decode.go:110-120 | The `bp_allocation` loop appends nothing iff every key is an alliance of the game with a known location. |
| RuleProperties.GainSectionAccepted | business/decode.go:122-126 | The `sap_gain` loop appends nothing iff every key is an alliance of the game. |
| RuleProperties.SAPSectionAccepted | business/decode.go:128-140 | The `sap_allocation` loop appends nothing iff every key is a `sap_gain` key with a known location. |
| RuleProperties.UnallocatedSortedAccepted | business/decode.go:128-146 | The unallocated check appends nothing iff every `sap_gain` alliance has a `sap_allocation` entry. |
| RuleProperties.FieldChecksAccepted | business/decode.go:62-108 | The header, alliance-entry and match checks append nothing iff the scalar and list fields obey the rules. |
| RuleProperties.MapChecksAccepted | business/decode.go:110-146 | The three map loops and the unallocated check append nothing iff the three maps obey the rules. |
| RuleProperties.ViolationsEmpty | business/decode.go:59-146 | The message list is empty iff every group of checks appends nothing. |
| RuleProperties.NoViolationsIffWellFormed | business/decode.go:59-153 | A record draws no message iff it is well formed, in both directions and for every iteration order of the maps. |
| RuleProperties.SectionSnoc | business/decode.go:110-140 | Visiting one more key appends exactly that key's messages. |
| RuleProperties.SectionOrderIndependent | business/decode.go:110-140 | Two orders that visit the same keys once each give a map loop the same messages, as a multiset. |
| RuleProperties.ViolationsOrderIndependent | business/decode.go:59-146 | Whatever orders Go iterates the three maps in, the record's messages are the same multiset. |
| RuleProperties.InSectionCheck | business/decode.go:110-140 | A message belongs to a map loop iff it is classified under that loop. |
| RuleProperties.CountParts | business/decode.go:59-146 | The count of a message is the sum of its counts in the groups of checks, and each group contributes only messages of its own kind. |
| RuleProperties.PhaseTooHighCount | business/decode.go:62-64 | "Phase too high" appears once iff the phase exceeds 3. |
| RuleProperties.IncorrectScaleCount | business/decode.go:66-70 | "Incorrect scale" appears once, with the record's own scale, iff that scale is not one of the three. |
| RuleProperties.PlayerCountCount | business/decode.go:72-74 | The player-count message appears once iff there are not exactly two players. |
| RuleProperties.AllianceCountCount | business/decode.go:76-78 | The alliance-count message appears once iff there are not exactly two alliances. |
| RuleProperties.HeaderCount | business/decode.go:62-78 | Each header message appears as many times as the rules call for. |
| RuleProperties.AllianceEntryCount | business/decode.go:80-86 | "Invalid alliance entry" for `a` appears once per occurrence of `a` in the list when `a` is unknown, and never otherwise. |
| RuleProperties.EntryCount | business/decode.go:80-86 | Each alliance-entry message appears as many times as the rules call for. |
| RuleProperties.SameAlliancesCount | business/decode.go:88-90 | The "different alliances" message appears once iff the first two alliances are equal. |
| RuleProperties.VictorRequiredCount | business/decode.go:92-94 | "Victor is required" appears once iff the victor is empty. |
| RuleProperties.InvalidVictorCount | business/decode.go:96-100 | "Invalid victor" appears once, with the record's own victor, iff it is neither draw nor an alliance. |
| RuleProperties.VictorNotInGameCount | business/decode.go:102-104 | "Victor must be one of" appears once, with the record's alliances, iff a non-draw victor is not among them. |
| RuleProperties.BPAllocationCountCount | business/decode.go:106-108 | The `bp_allocation` size message appears once iff it does not have two entries. |
| RuleProperties.MatchCount | business/decode.go:88-108 | Each match message appears as many times as the rules call for. |
| RuleProperties.EmptyVictorMessages | business/decode.go:92-104 | An empty victor draws "required" and "invalid victor" once each, and "must be one of" once unless the empty string is itself an alliance entry. |
| RuleProperties.EntryForeignCount | business/decode.go:110-140 | One loop iteration appends the loop's "only mention alliances" message once iff its key is not allowed. |
| RuleProperties.ForeignCount | business/decode.go:110-140 | A map loop appends its "only mention alliances" message once per key that is not allowed. |
| RuleProperties.KeyedCount | business/decode.go:110-140 | An invalid-location message for alliance `a` comes only from the iteration that visits `a`. |
| RuleProperties.BPLocationCount | business/decode.go:115-119 | A `bp_allocation` entry draws an invalid-location message, naming its key and location, iff the location is unknown. |
| RuleProperties.SAPLocationCount | business/decode.go:135-139 | A `sap_allocation` entry draws an invalid-location message, naming its key and location, iff the location is unknown. |
| RuleProperties.EntryLocationCount | business/decode.go:110-140 | The invalid-location count of one iteration is the count the rules call for. |
| RuleProperties.SectionLocationCount | business/decode.go:110-140 | A map loop appends each invalid-location message as many times as the rules call for. |
| RuleProperties.SectionForeignCount | business/decode.go:110-140 | A map loop appends its "only mention alliances" message once per foreign key of the map. |
| RuleProperties.SectionCount | business/decode.go:110-140 | A map loop appends each of its messages as many times as the rules call for, in any visiting order. |
| RuleProperties.UnallocatedCount | business/decode.go:142-146 | "Unallocated" for `a` appears once iff `a` is listed and has no `sap_allocation` entry. |
| RuleProperties.UnallocatedTotal | business/decode.go:128-146 | Each "unallocated" message appears as many times as the rules call for. |
| RuleProperties.MessageCounts | business/decode.go:59-146 | Every message appears in the record's error list exactly as many times as the rules call for. |
| RuleProperties.UnallocatedIncreasing | business/decode.go:128-146 | The "unallocated" messages name their alliances in increasing order. |
| RuleProperties.AllocatedBefore | business/decode.go:62-140 | No check before the last loop appends an "unallocated" message. |
| RuleProperties.UnallocatedLast | business/decode.go:128-146 | The "unallocated" messages close the error list, in increasing alliance order. |
| Decode.GameErrors.constructor | business/decode.go:60 | A fresh error collector holds the record and no messages. |
| Decode.GameErrors.AddError | business/decode.go:51-53 | Appends exactly the given message and changes nothing else. |
| Decode.CheckHeader | business/decode.go:62-78 | Appends exactly the header messages of the record. |
| Decode.CheckAllianceEntries | business/decode.go:80-86 | Appends exactly the alliance-entry messages, in list order. |
| Decode.CheckMatch | business/decode.go:88-108 | Appends exactly the match messages of the record. |
| Decode.CheckBPEntry | business/decode.go:111-119 | Appends exactly the messages of one `bp_allocation` entry. |
| Decode.CheckBPAllocation | business/decode.go:110-120 | Visits every `bp_allocation` key once, in the order it returns, and appends exactly the messages of that order. |
| Decode.CheckGainEntry | business/decode.go:123-125 | Appends exactly the message of one `sap_gain` entry. |
| Decode.CheckSAPGain | business/decode.go:122-126 | Visits every `sap_gain` key once and appends exactly the messages of that order. |
| Decode.CheckSAPEntry | business/decode.go:131-139 | Appends exactly the messages of one `sap_allocation` entry, checked against the sorted `sap_gain` keys. |
| Decode.CheckSAPAllocation | business/decode.go:130-140 | Visits every `sap_allocation` key once and appends exactly the messages of that order. |
| Decode.CheckUnallocated | business/decode.go:142-146 | Appends one "unallocated" message per listed alliance without a `sap_allocation` entry, in list order. |
| Decode.ValidateGame | business/decode.go:59-153 | Returns nil iff the record is well formed. Otherwise it returns the record with exactly the messages the checks append, in order, for the iteration orders it took. The "unallocated" messages come last, in increasing alliance order, and each message appears as often as the rules call for. |
| Decode.BatchPartition | business/decode.go:167-183 | The valid and the rejected records together are the batch, as a multiset and by count. |
| Decode.BatchMembership | business/decode.go:167-183 | A record is among the valid ones iff it is in the batch and well formed, and among the rejected ones iff it is in the batch and not well formed. |
| Decode.ValidAppend | business/decode.go:170-176 | The valid records of a concatenation are the valid records of each part, in order. |
| Decode.RejectedAppend | business/decode.go:170-176 | The rejected records of a concatenation are the rejected records of each part, in order. |
| Decode.FilterSnoc | business/decode.go:170-176 | One more record goes to exactly one of the two lists. |
| Decode.WellFormedGames | business/decode.go:170-176 | Definition: the records of a batch that pass validation, in input order. |
| Decode.IllFormedGames | business/decode.go:170-176 | Definition: the records of a batch that fail validation, in input order. |
| Decode.ValidateGames | business/decode.go:167-183 | Returns the well-formed records in input order. The error is nil iff no record is rejected; otherwise it holds one report per rejected record, in input order. Each report carries its record and exactly the messages `validateGame` appends, in order, for some visiting order of the three maps. The "unallocated" messages come last, in increasing order, and each message appears as often as the rules call for. |
| Calculate.LocationCounts.Update | business/calculate.go:12-23 | A known location's counter grows by the gain and every other counter is unchanged; an unknown location changes nothing. |
| Calculate.LocationCounts.Total | business/calculate.go:25-27 | No location's counter exceeds the total. |
| Calculate.TotalOfCounters | business/calculate.go:25-27 | The total is the sum of the four location counters, and it is zero only for all-zero counters. |
| Calculate.CountersEqual | business/calculate.go:5-10 | Two counter structs that agree at the four locations are equal. |
| Calculate.UpdateTotal | business/calculate.go:12-27 | An update raises the total by the gain at a known location and leaves it unchanged otherwise. |
| Calculate.UpdateIsAdd | business/calculate.go:12-23 | An update is the addition of counters holding the gain at that one location. |
| Calculate.CalculateBPGain | business/calculate.go:107-117 | The gain lies between the scale's loss value and its win value, and is positive exactly for the three known scales. |
| Calculate.BPGainTable | business/calculate.go:87-117 | The battle points for win/draw/loss are 2/2/1 for incursion, 3/2/1 for strike_force, 4/3/2 for onslaught, and 0 for an unknown scale. |
| Calculate.DrawIgnoresAlliance | business/calculate.go:107-117 | A draw gives every alliance the same points; a win is worth at least a draw and a draw at least a loss; a known scale gives a loss at least 1. |
| Calculate.PhaseResults.Update | business/calculate.go:64-85 | Returns the phase results with every alliance entry of the game credited, in list order. |
| Calculate.Credited | business/calculate.go:64-85 | Definition: the loop of `update`, crediting each listed entry in turn; an entry that is not one of the three alliances changes nothing. |
| Calculate.CreditEntryCounts | business/calculate.go:65-80 | One entry adds its battle points at its BP location and its SAP gain at its SAP location for its own alliance, and nothing for the others. |
| Calculate.CreditedBP | business/calculate.go:64-85 | An alliance's BP counter at a location grows by its share once per entry of that alliance in the game. |
| Calculate.CreditedSAP | business/calculate.go:64-85 | An alliance's SAP counter at a location grows by its gain once per entry of that alliance in the game. |
| Calculate.AbsentUntouched | business/calculate.go:64-85 | An alliance that is not in the game keeps its results. |
| Calculate.NoGainNoSAP | business/calculate.go:64-85 | An alliance with no `sap_gain` entry keeps its SAP counters. |
| Calculate.BothAllocated | business/decode.go:106-120 | In a valid record both alliances have a `bp_allocation` entry. |
| Calculate.WinnerAndLoser | business/calculate.go:64-117 | For a valid record with a winner, the winner gains the win value and the loser the loss value at their BP locations. |
| Calculate.CreditIsAdd | business/calculate.go:72-79 | Crediting an alliance adds what it would add to zero results. |
| Calculate.CreditEntryIsAdd | business/calculate.go:70-80 | Crediting one entry adds what it would add to zero results. |
| Calculate.CreditedIsAdd | business/calculate.go:64-85 | Updating phase results with a game adds the game's contribution, whatever the starting results. |
| Calculate.Step | business/calculate.go:128-131 | Definition: one iteration of the loop, storing the game's phase results, read as zero when absent, credited with the game. |
| Calculate.Aggregate | business/calculate.go:121-134 | Definition: the loop over all games, from phases 1 to 3 at zero. |
| Calculate.PhaseSum | business/calculate.go:128-131 | Definition: the sum of what the games of one phase add, an independent reference for the fold. |
| Calculate.CalculateResults | business/calculate.go:121-134 | Returns the fold of the games, from phases 1 to 3 at zero, crediting each game to its own phase. |
| Calculate.EmptyCampaign | business/calculate.go:121-126 | No games give exactly phases 1, 2 and 3, all zero results, so every alliance's BP and SAP totals are 0. |
| Calculate.AggregateFromKeys | business/calculate.go:121-131 | The result has exactly the starting phases plus the phases of the games. |
| Calculate.AggregateFromAt | business/calculate.go:128-131 | Each phase's results are its starting results plus the contributions of that phase's games. |
| Calculate.PhaseSumAppend | business/calculate.go:128-131 | A phase's total over two lists of games is the sum of the two totals. |
| Calculate.PhaseSumPermutation | business/calculate.go:128-131 | A phase's total does not depend on the order of the games. |
| Calculate.OrderIndependent | business/calculate.go:121-134 | Any reordering of the games gives the same results. |
| Calculate.AddedToItsPhase | business/calculate.go:128-131 | One more game adds its contribution to its own phase, which it creates if absent, and leaves every other phase unchanged; a game outside phases 1 to 3 leaves them untouched. |

## Left out

- `DecodeData` (`business/decode.go:16-40`): reads and parses the YAML file and then calls `validateGames`. File I/O and YAML decoding are not modelled.
- Message text. `GameErrors.Error`, `CampaignErrors.Error` and `GameRecord.String` only format text. Each message is a `Violation` constructor that carries the values the program prints.
- The presentation layer, the commands and `main` are not part of this model.
- Decode.ValidateGames: requires at least two alliances in every record. For a record with fewer, `validateGame` panics on `game.Alliances[1]` (`business/decode.go:88`), which takes the whole batch down; this crash is not modelled.
- Decode.ValidateGame: requires at least two alliances. For fewer, Go panics on `game.Alliances[1]` (`business/decode.go:88`); this crash is not modelled.
- Decode.ValidateGame: fixes the order of the messages only for the map-iteration orders it returns as ghost values. Go's iteration order is unspecified. Across all orders the messages agree as a multiset (`RuleProperties.ViolationsOrderIndependent`).
- Decode.GameErrors.HasErrors and Decode.GameErrors.Copy have no contract of their own: one reads `errors != []`, the other makes the value copy `validateGames` appends.
- Decode.ValidateGames: the rejected errors are `ErrorReport` values, copies of the collector taken when it is returned, as `*err` copies the struct in Go.
- Calculate.LocationCounts.Update: `LocationBPs` and `LocationSAPs` have the same fields and the same `update` and `Total`, so one datatype stands for both. The pointer-receiver `update` becomes a function returning the updated value.
- Calculate.LocationCounts.Update: counters, gains and `sap_gain` values are `uint` in Go and `nat` here. 64-bit wrap-around is not modelled.
