# Cricket scorer: a verified model of the scoring core

This project models the scoring core of a real-time cricket scorer, written in TypeScript and React, in Dafny.

- **The scoring context** (`src/context/CricketContext.tsx`) holds one `Match`. It offers these calls:
  - creating a match;
  - editing the two squads;
  - the toss;
  - the three scoring calls `addRuns`, `addExtra` and `addWicket`;
  - `undoLastBall`;
  - changing the striker, non-striker and bowler;
  - starting and ending an innings;
  - the read accessors.
- **The umpire's screen** (`src/components/Match.tsx`) decides:
  - which batsmen its selects offer;
  - when the innings counts as complete;
  - what the chase line of the second innings says;
  - which panel of controls it shows;
  - which values its buttons pass to the context.

The model follows the code as written, including where the code departs from the game's rules or from an exact undo. Each departure listed below is stated by a lemma named beside it.

Modules, one per concern:

- `CricketTypes` (`types.dfy`): the records of `src/types/cricket.ts`. It also models two JavaScript semantics the code relies on:
  - truthiness of a player-id slot (`Filled`);
  - the truncating remainder `%` (`JsRem`).
- `MatchState` (`match_state.dfy`): `createEmptyMatch`, the getters, the toss, starting and ending an innings, and the slot changes. Each is a pure function returning the value the context hands to `setMatch`.
- `Roster` (`roster.dfy`): `setTeamName`, `addPlayer`, `removePlayer`, `toggleCaptain` and `toggleWicketkeeper`, as pure functions.
- `Scoring` (`scoring.dfy`): reference functions for the scoring calls and for undo. It also defines the innings invariant:
  - `Consistent`: the totals equal the sums over the ball log, and the ball number is in [0, 5];
  - `Tracked`: the position counts the legal deliveries of the log.
- `ScoringProperties` (`scoring_properties.dfy`): what the scoring calls promise, and where they fall short of cricket's rules or of an exact undo.
- `CricketContext` (`cricket_context.dfy`): the provider as a class `Scorer`. Its field `current` is the `match` state.
  - The scoring calls and undo are imperative methods. Like the source, they copy the stat maps, update them entry by entry, decide over, ball and ends in local variables, and then commit.
  - Each method is proved equal to its reference function and to keep the invariant.
- `MatchView` (`match_view.dfy`): the umpire's screen as pure functions, plus sessions of presses on the controls it offers.

The departures the model exhibits:

- **Wides and the ends.** Under the rules of cricket, the one-run penalty of a wide is not run, so it does not change ends. When both batters are set, the code swaps them on any wide with odd runs (`ScoringProperties.WideOddRunsSwap`). That includes the one run every extra button passes (`MatchView.ExtraButtonSwapsEnds`).
- **Undo is not an exact inverse.** Apart from the emptied slots after a wicket, undo fails to restore the state before the ball in these ways:
  - it steps the position back for a wide or a no-ball, which never moved it (`ScoringProperties.UndoUncountedExtraRewinds`);
  - it takes a ball faced off for a wide, which added none (`ScoringProperties.UndoWideTakesBallFaced`);
  - it takes an over off the bowler whenever the ball was recorded as 5. For a legal ball that is the fifth of the over (`ScoringProperties.UndoFifthBallTakesOver`). A wide or no-ball bowled at ball 5 is also recorded as 5 and never added an over (`ScoringProperties.UndoUncountedExtraAtFiveTakesOver`);
  - it keeps the over credited and the ends swapped after the sixth ball (`ScoringProperties.UndoOverEndKeepsOverAndSwap`);
  - it does not restore an emptied batter slot, and it leaves the dismissal kind and the bowler on the batter's record (`ScoringProperties.UndoWicketLeavesDismissal`).
- **Undo on an empty log and an incomplete line-up.** The code shows a toast and changes nothing; the model changes nothing (`ScoringProperties.UndoTotals`, `ScoringProperties.LineupGuards`).
- **The status path.** The status type lists setup, toss, in_progress, innings_break and completed, in the order a match goes through them. The code never checks the status when ending an innings. The screen offers Start Innings only in setup and toss, so the second innings is scored while the status stays `innings_break` (`MatchView.SecondInningsNeverInProgress`).

## Model

| member | source | states |
|---|---|---|
| CricketTypes.JsRem | src/context/CricketContext.tsx:373 | JavaScript `%`: the remainder has the sign of the dividend, stays below the divisor in magnitude, and differs from the dividend by a multiple of the divisor, which together fix the truncated remainder |
| CricketTypes.Opponent | src/context/CricketContext.tsx:271 | the other team slot is never the given one |
| MatchState.NewInnings | src/context/CricketContext.tsx:77-88 | an innings starts with an empty log, zero totals, position (0, 0), empty stat maps and `null` in all three player slots |
| MatchState.CreateEmptyMatch | src/context/CricketContext.tsx:60-105 | a new match carries the given id and join code, is in setup with no toss, the given overs, innings 1, team1 listed to bat, teams `team1` "Team A" and `team2` "Team B" with empty squads, two empty innings, and created equal to updated |
| MatchState.GetBowlingTeam | src/context/CricketContext.tsx:1030-1035 | the bowling side is one of the two teams and differs from the batting side when the teams differ |
| MatchState.GetBattingTeam | src/context/CricketContext.tsx:1024-1028 | the batting side is the team in the `battingTeam` slot: team1 exactly when that slot is Team1 (when the two teams differ) |
| MatchState.GetCurrentInningsData | src/context/CricketContext.tsx:1037-1042 | the current innings is the first in innings 1 and the second in innings 2 |
| MatchState.CurrentInningsRoundTrip | src/context/CricketContext.tsx:1037-1042 | writing the current innings and reading it back returns what was written, writing back what was read changes nothing, and no other field changes |
| MatchState.FindPlayer | src/context/CricketContext.tsx:1044-1048 | `find` returns the first player of the list with that id (no earlier player has it), and returns nothing exactly when no player has it |
| MatchState.GetPlayerById | src/context/CricketContext.tsx:1044-1048 | the team's first player with the id, or nothing exactly when the team has no such player |
| MatchState.GetCurrentBowler | src/context/CricketContext.tsx:991-1001 | a bowler is found exactly when the bowler slot is filled and the bowling side has a player with that id, and it is the first such bowling-side player |
| MatchState.BatsmanIn | src/context/CricketContext.tsx:1003-1022 | a batsman is found only for a filled slot, as the first batting-side player with the slot's id, and is found whenever the batting side has such a player |
| MatchState.GetCurrentBatsmen | src/context/CricketContext.tsx:1003-1022 | each batsman is the first batting-side player whose id is in the striker or non-striker slot respectively, and is returned whenever the slot is filled and the batting side has such a player |
| MatchState.PerformToss | src/context/CricketContext.tsx:263-289 | status becomes toss and the toss is recorded; the winner bats exactly when it chose to bat; nothing else changes |
| MatchState.StartInnings | src/context/CricketContext.tsx:912-926 | status becomes in_progress whatever it was; only the status and the update time change |
| MatchState.EndInnings | src/context/CricketContext.tsx:928-960 | after the first innings: the break, innings 2 and the other side batting; after the second: completed; the innings records are untouched |
| MatchState.EndInningsSwapsSides | src/context/CricketContext.tsx:931-943 | at the break the batting and bowling sides exchange, and the second innings becomes current |
| MatchState.StatusPath | src/context/CricketContext.tsx:263-960 | create, toss, start, end and end run through setup, toss, in_progress, innings_break and completed, with the side that bowled first batting second |
| MatchState.EndInningsIgnoresStatus | src/context/CricketContext.tsx:928-960 | ending an innings straight from setup reaches the break, and ending it again completes the match: no status is checked |
| MatchState.ChangeBowler | src/context/CricketContext.tsx:820-847 | the bowler slot takes the id as given, even an empty one, and nothing else in the innings changes |
| MatchState.SlotValue | src/context/CricketContext.tsx:863 | `playerId \|\| null` is the id when it is filled (non-empty) and null otherwise, including for the empty id |
| MatchState.ChangeStriker | src/context/CricketContext.tsx:849-878 | the striker slot takes the id, or is cleared for an absent or empty id; the rest of the innings is unchanged |
| MatchState.ChangeNonStriker | src/context/CricketContext.tsx:880-909 | the same for the non-striker slot |
| Roster.SetTeamName | src/context/CricketContext.tsx:145-161 | only the named team's name changes |
| Roster.AddPlayer | src/context/CricketContext.tsx:163-189 | the team's list gains the new player, neither captain nor keeper, at its end; nothing else changes |
| Roster.Without | src/context/CricketContext.tsx:197-199 | the filter keeps exactly the players whose id differs, and never lengthens the list |
| Roster.RemovePlayer | src/context/CricketContext.tsx:191-212 | the team's list becomes the order-keeping filter of its players by id, so it keeps exactly its players with another id; the other team is untouched |
| Roster.WithoutAbsent | src/context/CricketContext.tsx:197-199 | filtering out an id nobody has returns the list unchanged |
| Roster.WithoutAppend | src/context/CricketContext.tsx:197-199 | the filter distributes over appending a player |
| Roster.RemoveUndoesAdd | src/context/CricketContext.tsx:163-212 | removing a freshly added player whose id is new restores the match exactly |
| Roster.Assign | src/context/CricketContext.tsx:220-223 | the role goes to exactly the players with that id and is taken from all others; ids, names and the other role are kept |
| Roster.ToggleCaptain | src/context/CricketContext.tsx:214-236 | the team's players are reassigned the captaincy, the team keeps its id and name, and the other team is untouched |
| Roster.ToggleWicketkeeper | src/context/CricketContext.tsx:238-260 | the same for the keeper flag, with the team's id and name kept |
| Roster.AssignLeavesOneHolder | src/context/CricketContext.tsx:214-260 | with distinct ids, exactly one player holds the role when the id is in the squad, and none otherwise |
| Roster.ToggleCaptainIdempotent | src/context/CricketContext.tsx:214-236 | toggling the same player twice is the same as toggling once: the "toggle" never un-sets |
| ScoringProperties.LogRunsAppend | src/context/CricketContext.tsx:411-414 | the runs of a log with one more ball are the old runs plus that ball's runs and extras |
| ScoringProperties.LogWicketsAppend | src/context/CricketContext.tsx:683-686 | the wickets of a log with one more ball gain one exactly for a wicket ball |
| ScoringProperties.LogLegalBallsAppend | src/context/CricketContext.tsx:510-517 | the legal balls of a log gain one exactly for a ball that is neither a wide nor a no-ball |
| ScoringProperties.LogSplitLast | src/context/CricketContext.tsx:724-742 | runs, wickets and legal balls of a log are those without its last ball plus the last ball's share |
| ScoringProperties.LegalDeliveryPosition | src/context/CricketContext.tsx:373-378 | from a ball in [0, 5], `(ball + 1) % 6` ends the over exactly on ball 5 and otherwise moves one on |
| Scoring.DeliverRuns | src/context/CricketContext.tsx:307-424 | a delivery of runs appends one ball to the log, adds the runs, keeps the wickets and the bowler, and leaves the same two batters at the crease |
| Scoring.DeliverExtra | src/context/CricketContext.tsx:441-559 | an extra appends one ball, adds the runs, keeps the wickets and the bowler, and leaves the same two batters at the crease |
| Scoring.DeliverWicket | src/context/CricketContext.tsx:577-701 | a wicket appends one ball, adds one wicket and no runs, keeps the bowler, and only ever empties a batter slot |
| Scoring.UndoInnings | src/context/CricketContext.tsx:717-795 | undo is the identity on an empty log, otherwise removes exactly the last ball, and never touches the three player slots |
| Scoring.RunsAdded | src/context/CricketContext.tsx:292-427 | addRuns changes only the current innings and the update time, and nothing at all unless striker, non-striker and bowler are set |
| Scoring.ExtraAdded | src/context/CricketContext.tsx:429-561 | addExtra changes only the current innings and the update time, and nothing at all unless a bowler is set |
| Scoring.WicketAdded | src/context/CricketContext.tsx:563-703 | addWicket changes only the current innings and the update time, and nothing at all unless striker, non-striker and bowler are set |
| Scoring.LastBallUndone | src/context/CricketContext.tsx:705-817 | undoLastBall changes only the current innings and the update time, and nothing at all on an empty log |
| ScoringProperties.RunsLedger | src/context/CricketContext.tsx:292-427 | addRuns appends one ball; adds the runs; credits the striker's runs, ball, four, six or dot; charges the bowler's runs and dot; moves one ball on; completes the over from ball 5; swaps ends once on over end or odd runs |
| ScoringProperties.ExtraLedger | src/context/CricketContext.tsx:429-561 | addExtra appends one ball with the runs as extras, the striker (or the empty id) as batsman, the current over, and ball number held for wides and no-balls; charges the bowler for wides and no-balls only; counts a ball faced for a set striker except on a wide; moves the position for byes and leg-byes only; swaps ends once when both batters are set |
| ScoringProperties.WicketLedger | src/context/CricketContext.tsx:563-703 | addWicket appends a wicket ball naming the dismissed player (the striker unless another id is given), the bowler, the current over and the next ball number; adds one wicket; marks the batter out; credits the bowler for bowled, caught, lbw and stumped only; empties the dismissed player's slot and never swaps |
| ScoringProperties.UndoTotals | src/context/CricketContext.tsx:705-817 | undo changes nothing on an empty log; otherwise it pops exactly the last ball, takes its runs, extras and wicket off the totals, and leaves the player slots as they are |
| ScoringProperties.DeliverRunsConsistent | src/context/CricketContext.tsx:292-427 | a delivery of runs keeps the innings totals equal to its log |
| ScoringProperties.DeliverExtraConsistent | src/context/CricketContext.tsx:429-561 | an extra keeps the innings totals equal to its log |
| ScoringProperties.DeliverWicketConsistent | src/context/CricketContext.tsx:563-703 | a wicket keeps the innings totals equal to its log |
| ScoringProperties.UndoConsistent | src/context/CricketContext.tsx:705-817 | undo keeps the innings totals equal to its log and the ball in [0, 5] |
| ScoringProperties.CommitConsistent | src/context/CricketContext.tsx:400-423 | writing a consistent innings into a consistent match keeps both innings consistent |
| ScoringProperties.RunsAddedConsistent | src/context/CricketContext.tsx:292-427 | addRuns keeps both innings consistent, whether or not the line-up check passes |
| ScoringProperties.ExtraAddedConsistent | src/context/CricketContext.tsx:429-561 | addExtra keeps both innings consistent |
| ScoringProperties.WicketAddedConsistent | src/context/CricketContext.tsx:563-703 | addWicket keeps both innings consistent |
| ScoringProperties.LastBallUndoneConsistent | src/context/CricketContext.tsx:705-817 | undoLastBall keeps both innings consistent |
| ScoringProperties.EmptyMatchConsistent | src/context/CricketContext.tsx:60-105 | a new match is consistent, and a new innings tracks its (empty) log |
| ScoringProperties.DeliverRunsTracked | src/context/CricketContext.tsx:372-397 | after runs, `over * 6 + ball` still counts the legal deliveries of the log |
| ScoringProperties.DeliverExtraTracked | src/context/CricketContext.tsx:513-534 | after an extra, the position still counts the legal deliveries (a wide or a no-ball moves neither) |
| ScoringProperties.DeliverWicketTracked | src/context/CricketContext.tsx:649-665 | after a wicket, the position still counts the legal deliveries |
| ScoringProperties.UndoLegalTracked | src/context/CricketContext.tsx:727-738 | undoing a legal delivery steps the position back by exactly that ball |
| ScoringProperties.UndoUncountedExtraRewinds | src/context/CricketContext.tsx:731-738 | undoing a wide or a no-ball steps the ball back although neither moved it, so the position stops counting the legal deliveries |
| ScoringProperties.UndoUncountedExtraAtFiveTakesOver | src/context/CricketContext.tsx:445-447 | a wide or no-ball bowled at ball 5 is logged as ball 5 and adds no over, yet undoing it takes an over off the bowler (:767) |
| ScoringProperties.UndoWideTakesBallFaced | src/context/CricketContext.tsx:746-758 | undoing a wide takes a ball faced off the striker although the wide added none |
| ScoringProperties.UndoAfterEvenRuns | src/context/CricketContext.tsx:705-817 | after even runs from balls 0 to 3, undo restores the innings exactly, except that striker and bowler keep a (restored) record |
| ScoringProperties.UndoFifthBallTakesOver | src/context/CricketContext.tsx:767 | undoing the fifth ball of an over (recorded as 5) takes an over off the bowler that was never added |
| ScoringProperties.UndoOverEndKeepsOverAndSwap | src/context/CricketContext.tsx:731-738 | undoing the ball that completed an over leaves the position at ball 5 of the same over, with the over still credited and the ends still swapped |
| ScoringProperties.UndoOddRunsKeepsSwap | src/context/CricketContext.tsx:797-810 | undoing odd runs leaves the batters at the ends the runs put them |
| ScoringProperties.UndoWicketLeavesDismissal | src/context/CricketContext.tsx:746-758 | undoing a wicket clears the out flag and the wicket, but leaves the slot empty and the dismissal kind and bowler on the record |
| ScoringProperties.WideOddRunsSwap | src/context/CricketContext.tsx:503-506 | a wide with odd runs swaps the batters when both are set |
| ScoringProperties.WicketOverEndNoSwap | src/context/CricketContext.tsx:649-669 | a wicket on the sixth ball ends the over with the striker slot empty and the survivor not moved |
| ScoringProperties.WicketBallNamesDismissed | src/context/CricketContext.tsx:580-595 | with a dismissed player given, the ball's batsman is that player, not the striker |
| ScoringProperties.BowlerNamedWithoutCredit | src/context/CricketContext.tsx:618-647 | for uncredited kinds other than a run out, the batter's record names the bowler while the bowler's wickets do not change |
| ScoringProperties.WicketsNotCapped | src/context/CricketContext.tsx:686 | a wicket at ten down makes eleven |
| ScoringProperties.ScoringIgnoresStatus | src/context/CricketContext.tsx:292-817 | the scoring calls and undo neither read nor change the status |
| ScoringProperties.LineupGuards | src/context/CricketContext.tsx:299-306 | addRuns and addWicket change the match exactly when striker, non-striker and bowler are set, addExtra exactly when a bowler is set, and each then appends one ball |
| CricketContext.Scorer.constructor | src/context/CricketContext.tsx:138-142 | `createMatch` holds the empty match, which is consistent |
| CricketContext.Scorer.AddRuns | src/context/CricketContext.tsx:292-427 | the imperative addRuns commits exactly the reference result and keeps both innings consistent |
| CricketContext.Scorer.AddExtra | src/context/CricketContext.tsx:429-561 | the imperative addExtra commits exactly the reference result and keeps both innings consistent |
| CricketContext.Scorer.AddWicket | src/context/CricketContext.tsx:563-703 | the imperative addWicket commits exactly the reference result and keeps both innings consistent |
| CricketContext.Scorer.UndoLastBall | src/context/CricketContext.tsx:705-817 | the imperative undo commits exactly the reference result and keeps both innings consistent |
| CricketContext.RunsInnings | src/context/CricketContext.tsx:307-424 | the statement-by-statement addRuns block (ball record, striker and bowler blocks, over-end and odd-run swaps, innings spread) yields exactly the reference innings DeliverRuns |
| CricketContext.ExtraInnings | src/context/CricketContext.tsx:441-559 | the addExtra block (ball number held for wides and no-balls, bowler charged for those only, striker's ball faced for no-ball/bye/leg-bye, guarded swaps) yields exactly DeliverExtra |
| CricketContext.WicketInnings | src/context/CricketContext.tsx:577-701 | the addWicket block (dismissed id defaulting to the striker, bowler credited for bowled/caught/lbw/stumped only, the dismissed slot emptied) yields exactly DeliverWicket |
| CricketContext.UndoneInnings | src/context/CricketContext.tsx:717-795 | the undoLastBall block (ball popped, count stepped back, totals and both records decremented) yields exactly UndoInnings |
| CricketContext.CreditStriker | src/context/CricketContext.tsx:322-343 | the striker's record, created at zero when missing, gains the runs, a ball faced, a four, six or dot as the runs say |
| CricketContext.ChargeBowler | src/context/CricketContext.tsx:346-369 | the bowler's record, created at zero when missing, concedes the runs and a dot on no runs |
| CricketContext.BowlOver | src/context/CricketContext.tsx:380-384 | the bowler's record gains one over and nothing else changes |
| CricketContext.ChargeExtra | src/context/CricketContext.tsx:456-475 | the bowler's record, created at zero when missing, is charged the runs for a wide or no-ball only |
| CricketContext.FaceExtraBall | src/context/CricketContext.tsx:477-497 | for a non-wide with a striker set, the striker's record, created when missing, gains a ball faced; otherwise the map is unchanged |
| CricketContext.DismissBatter | src/context/CricketContext.tsx:597-619 | the dismissed batter's record, created when missing, gains a ball faced and a dot, is marked out with the kind, and names the bowler except on a run out |
| CricketContext.CreditWicket | src/context/CricketContext.tsx:621-647 | the bowler's record, created when missing, gains a dot, and a wicket for bowled, caught, lbw and stumped only |
| CricketContext.UncreditLast | src/context/CricketContext.tsx:744-759 | an existing record of the last ball's batter has that ball's amounts taken off; a missing one or an empty id leaves the map unchanged |
| CricketContext.UnchargeLast | src/context/CricketContext.tsx:761-788 | an existing record of the last ball's bowler has that ball's amounts, and an over on a ball recorded as 5, taken off; otherwise the map is unchanged |
| CricketContext.Scorer.ChangeBowler | src/context/CricketContext.tsx:820-847 | commits the bowler change and keeps the invariant |
| CricketContext.Scorer.ChangeStriker | src/context/CricketContext.tsx:849-878 | commits the striker change and keeps the invariant |
| CricketContext.Scorer.ChangeNonStriker | src/context/CricketContext.tsx:880-909 | commits the non-striker change and keeps the invariant |
| CricketContext.Scorer.PerformToss | src/context/CricketContext.tsx:263-289 | commits the toss and keeps the invariant |
| CricketContext.Scorer.StartInnings | src/context/CricketContext.tsx:912-926 | commits the start and keeps the invariant |
| CricketContext.Scorer.EndInnings | src/context/CricketContext.tsx:928-960 | commits the end of the innings and keeps the invariant |
| CricketContext.Scorer.SetTeamName | src/context/CricketContext.tsx:145-161 | commits the rename and keeps the invariant |
| CricketContext.Scorer.AddPlayer | src/context/CricketContext.tsx:163-189 | commits the new player and keeps the invariant |
| CricketContext.Scorer.RemovePlayer | src/context/CricketContext.tsx:191-212 | commits the removal and keeps the invariant |
| CricketContext.Scorer.ToggleCaptain | src/context/CricketContext.tsx:214-236 | commits the captaincy change and keeps the invariant |
| CricketContext.Scorer.ToggleWicketkeeper | src/context/CricketContext.tsx:238-260 | commits the keeper change and keeps the invariant |
| MatchView.FilterSelectable | src/components/Match.tsx:70-76 | the filter keeps exactly the players passing the test, never lengthening the list |
| MatchView.AvailableBatsmen | src/components/Match.tsx:70-76 | the batsmen offered are exactly the batting-side players passing the filter, never more than the squad |
| MatchView.AvailableBatsmenExactly | src/components/Match.tsx:70-76 | the batsmen offered are exactly the batting side's players who are in neither filled slot and have no record marked out |
| MatchView.InningsComplete | src/components/Match.tsx:100-106 | the innings is complete exactly at ten wickets, or with the overs bowled and the ball at 0, or, in the second innings only, with the first innings' total passed |
| MatchView.Target | src/components/Match.tsx:367 | the target is the least total exceeding the first innings' runs, so the second innings reaches it exactly when it passes the first |
| MatchView.BallsLeft | src/components/Match.tsx:371-372 | the balls bowled by the position plus the balls left make the innings' overs times six |
| MatchView.RunsNeeded | src/components/Match.tsx:370-371 | runs needed is the target minus the second innings' runs, and at most zero exactly when the chase is won |
| MatchView.Chase | src/components/Match.tsx:362-376 | the chase line appears in the second innings only; it is the runs-and-balls line exactly when runs are on the board, giving target minus runs and the balls left, and "To win" otherwise |
| MatchView.BallsLeftCountsLegalBalls | src/components/Match.tsx:371-372 | while the position tracks the log, balls left are the innings' balls minus the legal deliveries bowled |
| MatchView.BallsLeftAfterRuns | src/components/Match.tsx:371-372 | runs in the second innings take exactly one ball off the balls left |
| MatchView.BallsLeftAfterExtra | src/components/Match.tsx:371-372 | a bye or leg-bye takes one ball off the balls left; a wide or no-ball takes none |
| MatchView.BallsLeftAfterWicket | src/components/Match.tsx:371-372 | a wicket in the second innings takes exactly one ball off the balls left |
| MatchView.NoBallsLeftCompletes | src/components/Match.tsx:100-106 | with no balls left in the second innings the overs clause holds, so the innings counts as complete |
| MatchView.EleventhWicketMissed | src/components/Match.tsx:102 | a wicket at ten down gives eleven, for which the `=== 10` clause is false again |
| MatchView.Controls | src/components/Match.tsx:84-127 | Start Innings exactly in setup and toss; otherwise the end button exactly when the innings is complete (completing the match in innings 2); otherwise the scoring panel with Undo enabled exactly on a non-empty log |
| MatchView.Choice | src/components/Match.tsx:138 | the empty select value passes `undefined`, any other value passes itself |
| MatchView.Press | src/components/Match.tsx:84-324 | no control changes the squads or the overs, and only Start and End change the status, the innings number or the batting side |
| MatchView.StartOfferedIn | src/components/Match.tsx:85-97 | the Start Innings button is offered exactly in setup and toss |
| MatchView.UndoDisabledIsNoop | src/components/Match.tsx:318 | when Undo is disabled on the scoring panel, undo would change nothing |
| MatchView.PickedStrikerEligible | src/components/Match.tsx:136-155 | a striker picked from the select is a batting-side player, not out and not at either end, and becomes the striker |
| MatchView.ExtraButtonSwapsEnds | src/components/Match.tsx:249-283 | every extra button passes one run, so with both batters set it always swaps the ends, whatever the kind |
| MatchView.WicketButtonDismissesStriker | src/components/Match.tsx:80-82 | the wicket button passes no player, so the striker is the one dismissed: named on the ball, marked out, slot cleared |
| MatchView.PressConsistent | src/components/Match.tsx:84-324 | every control keeps both innings consistent |
| MatchView.ReplayConsistent | src/components/Match.tsx:84-324 | any sequence of presses keeps both innings consistent |
| MatchView.SecondInningsNeverInProgress | src/components/Match.tsx:85-97 | after the first innings ends, no session of offered controls presses Start Innings, and the status stays at the break or completed |
| MatchView.PressKeepsPhase | src/components/Match.tsx:84-324 | after the break every offered control leaves the match in the second innings at the break or completed |
| MatchView.EndFirstInningsEntersBreak | src/components/Match.tsx:107-126 | the end button in the first innings enters the break, where Start Innings is not offered |

## Left out

- The `match === null` guard of every call is not modelled. A `Scorer` exists from `createMatch` on.
- Loading from and saving to `localStorage` is left out, because it is persistence. So is `joinMatch`, and with it the join-code lookup.
- MatchState.CreateEmptyMatch: `created` and `updated` come from two separate `Date.now()` calls; one `now` stands for both, so the model makes them equal where the source may differ by a millisecond.
- `uuidv4()`, `Date.now()` and the `Math.random` join code become parameters (`ballId`, `id`, `now`, `code`). A ball's timestamp and the match's `updated` are given the same `now`.
- Bowler economy and the run rate are left out. They are floating-point `parseFloat`/`toFixed` values. The integer ball count `over * 6 + ball` is kept.
- Maidens are a field that no call ever updates.
- `toast` messages and the React plumbing (`createContext`, `useState`, `useEffect`) are UI side effects and are left out.
- `setMatch(prev => …)` is modelled as a function of the state the call read. In the source, `prev` and `match` are the same object between renders.
- `addRuns` assigns the swapped ends into the state object before committing them. Only the committed values are modelled, not that in-place write.
- `addWicket` accepts any string as the kind (`wicketType as any`). The model takes the eleven kinds of the `WicketType` union only.
- The spectator view mode is not modelled. The controls are modelled as rendered in the umpire view, which is the only view that shows them.
- The select's placeholder is not modelled, nor re-selecting the value already shown.
- Tab state and the scorecard tabs are not modelled.
- `createMatch` accepts any overs count, as the context does. The positivity check of the home form is a UI gate and is not modelled.
- ScoreDisplay.tsx, BattingStats.tsx, BowlingStats.tsx, Home.tsx, TeamSetup.tsx, Toss.tsx, Layout.tsx and App.tsx are rendering, routing and a coin flip; they are not part of this model.
