/** What the scoring functions of module Scoring promise, and where they
    fall short of cricket's rules or of an exact undo. */
module ScoringProperties {
  import opened CricketTypes
  import opened MatchState
  import opened Scoring

  // ---------------------------------------------------------------------
  // Log summaries over an appended ball

  lemma {:induction false} LogRunsAppend(balls: seq<BallData>, b: BallData)
    ensures LogRuns(balls + [b]) == LogRuns(balls) + b.runs + b.extras
  {
    if balls != [] {
      assert (balls + [b])[1..] == balls[1..] + [b];
      LogRunsAppend(balls[1..], b);
    }
  }

  lemma {:induction false} LogWicketsAppend(balls: seq<BallData>, b: BallData)
    ensures LogWickets(balls + [b]) == LogWickets(balls) + if b.isWicket then 1 else 0
  {
    if balls != [] {
      assert (balls + [b])[1..] == balls[1..] + [b];
      LogWicketsAppend(balls[1..], b);
    }
  }

  lemma {:induction false} LogLegalBallsAppend(balls: seq<BallData>, b: BallData)
    ensures LogLegalBalls(balls + [b]) == LogLegalBalls(balls) + if IsLegalBall(b) then 1 else 0
  {
    if balls != [] {
      assert (balls + [b])[1..] == balls[1..] + [b];
      LogLegalBallsAppend(balls[1..], b);
    }
  }

  /** The three summaries of a log split off its last ball. */
  lemma LogSplitLast(balls: seq<BallData>)
    requires |balls| > 0
    ensures var n := |balls| - 1;
      LogRuns(balls) == LogRuns(balls[..n]) + balls[n].runs + balls[n].extras &&
      LogWickets(balls) == LogWickets(balls[..n]) + (if balls[n].isWicket then 1 else 0) &&
      LogLegalBalls(balls) == LogLegalBalls(balls[..n]) + (if IsLegalBall(balls[n]) then 1 else 0)
  {
    var n := |balls| - 1;
    assert balls == balls[..n] + [balls[n]];
    LogRunsAppend(balls[..n], balls[n]);
    LogWicketsAppend(balls[..n], balls[n]);
    LogLegalBallsAppend(balls[..n], balls[n]);
  }

  // ---------------------------------------------------------------------
  // Ball position

  /** From a position in [0, 5] a legal delivery moves one ball on, and the
      sixth ball wraps to the next over. */
  lemma LegalDeliveryPosition(ball: int)
    requires 0 <= ball <= 5
    ensures EndsOver(ball) <==> ball == 5
    ensures NextBall(ball) == if ball == 5 then 0 else ball + 1
  {
  }

  // ---------------------------------------------------------------------
  // One event at a time

  /** `addRuns` appends one ball, adds the runs to the total, credits striker
      and bowler, advances the position and swaps ends exactly once when the
      over ends or the runs are odd. */
  lemma RunsLedger(inn: Innings, runs: int, ballId: string, now: int)
    requires LineupReady(inn) && 0 <= inn.currentBall <= 5
    ensures var r := DeliverRuns(inn, runs, ballId, now);
      var s, b := inn.striker.value, inn.currentBowler.value;
      var ball := r.balls[|r.balls| - 1];
      var st, bw := BattingOf(inn.battingStats, s), BowlingOf(inn.bowlingStats, b);
      && r.balls == inn.balls + [ball]
      && ball.runs == runs && ball.extras == 0 && !ball.isWicket && ball.extraType == None
      && ball.batsmanId == s && ball.bowlerId == b
      && ball.over == inn.currentOver && ball.ball == inn.currentBall + 1
      && r.totalRuns == inn.totalRuns + runs && r.wickets == inn.wickets
      && (r.currentOver, r.currentBall) ==
         (if inn.currentBall == 5 then (inn.currentOver + 1, 0) else (inn.currentOver, inn.currentBall + 1))
      && r.battingStats == inn.battingStats[s := r.battingStats[s]]
      && r.battingStats[s] == st.(runs := st.runs + runs, ballsFaced := st.ballsFaced + 1,
           fours := st.fours + (if runs == 4 then 1 else 0),
           sixes := st.sixes + (if runs == 6 then 1 else 0),
           dotBalls := st.dotBalls + (if runs == 0 then 1 else 0))
      && r.bowlingStats == inn.bowlingStats[b := r.bowlingStats[b]]
      && r.bowlingStats[b] == bw.(runs := bw.runs + runs,
           dots := bw.dots + (if runs == 0 then 1 else 0),
           overs := bw.overs + (if inn.currentBall == 5 then 1 else 0))
      && r.currentBowler == inn.currentBowler
      && ((r.striker, r.nonStriker) ==
          if inn.currentBall == 5 || IsOdd(runs) then (inn.nonStriker, inn.striker)
          else (inn.striker, inn.nonStriker))
  {
    LegalDeliveryPosition(inn.currentBall);
  }

  /** `addExtra` appends one ball carrying the runs as extras, charges the
      bowler only for wides and no-balls, counts a ball faced only for a
      non-wide with a striker, moves the position only for byes and
      leg-byes, and swaps ends once when both batters are set and the runs
      are odd or a bye/leg-bye ends the over. */
  lemma ExtraLedger(inn: Innings, kind: ExtraKind, runs: int, ballId: string, now: int)
    requires Filled(inn.currentBowler) && 0 <= inn.currentBall <= 5
    ensures var r := DeliverExtra(inn, kind, runs, ballId, now);
      var b := inn.currentBowler.value;
      var ball := r.balls[|r.balls| - 1];
      var bw := BowlingOf(inn.bowlingStats, b);
      var legal := kind == Bye || kind == LegBye;
      var ends := legal && inn.currentBall == 5;
      && r.balls == inn.balls + [ball]
      && ball.runs == 0 && ball.extras == runs && ball.extraType.Some? && ball.extraType.value == kind && !ball.isWicket
      && ball.bowlerId == b
      && ball.batsmanId == (if Filled(inn.striker) then inn.striker.value else "")
      && ball.over == inn.currentOver
      && ball.ball == (if legal then inn.currentBall + 1 else inn.currentBall)
      && r.totalRuns == inn.totalRuns + runs && r.wickets == inn.wickets
      && (!legal ==> r.currentOver == inn.currentOver && r.currentBall == inn.currentBall)
      && (legal ==>
            ((r.currentOver, r.currentBall) ==
             if ends then (inn.currentOver + 1, 0) else (inn.currentOver, inn.currentBall + 1)))
      && r.bowlingStats == inn.bowlingStats[b := r.bowlingStats[b]]
      && r.bowlingStats[b] == bw.(runs := bw.runs + (if kind == Wide || kind == NoBall then runs else 0),
                                  overs := bw.overs + (if ends then 1 else 0))
      && (kind != Wide && Filled(inn.striker) ==>
            var s := inn.striker.value;
            r.battingStats == inn.battingStats[s := BattingOf(inn.battingStats, s).(
              ballsFaced := BattingOf(inn.battingStats, s).ballsFaced + 1)])
      && (kind == Wide || !Filled(inn.striker) ==> r.battingStats == inn.battingStats)
      && r.currentBowler == inn.currentBowler
      && ((r.striker, r.nonStriker) ==
          if Filled(inn.striker) && Filled(inn.nonStriker) && (IsOdd(runs) || ends)
          then (inn.nonStriker, inn.striker) else (inn.striker, inn.nonStriker))
  {
    LegalDeliveryPosition(inn.currentBall);
  }

  /** `addWicket` appends one wicket ball with no runs, adds exactly one
      wicket, marks the dismissed player (the striker unless another id is
      given) out, credits the bowler's wicket for bowled, caught, lbw and
      stumped only, names the bowler on the batter's record for every kind
      but a run out, empties the dismissed player's slot and never swaps. */
  lemma WicketLedger(inn: Innings, kind: WicketType, outPlayerId: Option<PlayerId>,
                     ballId: string, now: int)
    requires LineupReady(inn) && 0 <= inn.currentBall <= 5
    ensures var r := DeliverWicket(inn, kind, outPlayerId, ballId, now);
      var b := inn.currentBowler.value;
      var out := if Filled(outPlayerId) then outPlayerId.value else inn.striker.value;
      var ball := r.balls[|r.balls| - 1];
      var st, bw := BattingOf(inn.battingStats, out), BowlingOf(inn.bowlingStats, b);
      && r.balls == inn.balls + [ball]
      && ball.isWicket && ball.runs == 0 && ball.extras == 0 && ball.wicketType == Some(kind)
      && ball.batsmanId == out && ball.wicketPlayerId == Some(out)
      && ball.over == inn.currentOver && ball.ball == inn.currentBall + 1 && ball.bowlerId == b
      && r.totalRuns == inn.totalRuns && r.wickets == inn.wickets + 1
      && (r.currentOver, r.currentBall) ==
         (if inn.currentBall == 5 then (inn.currentOver + 1, 0) else (inn.currentOver, inn.currentBall + 1))
      && r.battingStats == inn.battingStats[out := r.battingStats[out]]
      && r.battingStats[out] == st.(ballsFaced := st.ballsFaced + 1, dotBalls := st.dotBalls + 1,
           isOut := true, wicketType := Some(kind),
           bowlerId := if kind == RunOut then None else Some(b))
      && r.bowlingStats == inn.bowlingStats[b := r.bowlingStats[b]]
      && r.bowlingStats[b] == bw.(dots := bw.dots + 1,
           wickets := bw.wickets + (if kind in {Bowled, Caught, Lbw, Stumped} then 1 else 0),
           overs := bw.overs + (if inn.currentBall == 5 then 1 else 0))
      && r.striker == (if inn.striker == Some(out) then None else inn.striker)
      && r.nonStriker == (if inn.nonStriker == Some(out) then None else inn.nonStriker)
      && r.currentBowler == inn.currentBowler
  {
    LegalDeliveryPosition(inn.currentBall);
  }

  /** `undoLastBall` is a no-op on an empty log; otherwise it removes only the
      last ball and takes its runs, extras and wicket off the totals. */
  lemma UndoTotals(inn: Innings)
    ensures |inn.balls| == 0 ==> UndoInnings(inn) == inn
    ensures |inn.balls| > 0 ==>
      var last := inn.balls[|inn.balls| - 1];
      var u := UndoInnings(inn);
      u.balls + [last] == inn.balls &&
      u.totalRuns == inn.totalRuns - last.runs - last.extras &&
      u.wickets == inn.wickets - (if last.isWicket then 1 else 0) &&
      u.striker == inn.striker && u.nonStriker == inn.nonStriker &&
      u.currentBowler == inn.currentBowler
  {
  }

  // ---------------------------------------------------------------------
  // The innings invariant

  lemma DeliverRunsConsistent(inn: Innings, runs: int, ballId: string, now: int)
    requires LineupReady(inn) && Consistent(inn)
    ensures Consistent(DeliverRuns(inn, runs, ballId, now))
  {
    var r := DeliverRuns(inn, runs, ballId, now);
    LogRunsAppend(inn.balls, r.balls[|inn.balls|]);
    LogWicketsAppend(inn.balls, r.balls[|inn.balls|]);
  }

  lemma DeliverExtraConsistent(inn: Innings, kind: ExtraKind, runs: int, ballId: string, now: int)
    requires Filled(inn.currentBowler) && Consistent(inn)
    ensures Consistent(DeliverExtra(inn, kind, runs, ballId, now))
  {
    var r := DeliverExtra(inn, kind, runs, ballId, now);
    LogRunsAppend(inn.balls, r.balls[|inn.balls|]);
    LogWicketsAppend(inn.balls, r.balls[|inn.balls|]);
  }

  lemma DeliverWicketConsistent(inn: Innings, kind: WicketType, outPlayerId: Option<PlayerId>,
                                ballId: string, now: int)
    requires LineupReady(inn) && Consistent(inn)
    ensures Consistent(DeliverWicket(inn, kind, outPlayerId, ballId, now))
  {
    var r := DeliverWicket(inn, kind, outPlayerId, ballId, now);
    LogRunsAppend(inn.balls, r.balls[|inn.balls|]);
    LogWicketsAppend(inn.balls, r.balls[|inn.balls|]);
  }

  lemma UndoConsistent(inn: Innings)
    requires Consistent(inn)
    ensures Consistent(UndoInnings(inn))
  {
    if |inn.balls| > 0 {
      LogSplitLast(inn.balls);
    }
  }

  /** Committing a consistent innings keeps the match consistent. */
  lemma CommitConsistent(m: Match, inn: Innings, now: int)
    requires MatchConsistent(m) && Consistent(inn)
    ensures MatchConsistent(WithCurrentInnings(m, inn).(updated := now))
  {
  }

  /** Every scoring call and undo keeps `totalRuns` equal to the runs plus
      extras of the log, `wickets` equal to its wicket balls, and the ball
      in [0, 5], in both innings. */
  lemma RunsAddedConsistent(m: Match, runs: int, ballId: string, now: int)
    requires MatchConsistent(m)
    ensures MatchConsistent(RunsAdded(m, runs, ballId, now))
  {
    var inn := GetCurrentInningsData(m);
    if LineupReady(inn) {
      DeliverRunsConsistent(inn, runs, ballId, now);
      CommitConsistent(m, DeliverRuns(inn, runs, ballId, now), now);
    }
  }

  lemma ExtraAddedConsistent(m: Match, kind: ExtraKind, runs: int, ballId: string, now: int)
    requires MatchConsistent(m)
    ensures MatchConsistent(ExtraAdded(m, kind, runs, ballId, now))
  {
    var inn := GetCurrentInningsData(m);
    if Filled(inn.currentBowler) {
      DeliverExtraConsistent(inn, kind, runs, ballId, now);
      CommitConsistent(m, DeliverExtra(inn, kind, runs, ballId, now), now);
    }
  }

  lemma WicketAddedConsistent(m: Match, kind: WicketType, outPlayerId: Option<PlayerId>,
                              ballId: string, now: int)
    requires MatchConsistent(m)
    ensures MatchConsistent(WicketAdded(m, kind, outPlayerId, ballId, now))
  {
    var inn := GetCurrentInningsData(m);
    if LineupReady(inn) {
      DeliverWicketConsistent(inn, kind, outPlayerId, ballId, now);
      CommitConsistent(m, DeliverWicket(inn, kind, outPlayerId, ballId, now), now);
    }
  }

  lemma LastBallUndoneConsistent(m: Match, now: int)
    requires MatchConsistent(m)
    ensures MatchConsistent(LastBallUndone(m, now))
  {
    var inn := GetCurrentInningsData(m);
    UndoConsistent(inn);
    CommitConsistent(m, UndoInnings(inn), now);
  }

  /** A new match starts consistent. */
  lemma EmptyMatchConsistent(overs: int, id: string, code: string, now: int)
    ensures MatchConsistent(CreateEmptyMatch(overs, id, code, now))
    ensures Tracked(NewInnings())
  {
  }

  // ---------------------------------------------------------------------
  // Position tracks the legal deliveries of the log

  lemma DeliverRunsTracked(inn: Innings, runs: int, ballId: string, now: int)
    requires LineupReady(inn) && Tracked(inn)
    ensures Tracked(DeliverRuns(inn, runs, ballId, now))
  {
    var r := DeliverRuns(inn, runs, ballId, now);
    DeliverRunsConsistent(inn, runs, ballId, now);
    LogLegalBallsAppend(inn.balls, r.balls[|inn.balls|]);
    LegalDeliveryPosition(inn.currentBall);
  }

  lemma DeliverExtraTracked(inn: Innings, kind: ExtraKind, runs: int, ballId: string, now: int)
    requires Filled(inn.currentBowler) && Tracked(inn)
    ensures Tracked(DeliverExtra(inn, kind, runs, ballId, now))
  {
    var r := DeliverExtra(inn, kind, runs, ballId, now);
    DeliverExtraConsistent(inn, kind, runs, ballId, now);
    LogLegalBallsAppend(inn.balls, r.balls[|inn.balls|]);
    LegalDeliveryPosition(inn.currentBall);
  }

  lemma DeliverWicketTracked(inn: Innings, kind: WicketType, outPlayerId: Option<PlayerId>,
                             ballId: string, now: int)
    requires LineupReady(inn) && Tracked(inn)
    ensures Tracked(DeliverWicket(inn, kind, outPlayerId, ballId, now))
  {
    var r := DeliverWicket(inn, kind, outPlayerId, ballId, now);
    DeliverWicketConsistent(inn, kind, outPlayerId, ballId, now);
    LogLegalBallsAppend(inn.balls, r.balls[|inn.balls|]);
    LegalDeliveryPosition(inn.currentBall);
  }

  /** Undoing a legal delivery steps the position back by exactly one ball. */
  lemma UndoLegalTracked(inn: Innings)
    requires Tracked(inn) && |inn.balls| > 0 && IsLegalBall(inn.balls[|inn.balls| - 1])
    ensures Tracked(UndoInnings(inn))
  {
    LogSplitLast(inn.balls);
    UndoConsistent(inn);
  }

  /** Undoing a wide or a no-ball still steps the position back a ball
      although neither moved it: after one from ball b > 0, undo leaves
      ball b - 1, and the position no longer counts the legal deliveries of
      the log. */
  lemma UndoUncountedExtraRewinds(inn: Innings, kind: ExtraKind, runs: int, ballId: string, now: int)
    requires Filled(inn.currentBowler) && Tracked(inn) && inn.currentBall > 0 && !IsLegalExtra(kind)
    ensures var u := UndoInnings(DeliverExtra(inn, kind, runs, ballId, now));
      u.balls == inn.balls && u.currentBall == inn.currentBall - 1 && !Tracked(u)
  {
    var r := DeliverExtra(inn, kind, runs, ballId, now);
    assert r.balls[..|r.balls| - 1] == inn.balls;
  }

  /** A wide or a no-ball bowled at ball 5 is logged as ball 5, so undoing
      it takes an over off the bowler that the extra never added. */
  lemma UndoUncountedExtraAtFiveTakesOver(inn: Innings, kind: ExtraKind, runs: int, ballId: string, now: int)
    requires Filled(inn.currentBowler) && inn.currentBall == 5 && !IsLegalExtra(kind)
    ensures var b := inn.currentBowler.value;
      var r := DeliverExtra(inn, kind, runs, ballId, now);
      var u := UndoInnings(r);
      && r.balls[|r.balls| - 1].ball == 5
      && r.bowlingStats[b].overs == BowlingOf(inn.bowlingStats, b).overs
      && u.bowlingStats[b].overs == BowlingOf(inn.bowlingStats, b).overs - 1
  {
  }

  /** Undoing a wide also takes a ball faced off a striker who already has a
      record, although the wide added none. */
  lemma UndoWideTakesBallFaced(inn: Innings, runs: int, ballId: string, now: int)
    requires Filled(inn.currentBowler) && Filled(inn.striker) && inn.striker.value in inn.battingStats
    ensures var s := inn.striker.value;
      var u := UndoInnings(DeliverExtra(inn, Wide, runs, ballId, now));
      s in u.battingStats && u.battingStats[s].ballsFaced == inn.battingStats[s].ballsFaced - 1
  {
  }

  // ---------------------------------------------------------------------
  // Undo as the inverse of a scoring call

  /** After runs that are not odd, from a ball that cannot end the over and
      is not numbered 5, undo restores the innings exactly, except that
      striker and bowler now have a record even if they had none. */
  lemma UndoAfterEvenRuns(inn: Innings, runs: int, ballId: string, now: int)
    requires LineupReady(inn) && !IsOdd(runs) && 0 <= inn.currentBall <= 3
    ensures var s, b := inn.striker.value, inn.currentBowler.value;
      UndoInnings(DeliverRuns(inn, runs, ballId, now)) ==
      inn.(battingStats := inn.battingStats[s := BattingOf(inn.battingStats, s)],
           bowlingStats := inn.bowlingStats[b := BowlingOf(inn.bowlingStats, b)])
  {
    var r := DeliverRuns(inn, runs, ballId, now);
    assert r.balls[..|r.balls| - 1] == inn.balls;
  }

  /** Undo of the fifth ball of an over (recorded as ball 5) takes an over
      off the bowler that was never added. */
  lemma UndoFifthBallTakesOver(inn: Innings, runs: int, ballId: string, now: int)
    requires LineupReady(inn) && !IsOdd(runs) && inn.currentBall == 4
    ensures var b := inn.currentBowler.value;
      var u := UndoInnings(DeliverRuns(inn, runs, ballId, now));
      u.currentBall == 4 && u.bowlingStats[b].overs == BowlingOf(inn.bowlingStats, b).overs - 1
  {
  }

  /** Undo of the ball that completed an over (recorded as ball 6) keeps the
      over credited to the bowler and keeps the end-of-over swap. */
  lemma UndoOverEndKeepsOverAndSwap(inn: Innings, runs: int, ballId: string, now: int)
    requires LineupReady(inn) && inn.currentBall == 5 && inn.currentOver >= 0
    ensures var b := inn.currentBowler.value;
      var u := UndoInnings(DeliverRuns(inn, runs, ballId, now));
      u.currentBall == 5 && u.currentOver == inn.currentOver &&
      u.bowlingStats[b].overs == BowlingOf(inn.bowlingStats, b).overs + 1 &&
      u.striker == inn.nonStriker && u.nonStriker == inn.striker
  {
  }

  /** Undo of odd runs leaves the batters at the ends the runs put them. */
  lemma UndoOddRunsKeepsSwap(inn: Innings, runs: int, ballId: string, now: int)
    requires LineupReady(inn) && IsOdd(runs) && 0 <= inn.currentBall <= 4
    ensures var u := UndoInnings(DeliverRuns(inn, runs, ballId, now));
      u.striker == inn.nonStriker && u.nonStriker == inn.striker
  {
  }

  /** Undo of a wicket takes the wicket off and clears the out flag but
      leaves the slot empty and the dismissal kind and bowler on the record. */
  lemma UndoWicketLeavesDismissal(inn: Innings, kind: WicketType, ballId: string, now: int)
    requires LineupReady(inn) && 0 <= inn.currentBall <= 3 && kind != RunOut
    ensures var s, b := inn.striker.value, inn.currentBowler.value;
      var u := UndoInnings(DeliverWicket(inn, kind, None, ballId, now));
      u.wickets == inn.wickets && u.striker == None &&
      s in u.battingStats && !u.battingStats[s].isOut &&
      u.battingStats[s].wicketType == Some(kind) && u.battingStats[s].bowlerId == Some(b)
  {
  }

  // ---------------------------------------------------------------------
  // Departures from the rules of the game

  /** A wide with odd runs swaps ends when both batters are set. */
  lemma WideOddRunsSwap(inn: Innings, runs: int, ballId: string, now: int)
    requires Filled(inn.currentBowler) && Filled(inn.striker) && Filled(inn.nonStriker) && IsOdd(runs)
    ensures var r := DeliverExtra(inn, Wide, runs, ballId, now);
      r.striker == inn.nonStriker && r.nonStriker == inn.striker
  {
  }

  /** A wicket on the sixth ball ends the over without a swap: the survivor
      stays at the non-striker's end and the striker's slot is empty. */
  lemma WicketOverEndNoSwap(inn: Innings, kind: WicketType, ballId: string, now: int)
    requires LineupReady(inn) && inn.currentBall == 5 && inn.striker != inn.nonStriker
    ensures var r := DeliverWicket(inn, kind, None, ballId, now);
      r.currentBall == 0 && r.currentOver == inn.currentOver + 1 &&
      r.striker == None && r.nonStriker == inn.nonStriker
  {
  }

  /** With a dismissed player given, the ball's `batsmanId` is that player,
      not the striker who faced it. */
  lemma WicketBallNamesDismissed(inn: Innings, kind: WicketType, out: PlayerId, ballId: string, now: int)
    requires LineupReady(inn) && out != ""
    ensures var r := DeliverWicket(inn, kind, Some(out), ballId, now);
      r.balls[|r.balls| - 1].batsmanId == out
  {
  }

  /** For hit wicket, retired and the other uncredited kinds except run out,
      the batter's record names the bowler although the bowler gets no wicket. */
  lemma BowlerNamedWithoutCredit(inn: Innings, kind: WicketType, ballId: string, now: int)
    requires LineupReady(inn) && kind != RunOut && !BowlerCredited(kind)
    ensures var s, b := inn.striker.value, inn.currentBowler.value;
      var r := DeliverWicket(inn, kind, None, ballId, now);
      r.battingStats[s].bowlerId == Some(b) &&
      r.bowlingStats[b].wickets == BowlingOf(inn.bowlingStats, b).wickets
  {
  }

  /** Nothing caps the wickets at ten. */
  lemma WicketsNotCapped(inn: Innings, kind: WicketType, ballId: string, now: int)
    requires LineupReady(inn) && inn.wickets == 10
    ensures DeliverWicket(inn, kind, None, ballId, now).wickets == 11
  {
  }

  /** The scoring calls never look at the match status and never change it. */
  lemma ScoringIgnoresStatus(m: Match, st: MatchStatus, kind: ExtraKind, wicket: WicketType,
                             outPlayerId: Option<PlayerId>, runs: int, ballId: string, now: int)
    ensures RunsAdded(m.(status := st), runs, ballId, now) == RunsAdded(m, runs, ballId, now).(status := st)
    ensures ExtraAdded(m.(status := st), kind, runs, ballId, now) == ExtraAdded(m, kind, runs, ballId, now).(status := st)
    ensures WicketAdded(m.(status := st), wicket, outPlayerId, ballId, now) ==
            WicketAdded(m, wicket, outPlayerId, ballId, now).(status := st)
    ensures LastBallUndone(m.(status := st), now) == LastBallUndone(m, now).(status := st)
  {
  }

  // ---------------------------------------------------------------------
  // The line-up checks

  /** `addRuns` and `addWicket` change nothing unless striker, non-striker
      and bowler are set; `addExtra` needs only the bowler. Otherwise each
      appends exactly one ball to the current innings. */
  lemma LineupGuards(m: Match, kind: ExtraKind, wicket: WicketType,
                     outPlayerId: Option<PlayerId>, runs: int, ballId: string, now: int)
    ensures var inn := GetCurrentInningsData(m);
      && (RunsAdded(m, runs, ballId, now) != m <==> LineupReady(inn))
      && (WicketAdded(m, wicket, outPlayerId, ballId, now) != m <==> LineupReady(inn))
      && (ExtraAdded(m, kind, runs, ballId, now) != m <==> Filled(inn.currentBowler))
      && (LineupReady(inn) ==>
            |GetCurrentInningsData(RunsAdded(m, runs, ballId, now)).balls| == |inn.balls| + 1 &&
            |GetCurrentInningsData(WicketAdded(m, wicket, outPlayerId, ballId, now)).balls| == |inn.balls| + 1)
      && (Filled(inn.currentBowler) ==>
            |GetCurrentInningsData(ExtraAdded(m, kind, runs, ballId, now)).balls| == |inn.balls| + 1)
  {
    RunsGuard(m, runs, ballId, now);
    WicketGuard(m, wicket, outPlayerId, ballId, now);
    ExtraGuard(m, kind, runs, ballId, now);
  }

  /** The `addRuns` part of `LineupGuards`. */
  lemma RunsGuard(m: Match, runs: int, ballId: string, now: int)
    ensures var inn := GetCurrentInningsData(m);
      && (RunsAdded(m, runs, ballId, now) != m <==> LineupReady(inn))
      && (LineupReady(inn) ==>
            |GetCurrentInningsData(RunsAdded(m, runs, ballId, now)).balls| == |inn.balls| + 1)
  {
    var inn := GetCurrentInningsData(m);
    if LineupReady(inn) {
      CurrentInningsRoundTrip(m, DeliverRuns(inn, runs, ballId, now));
    }
  }

  /** The `addWicket` part of `LineupGuards`. */
  lemma WicketGuard(m: Match, wicket: WicketType, outPlayerId: Option<PlayerId>, ballId: string, now: int)
    ensures var inn := GetCurrentInningsData(m);
      && (WicketAdded(m, wicket, outPlayerId, ballId, now) != m <==> LineupReady(inn))
      && (LineupReady(inn) ==>
            |GetCurrentInningsData(WicketAdded(m, wicket, outPlayerId, ballId, now)).balls| == |inn.balls| + 1)
  {
    var inn := GetCurrentInningsData(m);
    if LineupReady(inn) {
      CurrentInningsRoundTrip(m, DeliverWicket(inn, wicket, outPlayerId, ballId, now));
    }
  }

  /** The `addExtra` part of `LineupGuards`. */
  lemma ExtraGuard(m: Match, kind: ExtraKind, runs: int, ballId: string, now: int)
    ensures var inn := GetCurrentInningsData(m);
      && (ExtraAdded(m, kind, runs, ballId, now) != m <==> Filled(inn.currentBowler))
      && (Filled(inn.currentBowler) ==>
            |GetCurrentInningsData(ExtraAdded(m, kind, runs, ballId, now)).balls| == |inn.balls| + 1)
  {
    var inn := GetCurrentInningsData(m);
    if Filled(inn.currentBowler) {
      CurrentInningsRoundTrip(m, DeliverExtra(inn, kind, runs, ballId, now));
    }
  }
}
