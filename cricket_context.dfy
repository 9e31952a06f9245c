/** The scoring context's provider (src/context/CricketContext.tsx): one
    object whose field `current` is the single `match` state. The scoring calls and undo
    work as the source does, copying the stat maps, updating entries key by
    key and deciding over, ball and ends in local variables before
    committing the new match; each is proved equal to its reference
    function in module Scoring. The other calls commit the pure update of
    modules MatchState and Roster. */
module CricketContext {
  import opened CricketTypes
  import opened MatchState
  import opened Scoring
  import opened ScoringProperties
  import Roster

  class Scorer {
    var current: Match

    /** Both innings keep their totals equal to their logs. */
    ghost predicate Valid()
      reads this
    {
      MatchConsistent(current)
    }

    /** `createMatch`. */
    constructor (totalOvers: int, id: string, code: string, now: int)
      ensures Valid()
      ensures current == CreateEmptyMatch(totalOvers, id, code, now)
    {
      current := CreateEmptyMatch(totalOvers, id, code, now);
    }

    /** `addRuns`. */
    method AddRuns(runs: int, ballId: string, now: int)
      requires Valid()
      modifies this
      ensures Valid()
      ensures current == RunsAdded(old(current), runs, ballId, now)
    {
      var m := current;
      var inn := GetCurrentInningsData(m);
      if !Filled(inn.striker) || !Filled(inn.nonStriker) || !Filled(inn.currentBowler) {
        assert m == RunsAdded(m, runs, ballId, now);
        return;
      }
      var next := RunsInnings(inn, runs, ballId, now);
      var r := WithCurrentInnings(m, next).(updated := now);
      assert r == RunsAdded(m, runs, ballId, now);
      RunsAddedConsistent(m, runs, ballId, now);
      current := r;
    }

    /** `addExtra`. */
    method AddExtra(kind: ExtraKind, runs: int, ballId: string, now: int)
      requires Valid()
      modifies this
      ensures Valid()
      ensures current == ExtraAdded(old(current), kind, runs, ballId, now)
    {
      var m := current;
      var inn := GetCurrentInningsData(m);
      if !Filled(inn.currentBowler) {
        assert m == ExtraAdded(m, kind, runs, ballId, now);
        return;
      }
      var next := ExtraInnings(inn, kind, runs, ballId, now);
      var r := WithCurrentInnings(m, next).(updated := now);
      assert r == ExtraAdded(m, kind, runs, ballId, now);
      ExtraAddedConsistent(m, kind, runs, ballId, now);
      current := r;
    }

    /** `addWicket`; `outPlayerId` is the optional dismissed player. */
    method AddWicket(kind: WicketType, outPlayerId: Option<PlayerId>, ballId: string, now: int)
      requires Valid()
      modifies this
      ensures Valid()
      ensures current == WicketAdded(old(current), kind, outPlayerId, ballId, now)
    {
      var m := current;
      var inn := GetCurrentInningsData(m);
      if !Filled(inn.striker) || !Filled(inn.nonStriker) || !Filled(inn.currentBowler) {
        assert m == WicketAdded(m, kind, outPlayerId, ballId, now);
        return;
      }
      var next := WicketInnings(inn, kind, outPlayerId, ballId, now);
      var r := WithCurrentInnings(m, next).(updated := now);
      assert r == WicketAdded(m, kind, outPlayerId, ballId, now);
      WicketAddedConsistent(m, kind, outPlayerId, ballId, now);
      current := r;
    }

    /** `undoLastBall`. */
    method UndoLastBall(now: int)
      requires Valid()
      modifies this
      ensures Valid()
      ensures current == LastBallUndone(old(current), now)
    {
      var m := current;
      var inn := GetCurrentInningsData(m);
      if |inn.balls| == 0 {
        assert m == LastBallUndone(m, now);
        return;
      }
      var next := UndoneInnings(inn);
      var r := WithCurrentInnings(m, next).(updated := now);
      assert r == LastBallUndone(m, now);
      LastBallUndoneConsistent(m, now);
      current := r;
    }

    /** `changeBowler`. */
    method ChangeBowler(playerId: PlayerId, now: int)
      requires Valid()
      modifies this
      ensures Valid()
      ensures current == MatchState.ChangeBowler(old(current), playerId, now)
    {
      current := MatchState.ChangeBowler(current, playerId, now);
    }

    /** `changeStriker`. */
    method ChangeStriker(playerId: Option<PlayerId>, now: int)
      requires Valid()
      modifies this
      ensures Valid()
      ensures current == MatchState.ChangeStriker(old(current), playerId, now)
    {
      current := MatchState.ChangeStriker(current, playerId, now);
    }

    /** `changeNonStriker`. */
    method ChangeNonStriker(playerId: Option<PlayerId>, now: int)
      requires Valid()
      modifies this
      ensures Valid()
      ensures current == MatchState.ChangeNonStriker(old(current), playerId, now)
    {
      current := MatchState.ChangeNonStriker(current, playerId, now);
    }

    /** `performToss`. */
    method PerformToss(winner: TeamSlot, decision: TossDecision)
      requires Valid()
      modifies this
      ensures Valid()
      ensures current == MatchState.PerformToss(old(current), winner, decision)
    {
      current := MatchState.PerformToss(current, winner, decision);
    }

    /** `startInnings`. */
    method StartInnings(now: int)
      requires Valid()
      modifies this
      ensures Valid()
      ensures current == MatchState.StartInnings(old(current), now)
    {
      current := MatchState.StartInnings(current, now);
    }

    /** `endInnings`. */
    method EndInnings(now: int)
      requires Valid()
      modifies this
      ensures Valid()
      ensures current == MatchState.EndInnings(old(current), now)
    {
      current := MatchState.EndInnings(current, now);
    }

    /** `setTeamName`. */
    method SetTeamName(t: TeamSlot, name: string)
      requires Valid()
      modifies this
      ensures Valid()
      ensures current == Roster.SetTeamName(old(current), t, name)
    {
      current := Roster.SetTeamName(current, t, name);
    }

    /** `addPlayer`; `id` stands for the generated uuid. */
    method AddPlayer(t: TeamSlot, name: string, id: PlayerId)
      requires Valid()
      modifies this
      ensures Valid()
      ensures current == Roster.AddPlayer(old(current), t, name, id)
    {
      current := Roster.AddPlayer(current, t, name, id);
    }

    /** `removePlayer`. */
    method RemovePlayer(t: TeamSlot, id: PlayerId)
      requires Valid()
      modifies this
      ensures Valid()
      ensures current == Roster.RemovePlayer(old(current), t, id)
    {
      current := Roster.RemovePlayer(current, t, id);
    }

    /** `toggleCaptain`. */
    method ToggleCaptain(t: TeamSlot, id: PlayerId)
      requires Valid()
      modifies this
      ensures Valid()
      ensures current == Roster.ToggleCaptain(old(current), t, id)
    {
      current := Roster.ToggleCaptain(current, t, id);
    }

    /** `toggleWicketkeeper`. */
    method ToggleWicketkeeper(t: TeamSlot, id: PlayerId)
      requires Valid()
      modifies this
      ensures Valid()
      ensures current == Roster.ToggleWicketkeeper(old(current), t, id)
    {
      current := Roster.ToggleWicketkeeper(current, t, id);
    }
  }

  // ---------------------------------------------------------------------
  // The stat-map blocks of the scoring calls, each on a copy of one map

  /** `addRuns`, batting block: the striker's record is created when
      missing, then credited with the runs. */
  method CreditStriker(stats: map<PlayerId, BattingStats>, striker: PlayerId, runs: int)
    returns (r: map<PlayerId, BattingStats>)
    ensures r == stats[striker := CreditRuns(BattingOf(stats, striker), runs)]
  {
    r := stats;
    if striker !in r {
      r := r[striker := BattingStats(striker, 0, 0, 0, 0, 0, false, None, None)];
    }
    var bat := r[striker];
    r := r[striker := bat.(
      runs := bat.runs + runs,
      ballsFaced := bat.ballsFaced + 1,
      fours := if runs == 4 then bat.fours + 1 else bat.fours,
      sixes := if runs == 6 then bat.sixes + 1 else bat.sixes,
      dotBalls := if runs == 0 then bat.dotBalls + 1 else bat.dotBalls)];
  }

  /** `addRuns`, bowling block: the bowler's record is created when
      missing, then charged the runs. */
  method ChargeBowler(stats: map<PlayerId, BowlingStats>, bowler: PlayerId, runs: int)
    returns (r: map<PlayerId, BowlingStats>)
    ensures r == stats[bowler := ConcedeRuns(BowlingOf(stats, bowler), runs)]
  {
    r := stats;
    if bowler !in r {
      r := r[bowler := BowlingStats(bowler, 0, 0, 0, 0, 0)];
    }
    var bowl := r[bowler];
    r := r[bowler := bowl.(
      runs := bowl.runs + runs,
      dots := if runs == 0 then bowl.dots + 1 else bowl.dots)];
  }

  /** `addRuns` past the line-up check: the ball logged, striker and bowler
      credited, the over closed on the sixth legal ball and the ends changed
      on odd runs or at the over's end. */
  method RunsInnings(inn: Innings, runs: int, ballId: string, now: int)
    returns (next: Innings)
    requires LineupReady(inn)
    ensures next == DeliverRuns(inn, runs, ballId, now)
  {
    ghost var spec := DeliverRuns(inn, runs, ballId, now);
    var striker, bowler := inn.striker.value, inn.currentBowler.value;
    var ball := BallData(ballId, inn.currentOver, inn.currentBall + 1, striker, bowler,
                         runs, 0, None, false, None, None, now);
    var batting := CreditStriker(inn.battingStats, striker, runs);
    var bowling := ChargeBowler(inn.bowlingStats, bowler, runs);

    var newOver := inn.currentOver;
    var nextBall := JsRem(inn.currentBall + 1, 6);
    var newStriker, newNonStriker := inn.striker, inn.nonStriker;
    if nextBall == 0 {
      newOver := newOver + 1;
      bowling := BowlOver(bowling, bowler);
      newStriker, newNonStriker := inn.nonStriker, inn.striker;
    } else if JsRem(runs, 2) == 1 {
      newStriker, newNonStriker := inn.nonStriker, inn.striker;
    }
    assert bowling == spec.bowlingStats;

    next := inn.(
      balls := inn.balls + [ball],
      currentOver := newOver,
      currentBall := nextBall,
      totalRuns := inn.totalRuns + runs,
      battingStats := batting,
      bowlingStats := bowling,
      striker := newStriker,
      nonStriker := newNonStriker);
    assert next.striker == spec.striker && next.nonStriker == spec.nonStriker;
    assert next == spec;
  }

  /** `addExtra` past the bowler check: the ball logged, the extra charged,
      the ball counted for byes and leg-byes only, the ends changed on odd
      runs or at the over's end when both ends are filled. */
  method ExtraInnings(inn: Innings, kind: ExtraKind, runs: int, ballId: string, now: int)
    returns (next: Innings)
    requires Filled(inn.currentBowler)
    ensures next == DeliverExtra(inn, kind, runs, ballId, now)
  {
    ghost var spec := DeliverExtra(inn, kind, runs, ballId, now);
    var bowler := inn.currentBowler.value;
    var striker := if Filled(inn.striker) then inn.striker.value else "";
    var notLegal := kind == Wide || kind == NoBall;
    var ball := BallData(ballId, inn.currentOver,
                         if notLegal then inn.currentBall else inn.currentBall + 1,
                         striker, bowler, 0, runs, Some(kind), false, None, None, now);
    var bowling := ChargeExtra(inn.bowlingStats, bowler, kind, runs);
    var batting := FaceExtraBall(inn.battingStats, kind, inn.striker);

    var newStriker, newNonStriker := inn.striker, inn.nonStriker;
    if JsRem(runs, 2) == 1 && Filled(inn.striker) && Filled(inn.nonStriker) {
      newStriker, newNonStriker := inn.nonStriker, inn.striker;
    }

    var newOver := inn.currentOver;
    var nextBall := if notLegal then inn.currentBall else JsRem(inn.currentBall + 1, 6);
    if !notLegal && nextBall == 0 {
      newOver := newOver + 1;
      bowling := BowlOver(bowling, bowler);
      if Filled(inn.striker) && Filled(inn.nonStriker) {
        newStriker, newNonStriker := inn.nonStriker, inn.striker;
      }
    }
    assert bowling == spec.bowlingStats;

    next := inn.(
      balls := inn.balls + [ball],
      currentOver := newOver,
      currentBall := nextBall,
      totalRuns := inn.totalRuns + runs,
      battingStats := batting,
      bowlingStats := bowling,
      striker := newStriker,
      nonStriker := newNonStriker);
    assert next.striker == spec.striker && next.nonStriker == spec.nonStriker;
    assert next == spec;
  }

  /** `undoLastBall` on a non-empty log: the last ball dropped, the count
      stepped back and the last ball's amounts taken off the totals and the
      two records. */
  method UndoneInnings(inn: Innings) returns (next: Innings)
    requires |inn.balls| > 0
    ensures next == UndoInnings(inn)
  {
    var last := inn.balls[|inn.balls| - 1];
    var balls := inn.balls[..|inn.balls| - 1];

    var over, ball := inn.currentOver, inn.currentBall;
    if ball == 0 && over > 0 {
      over, ball := over - 1, 5;
    } else if ball > 0 {
      ball := ball - 1;
    }

    var totalRuns := inn.totalRuns - (last.runs + last.extras);
    var wickets := if last.isWicket then inn.wickets - 1 else inn.wickets;
    var batting := UncreditLast(inn.battingStats, last);
    var bowling := UnchargeLast(inn.bowlingStats, last);

    next := inn.(
      balls := balls,
      currentOver := over,
      currentBall := ball,
      totalRuns := totalRuns,
      wickets := wickets,
      battingStats := batting,
      bowlingStats := bowling);
    assert next == UndoInnings(inn);
  }

  /** `addWicket` past the line-up check: the ball logged, the dismissed
      batter and the bowler credited, the over closed on the sixth legal
      ball and the dismissed player's slot emptied. */
  method WicketInnings(inn: Innings, kind: WicketType, outPlayerId: Option<PlayerId>,
                       ballId: string, now: int)
    returns (next: Innings)
    requires LineupReady(inn)
    ensures next == DeliverWicket(inn, kind, outPlayerId, ballId, now)
  {
    ghost var spec := DeliverWicket(inn, kind, outPlayerId, ballId, now);
    var bowler := inn.currentBowler.value;
    var outId := if Filled(outPlayerId) then outPlayerId.value else inn.striker.value;
    var ball := BallData(ballId, inn.currentOver, inn.currentBall + 1, outId, bowler,
                         0, 0, None, true, Some(kind), Some(outId), now);
    assert outId == DismissedId(inn, outPlayerId);
    var batting := DismissBatter(inn.battingStats, outId, kind, bowler);
    var bowling := CreditWicket(inn.bowlingStats, bowler, kind);
    assert batting == spec.battingStats;

    var newOver := inn.currentOver;
    var nextBall := JsRem(inn.currentBall + 1, 6);
    if nextBall == 0 {
      newOver := newOver + 1;
      bowling := BowlOver(bowling, bowler);
    }
    assert bowling == spec.bowlingStats;

    var newStriker := if Some(outId) == inn.striker then None else inn.striker;
    var newNonStriker := if Some(outId) == inn.nonStriker then None else inn.nonStriker;

    next := inn.(
      balls := inn.balls + [ball],
      currentOver := newOver,
      currentBall := nextBall,
      wickets := inn.wickets + 1,
      battingStats := batting,
      bowlingStats := bowling,
      striker := newStriker,
      nonStriker := newNonStriker);
    assert next.striker == spec.striker && next.nonStriker == spec.nonStriker;
    assert next == spec;
  }

  /** The over-complete branch: one more over for the bowler. */
  method BowlOver(stats: map<PlayerId, BowlingStats>, bowler: PlayerId)
    returns (r: map<PlayerId, BowlingStats>)
    requires bowler in stats
    ensures r == stats[bowler := CompleteOver(stats[bowler])]
  {
    var bowl := stats[bowler];
    r := stats[bowler := bowl.(overs := bowl.overs + 1)];
  }

  /** `addExtra`, bowling block: the record created when missing, the runs
      added for a wide or a no-ball only. */
  method ChargeExtra(stats: map<PlayerId, BowlingStats>, bowler: PlayerId, kind: ExtraKind, runs: int)
    returns (r: map<PlayerId, BowlingStats>)
    ensures r == stats[bowler := ConcedeExtra(BowlingOf(stats, bowler), kind, runs)]
  {
    r := stats;
    if bowler !in r {
      r := r[bowler := BowlingStats(bowler, 0, 0, 0, 0, 0)];
    }
    if kind == Wide || kind == NoBall {
      var bowl := r[bowler];
      r := r[bowler := bowl.(runs := bowl.runs + runs)];
    }
  }

  /** `addExtra`, batting block: a ball faced by a set striker on anything
      but a wide. */
  method FaceExtraBall(stats: map<PlayerId, BattingStats>, kind: ExtraKind, striker: Option<PlayerId>)
    returns (r: map<PlayerId, BattingStats>)
    ensures kind != Wide && Filled(striker) ==>
      r == stats[striker.value := FaceExtra(BattingOf(stats, striker.value))]
    ensures !(kind != Wide && Filled(striker)) ==> r == stats
  {
    r := stats;
    if kind != Wide && Filled(striker) && striker.value !in r {
      r := r[striker.value := BattingStats(striker.value, 0, 0, 0, 0, 0, false, None, None)];
    }
    if kind != Wide && Filled(striker) {
      var bat := r[striker.value];
      r := r[striker.value := bat.(ballsFaced := bat.ballsFaced + 1)];
    }
  }

  /** `addWicket`, batting block: the dismissed player's record. */
  method DismissBatter(stats: map<PlayerId, BattingStats>, out: PlayerId, kind: WicketType, bowler: PlayerId)
    returns (r: map<PlayerId, BattingStats>)
    ensures r == stats[out := Dismiss(BattingOf(stats, out), kind, bowler)]
  {
    r := stats;
    if out !in r {
      r := r[out := BattingStats(out, 0, 0, 0, 0, 0, false, None, None)];
    }
    var bat := r[out];
    r := r[out := bat.(
      ballsFaced := bat.ballsFaced + 1,
      dotBalls := bat.dotBalls + 1,
      isOut := true,
      wicketType := Some(kind),
      bowlerId := if kind != RunOut then Some(bowler) else None)];
  }

  /** `addWicket`, bowling block: a dot, and a wicket for the four credited kinds. */
  method CreditWicket(stats: map<PlayerId, BowlingStats>, bowler: PlayerId, kind: WicketType)
    returns (r: map<PlayerId, BowlingStats>)
    ensures r == stats[bowler := TakeWicket(BowlingOf(stats, bowler), kind)]
  {
    r := stats;
    if bowler !in r {
      r := r[bowler := BowlingStats(bowler, 0, 0, 0, 0, 0)];
    }
    var bowl := r[bowler];
    if kind in {Bowled, Caught, Lbw, Stumped} {
      r := r[bowler := bowl.(wickets := bowl.wickets + 1, dots := bowl.dots + 1)];
    } else {
      r := r[bowler := bowl.(dots := bowl.dots + 1)];
    }
  }

  /** `undoLastBall`, batting block: only an existing record of a named batter changes. */
  method UncreditLast(stats: map<PlayerId, BattingStats>, last: BallData)
    returns (r: map<PlayerId, BattingStats>)
    ensures last.batsmanId != "" && last.batsmanId in stats ==>
      r == stats[last.batsmanId := UncreditBatter(stats[last.batsmanId], last)]
    ensures !(last.batsmanId != "" && last.batsmanId in stats) ==> r == stats
  {
    r := stats;
    if last.batsmanId != "" && last.batsmanId in r {
      var bat := r[last.batsmanId];
      r := r[last.batsmanId := bat.(
        runs := bat.runs - last.runs,
        ballsFaced := bat.ballsFaced - 1,
        fours := if last.runs == 4 then bat.fours - 1 else bat.fours,
        sixes := if last.runs == 6 then bat.sixes - 1 else bat.sixes,
        dotBalls := if last.runs == 0 && last.extras == 0 then bat.dotBalls - 1 else bat.dotBalls,
        isOut := if last.isWicket && last.wicketPlayerId == Some(last.batsmanId) then false else bat.isOut)];
    }
  }

  /** `undoLastBall`, bowling block: only an existing record of a named bowler changes. */
  method UnchargeLast(stats: map<PlayerId, BowlingStats>, last: BallData)
    returns (r: map<PlayerId, BowlingStats>)
    ensures last.bowlerId != "" && last.bowlerId in stats ==>
      r == stats[last.bowlerId := UnchargeBowler(stats[last.bowlerId], last)]
    ensures !(last.bowlerId != "" && last.bowlerId in stats) ==> r == stats
  {
    r := stats;
    if last.bowlerId != "" && last.bowlerId in r {
      var bowl := r[last.bowlerId];
      var runsToRemove := if last.extraType == Some(Bye) || last.extraType == Some(LegBye)
                          then last.runs else last.runs + last.extras;
      var wicketToRemove := if last.isWicket && last.wicketType.Some? &&
                               last.wicketType.value in {Bowled, Caught, Lbw, Stumped}
                            then 1 else 0;
      r := r[last.bowlerId := bowl.(
        runs := bowl.runs - runsToRemove,
        wickets := bowl.wickets - wicketToRemove,
        dots := if last.runs == 0 && last.extras == 0 then bowl.dots - 1 else bowl.dots,
        overs := if last.ball == 5 then bowl.overs - 1 else bowl.overs)];
    }
  }
}
