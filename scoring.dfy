/** The ball-by-ball scoring rules of src/context/CricketContext.tsx as
    functions on values: the per-player ledger updates, the over/strike
    tracker, one function per scoring event on an innings (addRuns,
    addExtra, addWicket, undoLastBall), and the match-level versions that
    check the line-up, write the current innings and stamp `updated`.
    The imperative methods of CricketContext.Scorer are proved equal to
    these. */
module Scoring {
  import opened CricketTypes
  import opened MatchState

  // ---------------------------------------------------------------------
  // Statistic ledger

  /** The record created for a batter on their first ball. */
  function NewBatting(id: PlayerId): BattingStats {
    BattingStats(id, 0, 0, 0, 0, 0, false, None, None)
  }

  /** The record created for a bowler on their first ball. */
  function NewBowling(id: PlayerId): BowlingStats {
    BowlingStats(id, 0, 0, 0, 0, 0)
  }

  /** A batter's record, or the fresh one the source would create. */
  function BattingOf(stats: map<PlayerId, BattingStats>, id: PlayerId): BattingStats {
    if id in stats then stats[id] else NewBatting(id)
  }

  function BowlingOf(stats: map<PlayerId, BowlingStats>, id: PlayerId): BowlingStats {
    if id in stats then stats[id] else NewBowling(id)
  }

  /** Runs off the bat for the striker: one ball faced, a four, six or dot
      counted when the runs are 4, 6 or 0. */
  function CreditRuns(s: BattingStats, runs: int): BattingStats {
    s.(runs := s.runs + runs,
       ballsFaced := s.ballsFaced + 1,
       fours := if runs == 4 then s.fours + 1 else s.fours,
       sixes := if runs == 6 then s.sixes + 1 else s.sixes,
       dotBalls := if runs == 0 then s.dotBalls + 1 else s.dotBalls)
  }

  /** Runs off the bat against the bowler, a dot when there were none. */
  function ConcedeRuns(w: BowlingStats, runs: int): BowlingStats {
    w.(runs := w.runs + runs, dots := if runs == 0 then w.dots + 1 else w.dots)
  }

  /** Wides and no-balls are charged to the bowler, byes and leg-byes are not. */
  predicate ChargedToBowler(kind: ExtraKind) {
    kind == Wide || kind == NoBall
  }

  function ConcedeExtra(w: BowlingStats, kind: ExtraKind, runs: int): BowlingStats {
    if ChargedToBowler(kind) then w.(runs := w.runs + runs) else w
  }

  /** An extra other than a wide counts as a ball faced. */
  function FaceExtra(s: BattingStats): BattingStats {
    s.(ballsFaced := s.ballsFaced + 1)
  }

  /** The dismissals the bowler is credited with. */
  predicate BowlerCredited(kind: WicketType) {
    kind == Bowled || kind == Caught || kind == Lbw || kind == Stumped
  }

  /** The dismissed batter: out, a ball and a dot, the kind, and the bowler
      named for every kind but a run out. */
  function Dismiss(s: BattingStats, kind: WicketType, bowler: PlayerId): BattingStats {
    s.(ballsFaced := s.ballsFaced + 1,
       dotBalls := s.dotBalls + 1,
       isOut := true,
       wicketType := Some(kind),
       bowlerId := if kind == RunOut then None else Some(bowler))
  }

  /** The bowler on a wicket ball: always a dot, a wicket only when credited. */
  function TakeWicket(w: BowlingStats, kind: WicketType): BowlingStats {
    if BowlerCredited(kind) then w.(wickets := w.wickets + 1, dots := w.dots + 1)
    else w.(dots := w.dots + 1)
  }

  function CompleteOver(w: BowlingStats): BowlingStats {
    w.(overs := w.overs + 1)
  }

  // ---------------------------------------------------------------------
  // Over/strike tracker

  /** The ball position after a legal delivery, `(currentBall + 1) % 6`. */
  function NextBall(ball: int): int {
    JsRem(ball + 1, 6)
  }

  /** A legal delivery from this position completes the over. */
  predicate EndsOver(ball: int) {
    NextBall(ball) == 0
  }

  /** A wide or a no-ball does not advance the position. */
  predicate IsLegalExtra(kind: ExtraKind) {
    kind == Bye || kind == LegBye
  }

  /** What `addRuns` and `addWicket` check: striker, non-striker and bowler set. */
  predicate LineupReady(inn: Innings) {
    Filled(inn.striker) && Filled(inn.nonStriker) && Filled(inn.currentBowler)
  }

  // ---------------------------------------------------------------------
  // One event on an innings

  /** `addRuns` once the line-up check has passed. */
  function DeliverRuns(inn: Innings, runs: int, ballId: string, now: int): (r: Innings)
    requires LineupReady(inn)
    ensures |r.balls| == |inn.balls| + 1 && r.balls[..|inn.balls|] == inn.balls
    ensures r.totalRuns == inn.totalRuns + runs && r.wickets == inn.wickets
    ensures {r.striker, r.nonStriker} == {inn.striker, inn.nonStriker}
    ensures r.currentBowler == inn.currentBowler
  {
    var s, b := inn.striker.value, inn.currentBowler.value;
    var ends := EndsOver(inn.currentBall);
    var swap := ends || IsOdd(runs);
    var bowler := ConcedeRuns(BowlingOf(inn.bowlingStats, b), runs);
    inn.(
      balls := inn.balls + [BallData(ballId, inn.currentOver, inn.currentBall + 1, s, b,
                                     runs, 0, None, false, None, None, now)],
      currentOver := if ends then inn.currentOver + 1 else inn.currentOver,
      currentBall := NextBall(inn.currentBall),
      totalRuns := inn.totalRuns + runs,
      battingStats := inn.battingStats[s := CreditRuns(BattingOf(inn.battingStats, s), runs)],
      bowlingStats := inn.bowlingStats[b := if ends then CompleteOver(bowler) else bowler],
      striker := if swap then inn.nonStriker else inn.striker,
      nonStriker := if swap then inn.striker else inn.nonStriker)
  }

  /** `addExtra` once a bowler is set. */
  function DeliverExtra(inn: Innings, kind: ExtraKind, runs: int, ballId: string, now: int): (r: Innings)
    requires Filled(inn.currentBowler)
    ensures |r.balls| == |inn.balls| + 1 && r.balls[..|inn.balls|] == inn.balls
    ensures r.totalRuns == inn.totalRuns + runs && r.wickets == inn.wickets
    ensures {r.striker, r.nonStriker} == {inn.striker, inn.nonStriker}
    ensures r.currentBowler == inn.currentBowler
  {
    var b := inn.currentBowler.value;
    var legal := IsLegalExtra(kind);
    var ends := legal && EndsOver(inn.currentBall);
    var faces := kind != Wide && Filled(inn.striker);
    var s := if Filled(inn.striker) then inn.striker.value else "";
    var swap := Filled(inn.striker) && Filled(inn.nonStriker) && (IsOdd(runs) || ends);
    var bowler := ConcedeExtra(BowlingOf(inn.bowlingStats, b), kind, runs);
    inn.(
      balls := inn.balls + [BallData(ballId, inn.currentOver,
                                     if legal then inn.currentBall + 1 else inn.currentBall,
                                     s, b, 0, runs, Some(kind), false, None, None, now)],
      currentOver := if ends then inn.currentOver + 1 else inn.currentOver,
      currentBall := if legal then NextBall(inn.currentBall) else inn.currentBall,
      totalRuns := inn.totalRuns + runs,
      battingStats := if faces then inn.battingStats[s := FaceExtra(BattingOf(inn.battingStats, s))]
                      else inn.battingStats,
      bowlingStats := inn.bowlingStats[b := if ends then CompleteOver(bowler) else bowler],
      striker := if swap then inn.nonStriker else inn.striker,
      nonStriker := if swap then inn.striker else inn.nonStriker)
  }

  /** `outPlayerId || striker`. */
  function DismissedId(inn: Innings, outPlayerId: Option<PlayerId>): PlayerId
    requires LineupReady(inn)
  {
    if Filled(outPlayerId) then outPlayerId.value else inn.striker.value
  }

  /** `addWicket` once the line-up check has passed. */
  function DeliverWicket(inn: Innings, kind: WicketType, outPlayerId: Option<PlayerId>,
                         ballId: string, now: int): (r: Innings)
    requires LineupReady(inn)
    ensures |r.balls| == |inn.balls| + 1 && r.balls[..|inn.balls|] == inn.balls
    ensures r.totalRuns == inn.totalRuns && r.wickets == inn.wickets + 1
    ensures r.striker == inn.striker || r.striker == None
    ensures r.nonStriker == inn.nonStriker || r.nonStriker == None
    ensures r.currentBowler == inn.currentBowler
  {
    var b := inn.currentBowler.value;
    var out := DismissedId(inn, outPlayerId);
    var ends := EndsOver(inn.currentBall);
    var bowler := TakeWicket(BowlingOf(inn.bowlingStats, b), kind);
    inn.(
      balls := inn.balls + [BallData(ballId, inn.currentOver, inn.currentBall + 1, out, b,
                                     0, 0, None, true, Some(kind), Some(out), now)],
      currentOver := if ends then inn.currentOver + 1 else inn.currentOver,
      currentBall := NextBall(inn.currentBall),
      wickets := inn.wickets + 1,
      battingStats := inn.battingStats[out := Dismiss(BattingOf(inn.battingStats, out), kind, b)],
      bowlingStats := inn.bowlingStats[b := if ends then CompleteOver(bowler) else bowler],
      striker := if inn.striker == Some(out) then None else inn.striker,
      nonStriker := if inn.nonStriker == Some(out) then None else inn.nonStriker)
  }

  /** The batter record with the last ball's amounts taken off, as undo
      does it: a ball faced whatever the ball was, the out flag cleared on
      the ball that set it, the dismissal kind and bowler left in place. */
  function UncreditBatter(s: BattingStats, last: BallData): BattingStats {
    s.(runs := s.runs - last.runs,
       ballsFaced := s.ballsFaced - 1,
       fours := if last.runs == 4 then s.fours - 1 else s.fours,
       sixes := if last.runs == 6 then s.sixes - 1 else s.sixes,
       dotBalls := if last.runs == 0 && last.extras == 0 then s.dotBalls - 1 else s.dotBalls,
       isOut := if last.isWicket && last.wicketPlayerId == Some(last.batsmanId) then false else s.isOut)
  }

  /** The bowler record with the last ball taken off; an over is given back
      when the recorded ball number is 5. */
  function UnchargeBowler(w: BowlingStats, last: BallData): BowlingStats {
    var charged := if last.extraType == Some(Bye) || last.extraType == Some(LegBye) then last.runs
                   else last.runs + last.extras;
    var credited := last.isWicket && last.wicketType.Some? && BowlerCredited(last.wicketType.value);
    w.(runs := w.runs - charged,
       wickets := if credited then w.wickets - 1 else w.wickets,
       dots := if last.runs == 0 && last.extras == 0 then w.dots - 1 else w.dots,
       overs := if last.ball == 5 then w.overs - 1 else w.overs)
  }

  /** The position one legal ball earlier; (0, 0) stays where it is. */
  function RewindOver(over: int, ball: int): int {
    if ball == 0 && over > 0 then over - 1 else over
  }

  function RewindBall(over: int, ball: int): int {
    if ball == 0 && over > 0 then 5 else if ball > 0 then ball - 1 else ball
  }

  /** `undoLastBall` on an innings: nothing on an empty log, otherwise the
      last ball popped and its amounts taken off; the player slots are not
      touched. */
  function UndoInnings(inn: Innings): (r: Innings)
    ensures |inn.balls| == 0 ==> r == inn
    ensures |inn.balls| > 0 ==> r.balls + [inn.balls[|inn.balls| - 1]] == inn.balls
    ensures r.striker == inn.striker && r.nonStriker == inn.nonStriker
    ensures r.currentBowler == inn.currentBowler
  {
    if |inn.balls| == 0 then inn
    else
      var last := inn.balls[|inn.balls| - 1];
      var bat := last.batsmanId;
      var bowl := last.bowlerId;
      inn.(
        balls := inn.balls[..|inn.balls| - 1],
        currentOver := RewindOver(inn.currentOver, inn.currentBall),
        currentBall := RewindBall(inn.currentOver, inn.currentBall),
        totalRuns := inn.totalRuns - (last.runs + last.extras),
        wickets := if last.isWicket then inn.wickets - 1 else inn.wickets,
        battingStats := if bat != "" && bat in inn.battingStats
                        then inn.battingStats[bat := UncreditBatter(inn.battingStats[bat], last)]
                        else inn.battingStats,
        bowlingStats := if bowl != "" && bowl in inn.bowlingStats
                        then inn.bowlingStats[bowl := UnchargeBowler(inn.bowlingStats[bowl], last)]
                        else inn.bowlingStats)
  }

  // ---------------------------------------------------------------------
  // The context operations on the whole match

  /** `addRuns`: nothing happens unless striker, non-striker and bowler are set. */
  function RunsAdded(m: Match, runs: int, ballId: string, now: int): (r: Match)
    ensures r.(first := m.first, second := m.second, updated := m.updated) == m
    ensures m.currentInnings == 1 ==> r.second == m.second
    ensures m.currentInnings != 1 ==> r.first == m.first
    ensures !LineupReady(GetCurrentInningsData(m)) ==> r == m
  {
    var inn := GetCurrentInningsData(m);
    if LineupReady(inn) then WithCurrentInnings(m, DeliverRuns(inn, runs, ballId, now)).(updated := now)
    else m
  }

  /** `addExtra`: nothing happens unless a bowler is set. */
  function ExtraAdded(m: Match, kind: ExtraKind, runs: int, ballId: string, now: int): (r: Match)
    ensures r.(first := m.first, second := m.second, updated := m.updated) == m
    ensures m.currentInnings == 1 ==> r.second == m.second
    ensures m.currentInnings != 1 ==> r.first == m.first
    ensures !Filled(GetCurrentInningsData(m).currentBowler) ==> r == m
  {
    var inn := GetCurrentInningsData(m);
    if Filled(inn.currentBowler)
    then WithCurrentInnings(m, DeliverExtra(inn, kind, runs, ballId, now)).(updated := now)
    else m
  }

  /** `addWicket`: nothing happens unless striker, non-striker and bowler are set. */
  function WicketAdded(m: Match, kind: WicketType, outPlayerId: Option<PlayerId>,
                       ballId: string, now: int): (r: Match)
    ensures r.(first := m.first, second := m.second, updated := m.updated) == m
    ensures m.currentInnings == 1 ==> r.second == m.second
    ensures m.currentInnings != 1 ==> r.first == m.first
    ensures !LineupReady(GetCurrentInningsData(m)) ==> r == m
  {
    var inn := GetCurrentInningsData(m);
    if LineupReady(inn)
    then WithCurrentInnings(m, DeliverWicket(inn, kind, outPlayerId, ballId, now)).(updated := now)
    else m
  }

  /** `undoLastBall`: nothing happens on an empty log. */
  function LastBallUndone(m: Match, now: int): (r: Match)
    ensures r.(first := m.first, second := m.second, updated := m.updated) == m
    ensures m.currentInnings == 1 ==> r.second == m.second
    ensures m.currentInnings != 1 ==> r.first == m.first
    ensures |GetCurrentInningsData(m).balls| == 0 ==> r == m
  {
    var inn := GetCurrentInningsData(m);
    if |inn.balls| > 0 then WithCurrentInnings(m, UndoInnings(inn)).(updated := now) else m
  }

  // ---------------------------------------------------------------------
  // What the log determines

  /** Runs plus extras over a log. */
  function LogRuns(balls: seq<BallData>): int {
    if balls == [] then 0 else balls[0].runs + balls[0].extras + LogRuns(balls[1..])
  }

  /** Wicket balls in a log. */
  function LogWickets(balls: seq<BallData>): nat {
    if balls == [] then 0 else (if balls[0].isWicket then 1 else 0) + LogWickets(balls[1..])
  }

  /** A logged ball that was neither a wide nor a no-ball. */
  predicate IsLegalBall(b: BallData) {
    b.extraType != Some(Wide) && b.extraType != Some(NoBall)
  }

  /** Legal deliveries in a log. */
  function LogLegalBalls(balls: seq<BallData>): nat {
    if balls == [] then 0 else (if IsLegalBall(balls[0]) then 1 else 0) + LogLegalBalls(balls[1..])
  }

  /** The innings invariant every operation keeps: the totals are those of
      the log, and the ball within the over is in [0, 5]. */
  predicate Consistent(inn: Innings) {
    && inn.totalRuns == LogRuns(inn.balls)
    && inn.wickets == LogWickets(inn.balls)
    && 0 <= inn.currentBall <= 5
    && 0 <= inn.currentOver
  }

  /** The stronger invariant the scoring calls keep but undo does not: the
      position counts exactly the legal deliveries in the log. */
  predicate Tracked(inn: Innings) {
    Consistent(inn) && inn.currentOver * 6 + inn.currentBall == LogLegalBalls(inn.balls)
  }

  predicate MatchConsistent(m: Match) {
    Consistent(m.first) && Consistent(m.second)
  }
}
