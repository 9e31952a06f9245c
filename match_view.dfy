/** The umpire's scoring screen (src/components/Match.tsx) as functions of
    the match: which batsmen the selects offer, when the innings counts as
    complete, the chase line of the second innings, which panel of
    controls is shown, and what each control passes to the context. A
    session on the screen is a sequence of presses, each of a control the
    screen offers at that moment. */
module MatchView {
  import opened CricketTypes
  import opened MatchState
  import opened Scoring
  import opened ScoringProperties

  // ---------------------------------------------------------------------
  // Available batsmen

  /** The filter test of `availableBatsmen` as written: the player's id
      differs from the ids of the striker and non-striker the getters find
      (a slot whose player is not found compares with `undefined`), and
      the player has no record or a record not marked out. */
  predicate Selectable(m: Match, p: Player) {
    var inn := GetCurrentInningsData(m);
    var striker := BatsmanIn(m, inn.striker);
    var nonStriker := BatsmanIn(m, inn.nonStriker);
    && (striker.None? || p.id != striker.value.id)
    && (nonStriker.None? || p.id != nonStriker.value.id)
    && (p.id !in inn.battingStats || !inn.battingStats[p.id].isOut)
  }

  function FilterSelectable(m: Match, players: seq<Player>): (r: seq<Player>)
    ensures forall p :: p in r <==> p in players && Selectable(m, p)
    ensures |r| <= |players|
  {
    if players == [] then []
    else (if Selectable(m, players[0]) then [players[0]] else []) + FilterSelectable(m, players[1..])
  }

  /** `availableBatsmen`: the batting side filtered, in squad order. */
  function AvailableBatsmen(m: Match): (r: seq<Player>)
    ensures forall p :: p in r <==> p in GetBattingTeam(m).players && Selectable(m, p)
    ensures |r| <= |GetBattingTeam(m).players|
  {
    FilterSelectable(m, GetBattingTeam(m).players)
  }

  /** The id is in a filled striker or non-striker slot. */
  predicate AtCrease(inn: Innings, id: PlayerId) {
    || (Filled(inn.striker) && inn.striker.value == id)
    || (Filled(inn.nonStriker) && inn.nonStriker.value == id)
  }

  /** The id has a batting record marked out. */
  predicate Dismissed(inn: Innings, id: PlayerId) {
    id in inn.battingStats && inn.battingStats[id].isOut
  }

  /** The batsmen offered are exactly the batting side's players who are
      not at the crease and not out. */
  lemma AvailableBatsmenExactly(m: Match, p: Player)
    ensures p in AvailableBatsmen(m) <==>
      var inn := GetCurrentInningsData(m);
      p in GetBattingTeam(m).players && !AtCrease(inn, p.id) && !Dismissed(inn, p.id)
  {
    var inn := GetCurrentInningsData(m);
    if p in GetBattingTeam(m).players {
      if Filled(inn.striker) && inn.striker.value == p.id {
        assert BatsmanIn(m, inn.striker).Some?;
      }
      if Filled(inn.nonStriker) && inn.nonStriker.value == p.id {
        assert BatsmanIn(m, inn.nonStriker).Some?;
      }
    }
  }

  // ---------------------------------------------------------------------
  // Innings completion

  predicate AllOut(inn: Innings) {
    inn.wickets == 10
  }

  predicate OversDone(m: Match, inn: Innings) {
    inn.currentOver >= m.totalOvers && inn.currentBall == 0
  }

  predicate ChaseWon(m: Match, inn: Innings) {
    m.currentInnings == 2 && inn.totalRuns > m.first.totalRuns
  }

  /** The test that replaces the scoring controls by the end button. */
  predicate InningsComplete(m: Match)
    ensures m.currentInnings == 1 ==>
      (InningsComplete(m) <==>
       m.first.wickets == 10 || (m.first.currentOver >= m.totalOvers && m.first.currentBall == 0))
    ensures m.currentInnings == 2 ==>
      (InningsComplete(m) <==>
       m.second.wickets == 10 || (m.second.currentOver >= m.totalOvers && m.second.currentBall == 0) ||
       m.second.totalRuns > m.first.totalRuns)
  {
    var inn := GetCurrentInningsData(m);
    AllOut(inn) || OversDone(m, inn) || ChaseWon(m, inn)
  }

  // ---------------------------------------------------------------------
  // The chase line of the second innings

  /** The target shown in the second innings: the least total that passes
      the first innings. */
  function Target(m: Match): (r: int)
    ensures r > m.first.totalRuns && r - 1 <= m.first.totalRuns
    ensures m.second.totalRuns >= r <==> m.second.totalRuns > m.first.totalRuns
  {
    m.first.totalRuns + 1
  }

  /** Runs still needed; at most zero exactly when the chase is won. */
  function RunsNeeded(m: Match): (r: int)
    ensures r <= 0 <==> m.second.totalRuns > m.first.totalRuns
    ensures r == Target(m) - m.second.totalRuns
  {
    Target(m) - m.second.totalRuns
  }

  /** Balls left in the second innings, from its position. */
  function BallsLeft(m: Match): (r: int)
    ensures m.second.currentOver * 6 + m.second.currentBall + r == m.totalOvers * 6
  {
    m.totalOvers * 6 - (m.second.currentOver * 6 + m.second.currentBall)
  }

  datatype ChaseLine = ToWin | Needs(runs: int, balls: int)

  /** The line under the target: shown in the second innings only, "To
      win" until the first run is scored. */
  function Chase(m: Match): (r: Option<ChaseLine>)
    ensures r.Some? <==> m.currentInnings == 2
    ensures r.Some? ==> (r.value.Needs? <==> m.second.totalRuns > 0)
    ensures r.Some? && r.value.Needs? ==>
      (m.second.totalRuns > 0 && r.value.runs + m.second.totalRuns == Target(m) &&
       r.value.balls == BallsLeft(m))
  {
    if m.currentInnings != 2 then None
    else if m.second.totalRuns > 0 then Some(Needs(RunsNeeded(m), BallsLeft(m)))
    else Some(ToWin)
  }

  /** While the position tracks the log, the balls left are the innings'
      balls minus the legal deliveries bowled. */
  lemma BallsLeftCountsLegalBalls(m: Match)
    requires Tracked(m.second)
    ensures BallsLeft(m) == m.totalOvers * 6 - LogLegalBalls(m.second.balls)
  {
  }

  /** A run, a bye or a leg-bye, or a wicket in the second innings takes
      one ball off the balls left; a wide or a no-ball takes none. */
  lemma BallsLeftAfterRuns(m: Match, runs: int, ballId: string, now: int)
    requires m.currentInnings == 2 && Consistent(m.second) && LineupReady(m.second)
    ensures BallsLeft(RunsAdded(m, runs, ballId, now)) == BallsLeft(m) - 1
  {
    LegalDeliveryPosition(m.second.currentBall);
  }

  lemma BallsLeftAfterExtra(m: Match, kind: ExtraKind, runs: int, ballId: string, now: int)
    requires m.currentInnings == 2 && Consistent(m.second) && Filled(m.second.currentBowler)
    ensures BallsLeft(ExtraAdded(m, kind, runs, ballId, now)) ==
      BallsLeft(m) - if IsLegalExtra(kind) then 1 else 0
  {
    LegalDeliveryPosition(m.second.currentBall);
  }

  lemma BallsLeftAfterWicket(m: Match, kind: WicketType, outPlayerId: Option<PlayerId>,
                             ballId: string, now: int)
    requires m.currentInnings == 2 && Consistent(m.second) && LineupReady(m.second)
    ensures BallsLeft(WicketAdded(m, kind, outPlayerId, ballId, now)) == BallsLeft(m) - 1
  {
    LegalDeliveryPosition(m.second.currentBall);
  }

  /** With no balls left the overs clause of the completion test holds. */
  lemma NoBallsLeftCompletes(m: Match)
    requires m.currentInnings == 2 && 0 <= m.second.currentBall <= 5
    requires BallsLeft(m) == 0
    ensures OversDone(m, m.second) && InningsComplete(m)
  {
    var k := m.totalOvers - m.second.currentOver;
    assert k * 6 == m.second.currentBall;
  }

  /** The wicket clause tests `=== 10`: a wicket taken at ten down makes
      it false again, and the context does not refuse that wicket. */
  lemma EleventhWicketMissed(m: Match, kind: WicketType, ballId: string, now: int)
    requires AllOut(GetCurrentInningsData(m)) && LineupReady(GetCurrentInningsData(m))
    ensures var r := WicketAdded(m, kind, None, ballId, now);
      GetCurrentInningsData(r).wickets == 11 && !AllOut(GetCurrentInningsData(r))
  {
    var inn := GetCurrentInningsData(m);
    CurrentInningsRoundTrip(m, DeliverWicket(inn, kind, None, ballId, now));
  }

  // ---------------------------------------------------------------------
  // The panel of controls

  /** What `renderMatchControls` shows: the start button, the end button
      (labelled "Complete Match" in the second innings), or the selects
      and scoring buttons with Undo enabled or not. */
  datatype Panel = StartPanel | EndPanel(completesMatch: bool) | ScoringPanel(undoEnabled: bool)

  function Controls(m: Match): (r: Panel)
    ensures r == StartPanel <==> m.status == Setup || m.status == Toss
    ensures r.EndPanel? <==> m.status != Setup && m.status != Toss && InningsComplete(m)
    ensures r.EndPanel? ==> (r.completesMatch <==> m.currentInnings == 2)
    ensures r.ScoringPanel? ==> (r.undoEnabled <==> |GetCurrentInningsData(m).balls| > 0)
  {
    if m.status == Setup || m.status == Toss then StartPanel
    else if InningsComplete(m) then EndPanel(m.currentInnings == 2)
    else ScoringPanel(|GetCurrentInningsData(m).balls| != 0)
  }

  /** The run buttons: 0, 1, 2, 3, 4 and 6. */
  predicate RunsOnOffer(runs: int) {
    runs == 0 || runs == 1 || runs == 2 || runs == 3 || runs == 4 || runs == 6
  }

  /** The seven kinds of the wicket select. */
  predicate WicketOnOffer(kind: WicketType) {
    kind in {Bowled, Caught, Lbw, Stumped, RunOut, HitWicket, Retired}
  }

  /** Each extra button passes one run. */
  const ExtraButtonRuns := 1

  /** A control of the screen with the value it carries; a select's value
      is the chosen option, the empty string for "Remove". */
  datatype Control =
    | StartButton
    | EndButton
    | RunsButton(runs: int)
    | ExtraButton(kind: ExtraKind)
    | WicketButton(wicket: WicketType)
    | UndoButton
    | StrikerSelect(choice: string)
    | NonStrikerSelect(choice: string)
    | BowlerSelect(choice: PlayerId)

  /** A batsman select can be opened when some batsman is available; it
      offers "Remove" when its slot holds a batting-side player, and every
      available batsman. */
  predicate BatsmanChoice(m: Match, slot: Option<PlayerId>, choice: string) {
    && |AvailableBatsmen(m)| > 0
    && ((choice == "" && BatsmanIn(m, slot).Some?) ||
        (exists p :: p in AvailableBatsmen(m) && p.id == choice))
  }

  /** The controls the screen offers on this match. */
  predicate Offered(m: Match, c: Control) {
    var panel := Controls(m);
    var inn := GetCurrentInningsData(m);
    match c
    case StartButton => panel == StartPanel
    case EndButton => panel.EndPanel?
    case RunsButton(runs) => panel.ScoringPanel? && RunsOnOffer(runs)
    case ExtraButton(_) => panel.ScoringPanel?
    case WicketButton(kind) => panel.ScoringPanel? && WicketOnOffer(kind)
    case UndoButton => panel == ScoringPanel(true)
    case StrikerSelect(v) => panel.ScoringPanel? && BatsmanChoice(m, inn.striker, v)
    case NonStrikerSelect(v) => panel.ScoringPanel? && BatsmanChoice(m, inn.nonStriker, v)
    case BowlerSelect(v) =>
      panel.ScoringPanel? && exists p :: p in GetBowlingTeam(m).players && p.id == v
  }

  /** A select's "Remove" option passes `undefined`. */
  function Choice(v: string): (r: Option<PlayerId>)
    ensures r.None? <==> v == ""
    ensures r.Some? ==> r.value == v
  {
    if v == "" then None else Some(v)
  }

  /** The context call behind each control; the wicket button passes no
      dismissed player. `ballId` and `now` stand for the uuid and clock. */
  function Press(m: Match, c: Control, ballId: string, now: int): (r: Match)
    ensures r.team1 == m.team1 && r.team2 == m.team2 && r.totalOvers == m.totalOvers
    ensures !c.StartButton? && !c.EndButton? ==>
      r.status == m.status && r.currentInnings == m.currentInnings && r.battingTeam == m.battingTeam
  {
    match c
    case StartButton => StartInnings(m, now)
    case EndButton => EndInnings(m, now)
    case RunsButton(runs) => RunsAdded(m, runs, ballId, now)
    case ExtraButton(kind) => ExtraAdded(m, kind, ExtraButtonRuns, ballId, now)
    case WicketButton(kind) => WicketAdded(m, kind, None, ballId, now)
    case UndoButton => LastBallUndone(m, now)
    case StrikerSelect(v) => ChangeStriker(m, Choice(v), now)
    case NonStrikerSelect(v) => ChangeNonStriker(m, Choice(v), now)
    case BowlerSelect(v) => ChangeBowler(m, v, now)
  }

  /** Start Innings is offered exactly in setup and toss. */
  lemma StartOfferedIn(m: Match)
    ensures Offered(m, StartButton) <==> m.status == Setup || m.status == Toss
  {
  }

  /** When Undo is disabled on the scoring panel, undoing would change nothing. */
  lemma UndoDisabledIsNoop(m: Match, now: int)
    requires Controls(m).ScoringPanel? && !Offered(m, UndoButton)
    ensures LastBallUndone(m, now) == m
  {
  }

  /** A batsman picked from a select is a batting-side player who is not
      out and not already at either end. */
  lemma PickedStrikerEligible(m: Match, v: string, now: int)
    requires Offered(m, StrikerSelect(v)) && v != ""
    ensures var inn := GetCurrentInningsData(m);
      && GetCurrentInningsData(Press(m, StrikerSelect(v), "", now)).striker == Some(v)
      && (exists p :: p in GetBattingTeam(m).players && p.id == v)
      && !AtCrease(inn, v) && !Dismissed(inn, v)
  {
    var p :| p in AvailableBatsmen(m) && p.id == v;
    AvailableBatsmenExactly(m, p);
  }

  /** Every extra button passes an odd run, so with both batsmen set the
      ends always change, whatever the kind and wherever in the over. */
  lemma ExtraButtonSwapsEnds(m: Match, kind: ExtraKind, ballId: string, now: int)
    requires var inn := GetCurrentInningsData(m);
      Filled(inn.striker) && Filled(inn.nonStriker) && Filled(inn.currentBowler)
    ensures var inn := GetCurrentInningsData(m);
      var after := GetCurrentInningsData(Press(m, ExtraButton(kind), ballId, now));
      after.striker == inn.nonStriker && after.nonStriker == inn.striker
  {
    var inn := GetCurrentInningsData(m);
    CurrentInningsRoundTrip(m, DeliverExtra(inn, kind, ExtraButtonRuns, ballId, now));
  }

  /** The wicket button dismisses the striker: the ball names the striker
      and the striker's slot is cleared. */
  lemma WicketButtonDismissesStriker(m: Match, kind: WicketType, ballId: string, now: int)
    requires LineupReady(GetCurrentInningsData(m))
    ensures var inn := GetCurrentInningsData(m);
      var after := GetCurrentInningsData(Press(m, WicketButton(kind), ballId, now));
      && after.balls[|after.balls| - 1].batsmanId == inn.striker.value
      && after.striker.None?
      && Dismissed(after, inn.striker.value)
  {
    var inn := GetCurrentInningsData(m);
    CurrentInningsRoundTrip(m, DeliverWicket(inn, kind, None, ballId, now));
  }

  // ---------------------------------------------------------------------
  // Sessions on the screen

  /** One press with the uuid and clock value it happens to get. */
  datatype Step = Step(control: Control, ballId: string, now: int)

  function Replay(m: Match, steps: seq<Step>): Match
    decreases |steps|
  {
    if steps == [] then m
    else Replay(Press(m, steps[0].control, steps[0].ballId, steps[0].now), steps[1..])
  }

  /** Each press is of a control offered at that moment. */
  predicate Playable(m: Match, steps: seq<Step>)
    decreases |steps|
  {
    steps == [] ||
    (Offered(m, steps[0].control) &&
     Playable(Press(m, steps[0].control, steps[0].ballId, steps[0].now), steps[1..]))
  }

  /** Every control keeps both innings' totals equal to their logs. */
  lemma PressConsistent(m: Match, c: Control, ballId: string, now: int)
    requires MatchConsistent(m)
    ensures MatchConsistent(Press(m, c, ballId, now))
  {
    match c
    case RunsButton(runs) => RunsAddedConsistent(m, runs, ballId, now);
    case ExtraButton(kind) => ExtraAddedConsistent(m, kind, ExtraButtonRuns, ballId, now);
    case WicketButton(kind) => WicketAddedConsistent(m, kind, None, ballId, now);
    case UndoButton => LastBallUndoneConsistent(m, now);
    case _ =>
  }

  lemma {:induction false} ReplayConsistent(m: Match, steps: seq<Step>)
    requires MatchConsistent(m)
    ensures MatchConsistent(Replay(m, steps))
    decreases |steps|
  {
    if steps != [] {
      PressConsistent(m, steps[0].control, steps[0].ballId, steps[0].now);
      ReplayConsistent(Press(m, steps[0].control, steps[0].ballId, steps[0].now), steps[1..]);
    }
  }

  /** Past the first innings the status is the break or completed. */
  predicate AfterBreak(m: Match) {
    m.currentInnings == 2 && (m.status == InningsBreak || m.status == Completed)
  }

  /** Once the first innings is ended the screen never offers Start
      Innings again: the whole second innings is scored, and the match
      completed, with the status left at the break or at completed, and
      never in progress. */
  lemma {:induction false} SecondInningsNeverInProgress(m: Match, steps: seq<Step>)
    requires AfterBreak(m) && Playable(m, steps)
    ensures AfterBreak(Replay(m, steps))
    ensures forall i :: 0 <= i < |steps| ==> steps[i].control != StartButton
    decreases |steps|
  {
    if steps != [] {
      var next := Press(m, steps[0].control, steps[0].ballId, steps[0].now);
      assert steps[0].control != StartButton;
      PressKeepsPhase(m, steps[0].control, steps[0].ballId, steps[0].now);
      SecondInningsNeverInProgress(next, steps[1..]);
      forall i | 0 <= i < |steps| ensures steps[i].control != StartButton {
        if i > 0 {
          assert steps[i] == steps[1..][i - 1];
        }
      }
    }
  }

  /** After the break no offered control leaves the break-or-completed phase. */
  lemma PressKeepsPhase(m: Match, c: Control, ballId: string, now: int)
    requires AfterBreak(m) && Offered(m, c)
    ensures AfterBreak(Press(m, c, ballId, now))
  {
  }

  /** The first innings ended from the screen leads into that phase. */
  lemma EndFirstInningsEntersBreak(m: Match, now: int)
    requires m.currentInnings == 1 && Offered(m, EndButton)
    ensures AfterBreak(Press(m, EndButton, "", now))
    ensures !Offered(Press(m, EndButton, "", now), StartButton)
  {
  }
}
