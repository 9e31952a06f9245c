/** Match creation, the status transitions, the player-slot changes and the
    read accessors of the scoring context (src/context/CricketContext.tsx).
    Each function is the value the context hands to `setMatch`; the id, the
    join code and the clock reading are parameters. */
module MatchState {
  import opened CricketTypes

  /** An innings before its first ball. */
  function NewInnings(): (inn: Innings)
    ensures inn.balls == [] && inn.totalRuns == 0 && inn.wickets == 0
    ensures inn.currentOver == 0 && inn.currentBall == 0
    ensures inn.battingStats == map[] && inn.bowlingStats == map[]
    ensures inn.striker == None && inn.nonStriker == None && inn.currentBowler == None
  {
    Innings([], 0, 0, 0, 0, map[], map[], None, None, None)
  }

  /** `createEmptyMatch`: a match in setup, team1 listed to bat, two empty
      squads and two empty innings. */
  function CreateEmptyMatch(totalOvers: int, id: string, code: string, now: int): (m: Match)
    ensures m.status == Setup && m.toss == None && m.totalOvers == totalOvers
    ensures m.currentInnings == 1 && m.battingTeam == Team1
    ensures m.team1.players == [] && m.team2.players == []
    ensures m.first == NewInnings() && m.second == NewInnings()
    ensures m.created == m.updated == now
    ensures m.id == id && m.code == code
    ensures m.team1.id == "team1" && m.team1.name == "Team A" && m.team2.id == "team2" && m.team2.name == "Team B"
  {
    Match(id, code, Setup,
          Team("team1", "Team A", []), Team("team2", "Team B", []),
          None, totalOvers, 1, Team1, NewInnings(), NewInnings(), now, now)
  }

  // ---------------------------------------------------------------------
  // Read accessors

  function TeamOf(m: Match, t: TeamSlot): Team {
    if t == Team1 then m.team1 else m.team2
  }

  function WithTeam(m: Match, t: TeamSlot, team: Team): (r: Match)
    ensures TeamOf(r, t) == team && TeamOf(r, Opponent(t)) == TeamOf(m, Opponent(t))
    ensures r.(team1 := m.team1, team2 := m.team2) == m
  {
    if t == Team1 then m.(team1 := team) else m.(team2 := team)
  }

  /** `getBattingTeam`. */
  function GetBattingTeam(m: Match): (t: Team)
    ensures t == m.team1 || t == m.team2
    ensures m.team1 != m.team2 ==> (t == m.team1 <==> m.battingTeam == Team1)
  {
    TeamOf(m, m.battingTeam)
  }

  /** `getBowlingTeam`: the team in the slot that is not batting. */
  function GetBowlingTeam(m: Match): (t: Team)
    ensures m.team1 != m.team2 ==> t != GetBattingTeam(m)
    ensures t == m.team1 || t == m.team2
  {
    TeamOf(m, Opponent(m.battingTeam))
  }

  /** `getCurrentInningsData`: `first` in innings 1, `second` in innings 2. */
  function GetCurrentInningsData(m: Match): (inn: Innings)
    ensures inn == m.first || inn == m.second
    ensures m.currentInnings == 1 ==> inn == m.first
    ensures m.currentInnings == 2 ==> inn == m.second
  {
    if m.currentInnings == 1 then m.first else m.second
  }

  /** Replacing `innings[inningsKey]`, the write every scoring operation commits. */
  function WithCurrentInnings(m: Match, inn: Innings): Match {
    if m.currentInnings == 1 then m.(first := inn) else m.(second := inn)
  }

  /** Writing the current innings and reading it back gives what was written;
      the other innings and every match-level field are untouched. */
  lemma CurrentInningsRoundTrip(m: Match, inn: Innings)
    ensures GetCurrentInningsData(WithCurrentInnings(m, inn)) == inn
    ensures WithCurrentInnings(m, GetCurrentInningsData(m)) == m
    ensures var r := WithCurrentInnings(m, inn);
      r.(first := m.first, second := m.second) == m &&
      (m.currentInnings == 1 ==> r.second == m.second) &&
      (m.currentInnings == 2 ==> r.first == m.first)
  {
  }

  /** `players.find(p => p.id === id)`: the first player with that id. */
  function FindPlayer(players: seq<Player>, id: PlayerId): (r: Option<Player>)
    ensures r.Some? ==> r.value in players && r.value.id == id && FirstWithId(players, id, r.value)
    ensures r.None? <==> forall p :: p in players ==> p.id != id
  {
    if players == [] then None
    else if players[0].id == id then Some(players[0])
    else
      var r := FindPlayer(players[1..], id);
      if r.Some? then FirstWithIdShift(players, id, r.value); r else r
  }

  /** A first match in the tail is a first match of the list when the head
      has another id. */
  lemma FirstWithIdShift(players: seq<Player>, id: PlayerId, p: Player)
    requires |players| > 0 && players[0].id != id && FirstWithId(players[1..], id, p)
    ensures FirstWithId(players, id, p)
  {
    var i :| 0 <= i < |players[1..]| && players[1..][i] == p &&
             forall j :: 0 <= j < i ==> players[1..][j].id != id;
    forall j | 0 <= j < i + 1 ensures players[j].id != id {
      if j > 0 { assert players[j] == players[1..][j - 1]; }
    }
    assert players[i + 1] == p;
  }

  /** `p` sits in `players` with no earlier player carrying `id`. */
  ghost predicate FirstWithId(players: seq<Player>, id: PlayerId, p: Player) {
    exists i :: 0 <= i < |players| && players[i] == p && forall j :: 0 <= j < i ==> players[j].id != id
  }

  /** `getPlayerById`: the first player of the team with the id. */
  function GetPlayerById(m: Match, t: TeamSlot, id: PlayerId): (r: Option<Player>)
    ensures r.Some? ==>
      r.value in TeamOf(m, t).players && r.value.id == id && FirstWithId(TeamOf(m, t).players, id, r.value)
    ensures r.None? <==> forall p :: p in TeamOf(m, t).players ==> p.id != id
  {
    FindPlayer(TeamOf(m, t).players, id)
  }

  /** `getCurrentBowler`: the first bowling-team player whose id is in the
      bowler slot, if the slot is filled and such a player exists. */
  function GetCurrentBowler(m: Match): (r: Option<Player>)
    ensures r.Some? <==>
      Filled(GetCurrentInningsData(m).currentBowler) &&
      exists p :: p in GetBowlingTeam(m).players && p.id == GetCurrentInningsData(m).currentBowler.value
    ensures r.Some? ==>
      r.value in GetBowlingTeam(m).players &&
      r.value.id == GetCurrentInningsData(m).currentBowler.value &&
      FirstWithId(GetBowlingTeam(m).players, r.value.id, r.value)
  {
    var slot := GetCurrentInningsData(m).currentBowler;
    if !Filled(slot) then None else FindPlayer(GetBowlingTeam(m).players, slot.value)
  }

  /** One half of `getCurrentBatsmen`: the first batting-team player whose
      id is in the slot. */
  function BatsmanIn(m: Match, slot: Option<PlayerId>): (r: Option<Player>)
    ensures r.Some? ==>
      (Filled(slot) && r.value in GetBattingTeam(m).players && r.value.id == slot.value &&
       FirstWithId(GetBattingTeam(m).players, slot.value, r.value))
    ensures Filled(slot) && (exists p :: p in GetBattingTeam(m).players && p.id == slot.value) ==> r.Some?
  {
    if !Filled(slot) then None else FindPlayer(GetBattingTeam(m).players, slot.value)
  }

  /** `getCurrentBatsmen`: (striker, non-striker) as players of the batting team. */
  function GetCurrentBatsmen(m: Match): (r: (Option<Player>, Option<Player>))
    ensures r.0.Some? ==>
      r.0.value in GetBattingTeam(m).players && Some(r.0.value.id) == GetCurrentInningsData(m).striker
    ensures r.1.Some? ==>
      r.1.value in GetBattingTeam(m).players && Some(r.1.value.id) == GetCurrentInningsData(m).nonStriker
    ensures r.0.Some? ==> FirstWithId(GetBattingTeam(m).players, r.0.value.id, r.0.value)
    ensures r.1.Some? ==> FirstWithId(GetBattingTeam(m).players, r.1.value.id, r.1.value)
    ensures var slot := GetCurrentInningsData(m).striker;
      Filled(slot) && (exists p :: p in GetBattingTeam(m).players && p.id == slot.value) ==> r.0.Some?
    ensures var slot := GetCurrentInningsData(m).nonStriker;
      Filled(slot) && (exists p :: p in GetBattingTeam(m).players && p.id == slot.value) ==> r.1.Some?
  {
    var inn := GetCurrentInningsData(m);
    (BatsmanIn(m, inn.striker), BatsmanIn(m, inn.nonStriker))
  }

  // ---------------------------------------------------------------------
  // Status transitions

  /** `performToss`: the winner bats exactly when it chose to bat. */
  function PerformToss(m: Match, winner: TeamSlot, decision: TossDecision): (r: Match)
    ensures r.status == Toss && r.toss == Some(TossResult(winner, decision))
    ensures r.battingTeam == winner <==> decision == Bat
    ensures r.(status := m.status, toss := m.toss, battingTeam := m.battingTeam) == m
  {
    var batting := if decision == Bat then winner else Opponent(winner);
    m.(status := Toss, toss := Some(TossResult(winner, decision)), battingTeam := batting)
  }

  /** `startInnings`: in_progress, whatever the status was. */
  function StartInnings(m: Match, now: int): (r: Match)
    ensures r.status == InProgress && r.updated == now
    ensures r.(status := m.status, updated := m.updated) == m
  {
    m.(status := InProgress, updated := now)
  }

  /** `endInnings`: after the first innings the break, the second innings
      and the other side batting; after the second the match is completed.
      The status it comes from is not examined. */
  function EndInnings(m: Match, now: int): (r: Match)
    ensures m.currentInnings == 1 ==>
      r.status == InningsBreak && r.currentInnings == 2 && r.battingTeam == Opponent(m.battingTeam)
    ensures m.currentInnings == 2 ==>
      r.status == Completed && r.currentInnings == 2 && r.battingTeam == m.battingTeam
    ensures r.first == m.first && r.second == m.second && r.updated == now
    ensures r.(status := m.status, currentInnings := m.currentInnings,
               battingTeam := m.battingTeam, updated := m.updated) == m
  {
    if m.currentInnings == 1 then
      m.(status := InningsBreak, currentInnings := 2, battingTeam := Opponent(m.battingTeam), updated := now)
    else
      m.(status := Completed, updated := now)
  }

  /** At the break the two sides swap roles. */
  lemma EndInningsSwapsSides(m: Match, now: int)
    requires m.currentInnings == 1
    ensures GetBattingTeam(EndInnings(m, now)) == GetBowlingTeam(m)
    ensures GetBowlingTeam(EndInnings(m, now)) == GetBattingTeam(m)
    ensures GetCurrentInningsData(EndInnings(m, now)) == m.second
  {
  }

  /** The intended path setup, toss, in_progress, innings_break, completed,
      with the side that bowled first batting in the second innings. */
  lemma StatusPath(overs: int, id: string, code: string, winner: TeamSlot, d: TossDecision,
                   t0: int, t1: int, t2: int, t3: int)
    ensures var m0 := CreateEmptyMatch(overs, id, code, t0);
      var m1 := PerformToss(m0, winner, d);
      var m2 := StartInnings(m1, t1);
      var m3 := EndInnings(m2, t2);
      var m4 := EndInnings(m3, t3);
      m0.status == Setup && m1.status == Toss && m2.status == InProgress &&
      m3.status == InningsBreak && m4.status == Completed &&
      m3.battingTeam != m1.battingTeam && m4.battingTeam == m3.battingTeam &&
      GetCurrentInningsData(m4) == NewInnings()
  {
  }

  /** Nothing guards the transitions: ending an innings straight from setup
      jumps to the break, and ending it twice from the break completes the
      match without the second innings having started. */
  lemma EndInningsIgnoresStatus(overs: int, id: string, code: string, t0: int, t1: int, t2: int)
    ensures var m0 := CreateEmptyMatch(overs, id, code, t0);
      EndInnings(m0, t1).status == InningsBreak &&
      EndInnings(EndInnings(m0, t1), t2).status == Completed
  {
  }

  // ---------------------------------------------------------------------
  // Slot changes (no check that the player exists or is not out)

  /** `changeBowler`: stores the id as given, even an empty one. */
  function ChangeBowler(m: Match, playerId: PlayerId, now: int): (r: Match)
    ensures GetCurrentInningsData(r).currentBowler == Some(playerId)
    ensures Filled(GetCurrentInningsData(r).currentBowler) <==> playerId != ""
    ensures GetCurrentInningsData(r).(currentBowler := GetCurrentInningsData(m).currentBowler)
            == GetCurrentInningsData(m)
    ensures r.updated == now && WithCurrentInnings(r, GetCurrentInningsData(m)).(updated := m.updated) == m
  {
    var inn := GetCurrentInningsData(m);
    WithCurrentInnings(m, inn.(currentBowler := Some(playerId))).(updated := now)
  }

  /** `playerId || null`: an absent or empty id clears the slot. */
  function SlotValue(playerId: Option<PlayerId>): (s: Option<PlayerId>)
    ensures Filled(s) <==> Filled(playerId)
    ensures s.Some? ==> s == playerId
    ensures !Filled(playerId) ==> s == None
  {
    if Filled(playerId) then playerId else None
  }

  /** `changeStriker`. */
  function ChangeStriker(m: Match, playerId: Option<PlayerId>, now: int): (r: Match)
    ensures GetCurrentInningsData(r).striker == SlotValue(playerId)
    ensures GetCurrentInningsData(r).(striker := GetCurrentInningsData(m).striker)
            == GetCurrentInningsData(m)
    ensures r.updated == now && WithCurrentInnings(r, GetCurrentInningsData(m)).(updated := m.updated) == m
  {
    var inn := GetCurrentInningsData(m);
    WithCurrentInnings(m, inn.(striker := SlotValue(playerId))).(updated := now)
  }

  /** `changeNonStriker`. */
  function ChangeNonStriker(m: Match, playerId: Option<PlayerId>, now: int): (r: Match)
    ensures GetCurrentInningsData(r).nonStriker == SlotValue(playerId)
    ensures GetCurrentInningsData(r).(nonStriker := GetCurrentInningsData(m).nonStriker)
            == GetCurrentInningsData(m)
    ensures r.updated == now && WithCurrentInnings(r, GetCurrentInningsData(m)).(updated := m.updated) == m
  {
    var inn := GetCurrentInningsData(m);
    WithCurrentInnings(m, inn.(nonStriker := SlotValue(playerId))).(updated := now)
  }
}
