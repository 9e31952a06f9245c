/** Squad editing of the scoring context (src/context/CricketContext.tsx,
    setTeamName, addPlayer, removePlayer, toggleCaptain, toggleWicketkeeper).
    Each function is the `setMatch` update; the new player's uuid is a
    parameter. */
module Roster {
  import opened CricketTypes
  import opened MatchState

  /** `setTeamName`: renames one team and changes nothing else. */
  function SetTeamName(m: Match, t: TeamSlot, name: string): (r: Match)
    ensures TeamOf(r, t) == TeamOf(m, t).(name := name)
    ensures TeamOf(r, Opponent(t)) == TeamOf(m, Opponent(t))
    ensures r.(team1 := m.team1, team2 := m.team2) == m
  {
    WithTeam(m, t, TeamOf(m, t).(name := name))
  }

  /** `addPlayer`: appends a player who is neither captain nor keeper. */
  function AddPlayer(m: Match, t: TeamSlot, name: string, id: PlayerId): (r: Match)
    ensures TeamOf(r, t).players == TeamOf(m, t).players + [Player(id, name, false, false)]
    ensures TeamOf(r, t).(players := TeamOf(m, t).players) == TeamOf(m, t)
    ensures TeamOf(r, Opponent(t)) == TeamOf(m, Opponent(t))
    ensures r.(team1 := m.team1, team2 := m.team2) == m
  {
    var team := TeamOf(m, t);
    WithTeam(m, t, team.(players := team.players + [Player(id, name, false, false)]))
  }

  /** `players.filter(player => player.id !== playerId)`. */
  function Without(players: seq<Player>, id: PlayerId): (r: seq<Player>)
    ensures forall p :: p in r <==> p in players && p.id != id
    ensures |r| <= |players|
  {
    if players == [] then []
    else if players[0].id == id then Without(players[1..], id)
    else [players[0]] + Without(players[1..], id)
  }

  /** `removePlayer`: drops every player of the team with that id. */
  function RemovePlayer(m: Match, t: TeamSlot, id: PlayerId): (r: Match)
    ensures forall p :: p in TeamOf(r, t).players <==> p in TeamOf(m, t).players && p.id != id
    ensures TeamOf(r, t).players == Without(TeamOf(m, t).players, id)
    ensures TeamOf(r, t).(players := TeamOf(m, t).players) == TeamOf(m, t)
    ensures TeamOf(r, Opponent(t)) == TeamOf(m, Opponent(t))
    ensures r.(team1 := m.team1, team2 := m.team2) == m
  {
    var team := TeamOf(m, t);
    WithTeam(m, t, team.(players := Without(team.players, id)))
  }

  /** Filtering out an id that no player has keeps the list as it is. */
  lemma {:induction false} WithoutAbsent(players: seq<Player>, id: PlayerId)
    requires forall p :: p in players ==> p.id != id
    ensures Without(players, id) == players
  {
    if players != [] {
      WithoutAbsent(players[1..], id);
      assert players == [players[0]] + players[1..];
    }
  }

  /** Filtering distributes over appending one player. */
  lemma {:induction false} WithoutAppend(players: seq<Player>, p: Player, id: PlayerId)
    ensures Without(players + [p], id) == Without(players, id) + Without([p], id)
  {
    if players != [] {
      assert (players + [p])[0] == players[0];
      assert (players + [p])[1..] == players[1..] + [p];
      WithoutAppend(players[1..], p, id);
      assert Without(players + [p], id) ==
        (if players[0].id == id then [] else [players[0]]) + Without(players[1..] + [p], id);
    }
  }

  /** Removing a freshly added player restores the match. */
  lemma RemoveUndoesAdd(m: Match, t: TeamSlot, name: string, id: PlayerId)
    requires forall p :: p in TeamOf(m, t).players ==> p.id != id
    ensures RemovePlayer(AddPlayer(m, t, name, id), t, id) == m
  {
    var ps := TeamOf(m, t).players;
    WithoutAppend(ps, Player(id, name, false, false), id);
    WithoutAbsent(ps, id);
    assert Without([Player(id, name, false, false)], id) == [];
  }

  /** The two flags a team allows on one player at a time. */
  datatype Role = Captain | Wicketkeeper

  predicate HasRole(p: Player, role: Role) {
    if role == Captain then p.isCaptain else p.isWicketkeeper
  }

  /** The `players.map` of `toggleCaptain`/`toggleWicketkeeper`: the role
      goes to the players with that id and is taken from every other one. */
  function Assign(players: seq<Player>, id: PlayerId, role: Role): (r: seq<Player>)
    ensures |r| == |players|
    ensures forall i :: 0 <= i < |r| ==>
      (HasRole(r[i], role) <==> players[i].id == id) &&
      r[i].id == players[i].id && r[i].name == players[i].name
    ensures forall i, other: Role :: 0 <= i < |r| && other != role ==>
      HasRole(r[i], other) == HasRole(players[i], other)
  {
    seq(|players|, i requires 0 <= i < |players| =>
      if role == Captain then players[i].(isCaptain := players[i].id == id)
      else players[i].(isWicketkeeper := players[i].id == id))
  }

  /** `toggleCaptain`. */
  function ToggleCaptain(m: Match, t: TeamSlot, id: PlayerId): (r: Match)
    ensures TeamOf(r, t).players == Assign(TeamOf(m, t).players, id, Captain)
    ensures TeamOf(r, t).(players := TeamOf(m, t).players) == TeamOf(m, t)
    ensures TeamOf(r, Opponent(t)) == TeamOf(m, Opponent(t))
    ensures r.(team1 := m.team1, team2 := m.team2) == m
  {
    var team := TeamOf(m, t);
    WithTeam(m, t, team.(players := Assign(team.players, id, Captain)))
  }

  /** `toggleWicketkeeper`. */
  function ToggleWicketkeeper(m: Match, t: TeamSlot, id: PlayerId): (r: Match)
    ensures TeamOf(r, t).players == Assign(TeamOf(m, t).players, id, Wicketkeeper)
    ensures TeamOf(r, t).(players := TeamOf(m, t).players) == TeamOf(m, t)
    ensures TeamOf(r, Opponent(t)) == TeamOf(m, Opponent(t))
    ensures r.(team1 := m.team1, team2 := m.team2) == m
  {
    var team := TeamOf(m, t);
    WithTeam(m, t, team.(players := Assign(team.players, id, Wicketkeeper)))
  }

  /** Number of players holding a role. */
  function Holders(players: seq<Player>, role: Role): nat {
    if players == [] then 0
    else (if HasRole(players[0], role) then 1 else 0) + Holders(players[1..], role)
  }

  predicate UniqueIds(players: seq<Player>) {
    forall i, j :: 0 <= i < j < |players| ==> players[i].id != players[j].id
  }

  /** In a squad with distinct ids, assigning a role leaves exactly one
      holder when the id belongs to a player and none when it does not
      (the "toggle" never un-sets a captain it already named). */
  lemma {:induction false} AssignLeavesOneHolder(players: seq<Player>, id: PlayerId, role: Role)
    requires UniqueIds(players)
    ensures Holders(Assign(players, id, role), role) ==
      if exists p :: p in players && p.id == id then 1 else 0
  {
    if players != [] {
      var r := Assign(players, id, role);
      assert r[1..] == Assign(players[1..], id, role);
      AssignLeavesOneHolder(players[1..], id, role);
      if players[0].id == id {
        forall p | p in players[1..] ensures p.id != id {
          var j :| 0 <= j < |players[1..]| && players[1..][j] == p;
          assert players[j + 1] == p;
        }
      } else {
        assert forall p :: p in players && p.id == id ==> p in players[1..] by {
          assert players == [players[0]] + players[1..];
        }
      }
    }
  }

  /** Toggling the same player twice is the same as toggling once. */
  lemma ToggleCaptainIdempotent(m: Match, t: TeamSlot, id: PlayerId)
    ensures ToggleCaptain(ToggleCaptain(m, t, id), t, id) == ToggleCaptain(m, t, id)
  {
    var ps := TeamOf(m, t).players;
    assert Assign(Assign(ps, id, Captain), id, Captain) == Assign(ps, id, Captain);
  }
}
