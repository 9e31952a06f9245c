/** Record shapes of the scorer (src/types/cricket.ts) and the two pieces of
    JavaScript semantics the scoring code leans on: truthiness of player-id
    slots and the truncating remainder operator. */
module CricketTypes {

  datatype Option<T> = None | Some(value: T)

  /** Player ids are uuid strings; the empty string is falsy in the source. */
  type PlayerId = string

  datatype MatchStatus = Setup | Toss | InProgress | InningsBreak | Completed

  /** The source's `InningsNumber` is the literal type `1 | 2`. */
  type InningsNumber = n: int | n == 1 || n == 2 witness 1

  datatype BallType = Normal | Wide | NoBall | Bye | LegBye

  /** The first parameter of `addExtra`: every ball type except 'normal'. */
  type ExtraKind = k: BallType | k != Normal witness Wide

  datatype WicketType =
    | Bowled | Caught | Lbw | Stumped | RunOut | HitWicket | Retired
    | Obstructing | HandledBall | TimedOut | Other

  datatype TossDecision = Bat | Bowl

  /** The two keys of `match.teams`, also used for `battingTeam` and the toss winner. */
  datatype TeamSlot = Team1 | Team2

  datatype Player = Player(id: PlayerId, name: string, isCaptain: bool, isWicketkeeper: bool)

  datatype Team = Team(id: string, name: string, players: seq<Player>)

  /** One logged delivery. `over` and `ball` are the position as recorded,
      `extraType`, `wicketType` and `wicketPlayerId` are the optional fields. */
  datatype BallData = BallData(
    id: string,
    over: int,
    ball: int,
    batsmanId: PlayerId,
    bowlerId: PlayerId,
    runs: int,
    extras: int,
    extraType: Option<BallType>,
    isWicket: bool,
    wicketType: Option<WicketType>,
    wicketPlayerId: Option<PlayerId>,
    timestamp: int)

  datatype BattingStats = BattingStats(
    playerId: PlayerId,
    runs: int,
    ballsFaced: int,
    fours: int,
    sixes: int,
    dotBalls: int,
    isOut: bool,
    wicketType: Option<WicketType>,
    bowlerId: Option<PlayerId>)

  /** The bowling aggregate without its floating-point `economy` field. */
  datatype BowlingStats = BowlingStats(
    playerId: PlayerId,
    overs: int,
    maidens: int,
    runs: int,
    wickets: int,
    dots: int)

  datatype TossResult = TossResult(winner: TeamSlot, decision: TossDecision)

  /** The per-innings record (`match.innings.first` / `.second`). */
  datatype Innings = Innings(
    balls: seq<BallData>,
    currentOver: int,
    currentBall: int,
    totalRuns: int,
    wickets: int,
    battingStats: map<PlayerId, BattingStats>,
    bowlingStats: map<PlayerId, BowlingStats>,
    striker: Option<PlayerId>,
    nonStriker: Option<PlayerId>,
    currentBowler: Option<PlayerId>)

  /** The root record; `team1`/`team2` are `teams.team1`/`teams.team2`,
      `first`/`second` are `innings.first`/`innings.second`. */
  datatype Match = Match(
    id: string,
    code: string,
    status: MatchStatus,
    team1: Team,
    team2: Team,
    toss: Option<TossResult>,
    totalOvers: int,
    currentInnings: InningsNumber,
    battingTeam: TeamSlot,
    first: Innings,
    second: Innings,
    created: int,
    updated: int)

  /** A player slot is truthy in the source exactly when it holds a non-empty id. */
  predicate Filled(slot: Option<PlayerId>) {
    slot.Some? && slot.value != ""
  }

  /** JavaScript's `a % n`: the remainder truncated toward zero, so it takes
      the sign of `a`. */
  function JsRem(a: int, n: int): (r: int)
    requires n > 0
    ensures -n < r < n
    ensures a >= 0 ==> r == a % n
    ensures a < 0 ==> r <= 0
    ensures (a - r) % n == 0
  {
    JsRemDivides(a, n);
    if a >= 0 then a % n else -((-a) % n)
  }

  /** Both branches of `JsRem` differ from the dividend by a multiple of `n`. */
  lemma JsRemDivides(a: int, n: int)
    requires n > 0
    ensures a >= 0 ==> (a - a % n) % n == 0
    ensures a < 0 ==> (a + (-a) % n) % n == 0
  {
    if a >= 0 {
      assert a - a % n == (a / n) * n;
      MultipleRem(a / n, n);
    } else {
      var b := -a;
      assert b == (b / n) * n + b % n;
      assert a + b % n == (-(b / n)) * n;
      MultipleRem(-(b / n), n);
    }
  }

  /** A multiple of `n` leaves no remainder. */
  lemma MultipleRem(q: int, n: int)
    requires n > 0
    ensures (q * n) % n == 0
  {
    var x := q * n;
    var k := q - x / n;
    assert x == (x / n) * n + x % n;
    assert x % n == k * n;
  }

  /** `x % 2 === 1` in the source. */
  predicate IsOdd(x: int) {
    JsRem(x, 2) == 1
  }

  /** The other team slot (`x === 'team1' ? 'team2' : 'team1'`). */
  function Opponent(t: TeamSlot): (r: TeamSlot)
    ensures r != t
  {
    if t == Team1 then Team2 else Team1
  }
}
