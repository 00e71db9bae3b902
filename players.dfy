/** The fixed player rosters and the two selection functions built on them:
    picking an opponent for a difficulty, and picking the "matching player"
    shown on the results screen. */
module Players {
  import opened Common

  datatype Role = Batsman | Bowler | AllRounder

  /** The game difficulty chosen on the home screen. */
  datatype Difficulty = Easy | Medium | Hard

  /** Kinds of bowling a batsman is strong or weak against. */
  datatype Attack = Pace | Spin | Both

  /** A bowler bowls pace or spin, never "both". */
  type BowlingKind = a: Attack | a != Both witness Pace

  datatype BattingStats = BattingStats(
    averageSpeed: real,      // km/h
    reactionTime: real,      // milliseconds
    strongAgainst: seq<Attack>,
    weakAgainst: seq<Attack>,
    style: string)

  datatype BowlingStats = BowlingStats(
    averageSpeed: real,      // km/h
    kind: BowlingKind,
    variation: string,
    accuracy: real,          // 0-100
    style: string)

  datatype Player = Player(
    id: string,
    name: string,
    team: string,
    role: Role,
    image: Option<string>,
    battingStats: Option<BattingStats>,
    bowlingStats: Option<BowlingStats>,
    funFacts: seq<string>)

  const Batsmen: seq<Player> := [
    Player("vk-18", "Virat Kohli", "RCB", Batsman, None,
      Some(BattingStats(145.0, 180.0, [Pace], [Spin], "Aggressive")), None,
      ["Known as the 'King' of cricket",
       "Has scored the most IPL centuries",
       "Famous for his cover drive"]),
    Player("rg-45", "Rohit Sharma", "MI", Batsman, None,
      Some(BattingStats(140.0, 190.0, [Spin], [Pace], "Elegant")), None,
      ["Called the 'Hitman' for his explosive batting",
       "Holds the record for highest individual ODI score",
       "Known for his pull shots"]),
    Player("kl-1", "KL Rahul", "LSG", Batsman, None,
      Some(BattingStats(138.0, 185.0, [Both], [], "Technical")), None,
      ["One of the most consistent IPL batsmen",
       "Known for his classical batting technique",
       "Great wicketkeeper-batsman"])
  ]

  const Bowlers: seq<Player> := [
    Player("jb-93", "Jasprit Bumrah", "MI", Bowler, None, None,
      Some(BowlingStats(145.0, Pace, "Yorker", 90.0, "Unorthodox")),
      ["Has a unique bowling action",
       "Best death bowler in IPL",
       "Known for pin-point yorkers"]),
    Player("rk-8", "Rashid Khan", "GT", Bowler, None, None,
      Some(BowlingStats(90.0, Spin, "Googly", 95.0, "Attacking")),
      ["Best T20 spinner in the world",
       "Batsmen struggle to read his variations",
       "Can bat explosively in the lower order"]),
    Player("yc-90", "Yuzvendra Chahal", "RR", Bowler, None, None,
      Some(BowlingStats(85.0, Spin, "Leg Break", 88.0, "Crafty")),
      ["IPL's highest wicket-taker among spinners",
       "Former chess player",
       "Known for his celebrations"])
  ]

  /** The role of the players a query for `role` draws from: 'batsman'
      selects batsmen, every other role selects bowlers. */
  function RosterRole(role: Role): Role
  {
    if role == Batsman then Batsman else Bowler
  }

  /** The roster both selection functions search: the batsmen for 'batsman',
      the bowlers for anything else. */
  function Roster(role: Role): (players: seq<Player>)
    ensures |players| == 3
    ensures forall p :: p in players ==> p.role == RosterRole(role)
  {
    if role == Batsman then Batsmen else Bowlers
  }

  /** JavaScript's `s.slice(start, end)` for non-negative bounds: both bounds
      are clamped to the length, and an inverted range gives nothing. */
  function Slice<T>(s: seq<T>, start: nat, end: nat): (r: seq<T>)
    ensures |r| == if start <= end && start <= |s| then (if end <= |s| then end else |s|) - start else 0
    ensures forall i :: 0 <= i < |r| ==> r[i] == s[start + i]
  {
    var e := if end <= |s| then end else |s|;
    var b := if start <= e then start else e;
    s[b..e]
  }

  /** The players a difficulty draws from: the first player for easy, the
      second for medium, all the rest for hard. */
  function Pool(players: seq<Player>, difficulty: Difficulty): (pool: seq<Player>)
    ensures forall p :: p in pool ==> p in players
    ensures |players| >= 2 ==> |pool| == (if difficulty == Hard then |players| - 2 else 1)
  {
    match difficulty
    case Easy => Slice(players, 0, 1)
    case Medium => Slice(players, 1, 2)
    case Hard => Slice(players, 2, |players|)
  }

  /** The three pools, in order, are exactly the roster: every player belongs
      to one difficulty and the order of the roster is kept. */
  lemma PoolsPartition(players: seq<Player>)
    ensures Pool(players, Easy) + Pool(players, Medium) + Pool(players, Hard) == players
  {
    var n := |players|;
    if n >= 2 {
      assert Pool(players, Easy) == players[..1];
      assert Pool(players, Medium) == players[1..2];
      assert Pool(players, Hard) == players[2..];
      assert players[..1] + players[1..2] + players[2..] == players;
    } else if n == 1 {
      assert Pool(players, Easy) == players;
    }
  }

  /** With the shipped rosters no player sits in two difficulty pools. */
  lemma PoolsDisjoint(role: Role, d1: Difficulty, d2: Difficulty, p: Player)
    requires d1 != d2 && p in Pool(Roster(role), d1)
    ensures p !in Pool(Roster(role), d2)
  {
    var players := Roster(role);
    assert players[0].id[0] != players[1].id[0];
    assert players[0].id[0] != players[2].id[0];
    assert players[1].id[0] != players[2].id[0];
    assert Pool(players, Easy) == [players[0]];
    assert Pool(players, Medium) == [players[1]];
    assert Pool(players, Hard) == [players[2]];
  }

  /** A shuffle of `n` things: each of 0..n-1 exactly once. It stands for the
      order `[...pool].sort(() => 0.5 - Math.random())` produces, which is
      some permutation of the copied pool. */
  predicate IsShuffle(order: seq<int>, n: nat)
  {
    |order| == n
    && (forall i :: 0 <= i < n ==> 0 <= order[i] < n)
    && (forall i, j :: 0 <= i < j < n ==> order[i] != order[j])
  }

  predicate Distinct(s: seq<Player>)
  {
    forall i, j :: 0 <= i < j < |s| ==> s[i] != s[j]
  }

  /** Index `floor(r * n)` for a random `r` in [0, 1): always a valid index. */
  function RandomIndex(r: real, n: nat): (k: int)
    requires 0.0 <= r < 1.0 && n > 0
    ensures 0 <= k < n
  {
    var k := (r * n as real).Floor;
    assert r * n as real < n as real;
    k
  }

  /** Every index can be drawn: `r = k / n` draws `k`. */
  lemma RandomIndexCovers(k: nat, n: nat)
    requires k < n
    ensures 0.0 <= k as real / n as real < 1.0
    ensures RandomIndex(k as real / n as real, n) == k
  {
    var r := k as real / n as real;
    assert r * n as real == k as real;
  }

  /** `getRandomPlayers(role, difficulty, count)`. `r` is the `Math.random()`
      value used for a single pick; `order` is the shuffle used when more than
      one player is asked for. */
  function GetRandomPlayers(role: Role, difficulty: Difficulty, count: int, r: real, order: seq<int>): (chosen: seq<Player>)
    requires 0.0 <= r < 1.0
    requires count > 1 ==> IsShuffle(order, |Pool(Roster(role), difficulty)|)
    ensures count <= 1 ==> |chosen| == 1
    ensures count > 1 ==>
      var n := |Pool(Roster(role), difficulty)|;
      |chosen| == (if count <= n then count else n) && Distinct(chosen)
    ensures forall p :: p in chosen ==> p in Pool(Roster(role), difficulty) && p.role == RosterRole(role)
  {
    var pool := Pool(Roster(role), difficulty);
    if count > 1 then
      var k := if count <= |pool| then count else |pool|;
      var chosen := seq(k, i requires 0 <= i < k => pool[order[i]]);
      assert Distinct(pool) by { PoolsAreSingletons(role, difficulty); }
      ShuffledPrefixDistinct(pool, order, k);
      chosen
    else
      [pool[RandomIndex(r, |pool|)]]
  }

  /** Each shipped pool holds exactly one player. */
  lemma PoolsAreSingletons(role: Role, difficulty: Difficulty)
    ensures |Pool(Roster(role), difficulty)| == 1
  {
  }

  /** A prefix of a shuffled distinct sequence is distinct. */
  lemma ShuffledPrefixDistinct(pool: seq<Player>, order: seq<int>, k: nat)
    requires IsShuffle(order, |pool|) && Distinct(pool) && k <= |pool|
    ensures Distinct(seq(k, i requires 0 <= i < k => pool[order[i]]))
  {
    var s := seq(k, i requires 0 <= i < k => pool[order[i]]);
    forall i, j | 0 <= i < j < k
      ensures s[i] != s[j]
    {
      assert order[i] != order[j];
      if order[i] < order[j] {
        assert pool[order[i]] != pool[order[j]];
      } else {
        assert pool[order[j]] != pool[order[i]];
      }
    }
  }

  /** With the shipped rosters a difficulty names one opponent: the random
      value of a single pick makes no difference. */
  lemma OpponentIsDetermined(role: Role, difficulty: Difficulty, r1: real, r2: real)
    requires 0.0 <= r1 < 1.0 && 0.0 <= r2 < 1.0
    ensures GetRandomPlayers(role, difficulty, 1, r1, []) == GetRandomPlayers(role, difficulty, 1, r2, [])
    ensures GetRandomPlayers(role, difficulty, 1, r1, [])[0] == Pool(Roster(role), difficulty)[0]
  {
    PoolsAreSingletons(role, difficulty);
  }

  /** The performance figures handed to the matcher. */
  datatype Metrics = Metrics(speed: real, accuracy: real, reactionTime: Option<real>)

  /** `findMatchingPlayer(role, metrics)`: a random member of the role's
      roster. The metrics are accepted and not consulted. */
  function FindMatchingPlayer(role: Role, metrics: Metrics, r: real): (p: Player)
    requires 0.0 <= r < 1.0
    ensures p in Roster(role) && p.role == RosterRole(role)
  {
    var players := Roster(role);
    players[RandomIndex(r, |players|)]
  }

  /** Every roster member can be the match, whatever the metrics: the draw
      `r = k / 3` picks the k-th player. */
  lemma EveryPlayerCanMatch(role: Role, metrics: Metrics, k: nat)
    requires k < 3
    ensures 0.0 <= k as real / 3.0 < 1.0
    ensures FindMatchingPlayer(role, metrics, k as real / 3.0) == Roster(role)[k]
  {
    RandomIndexCovers(k, 3);
  }
}
