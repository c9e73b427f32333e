/** The speed-clicker game: the local click/win/reset state machine, the winner search
    over the session's players, the online ranking and the `M:SS` clock. The players
    object is a sequence of entries in the order `Object.entries` lists them; a missing
    (`null`/`undefined`) players object is `None`. */
module GameLogic {
  import opened Wrappers
  import opened Strings

  /** The score that wins a round. */
  const TargetScore: int := 10

  /** The module-level `gameState` record together with `currentScore`. Clock readings are
      milliseconds; `roundStartTime` is `None` until the game is first initialised. */
  datatype GameState = GameState(
    currentRound: int,
    targetScore: int,
    gameActive: bool,
    roundStartTime: Option<int>,
    currentScore: int)

  /** The state when the module loads. */
  const InitialState: GameState := GameState(1, TargetScore, true, None, 0)

  /** A state change together with the score written to this player's record, if any. */
  datatype Effect = Effect(state: GameState, synced: Option<int>)

  /** `initializeGame`: the round starts now, active, with a zero score. */
  function InitializeGame(s: GameState, now: int): (s': GameState)
    ensures s'.currentScore == 0 && s'.gameActive && s'.roundStartTime == Some(now)
    ensures s'.currentRound == s.currentRound && s'.targetScore == s.targetScore
  {
    s.(roundStartTime := Some(now), gameActive := true, currentScore := 0)
  }

  /** The fields `initializeGame` writes to the session's shared game state; a field the
      call leaves out is `None`. */
  datatype SessionUpdate = SessionUpdate(targetScore: int, roundStartTime: int, currentRound: Option<int>)

  /** The update the reference `initializeGame` sends. The call reads the clock twice:
      `stamp`, the first reading, goes into the update, and the second, `later`, becomes
      the local round start. The target and the round number agree with the local state
      whatever the second reading is. The shared round start is not after the local one
      when the clock has not gone back between the readings. */
  function InitPayload(s: GameState, stamp: int): (u: SessionUpdate)
    ensures u.roundStartTime == stamp
    ensures forall later :: u.targetScore == InitializeGame(s, later).targetScore
    ensures forall later :: u.currentRound == Some(InitializeGame(s, later).currentRound)
    ensures forall later :: stamp <= later ==>
              InitializeGame(s, later).roundStartTime.Some? &&
              u.roundStartTime <= InitializeGame(s, later).roundStartTime.value
  {
    SessionUpdate(s.targetScore, stamp, Some(s.currentRound))
  }

  /** `endGame(message)`: the game stops accepting clicks; nothing else changes. */
  function EndGame(s: GameState): (s': GameState)
    ensures !s'.gameActive
    ensures s'.currentScore == s.currentScore && s'.currentRound == s.currentRound
    ensures s'.targetScore == s.targetScore && s'.roundStartTime == s.roundStartTime
  {
    s.(gameActive := false)
  }

  /** `onActionButtonClick`: ignored while the game is inactive; otherwise one point,
      written to the player's record, and the end of the game once the target is met. */
  function OnActionButtonClick(s: GameState): (r: Effect)
    ensures !s.gameActive ==> r == Effect(s, None)
    ensures s.gameActive ==> r.state.currentScore == s.currentScore + 1 && r.synced == Some(r.state.currentScore)
    ensures s.gameActive ==> (r.state.gameActive <==> r.state.currentScore < s.targetScore)
    ensures r.state.currentRound == s.currentRound && r.state.targetScore == s.targetScore
    ensures r.state.roundStartTime == s.roundStartTime
  {
    if !s.gameActive then Effect(s, None)
    else
      var scored := s.(currentScore := s.currentScore + 1);
      var after := if scored.currentScore >= scored.targetScore then EndGame(scored) else scored;
      Effect(after, Some(scored.currentScore))
  }

  /** `resetGame`: a new round starts now, active, with the score zeroed locally and in
      the player's record. */
  function ResetGame(s: GameState, now: int): (r: Effect)
    ensures r.state.currentScore == 0 && r.state.gameActive && r.synced == Some(0)
    ensures r.state.currentRound == s.currentRound + 1 && r.state.roundStartTime == Some(now)
    ensures r.state.targetScore == s.targetScore
  {
    Effect(s.(currentScore := 0, gameActive := true, currentRound := s.currentRound + 1,
              roundStartTime := Some(now)), Some(0))
  }

  /** What can happen to the local game state. */
  datatype Event = Initialize(now: int) | ActionClick | Reset(now: int)

  function Step(s: GameState, e: Event): GameState {
    match e
    case Initialize(now) => InitializeGame(s, now)
    case ActionClick => OnActionButtonClick(s).state
    case Reset(now) => ResetGame(s, now).state
  }

  /** The state after a sequence of events. */
  function Run(s: GameState, events: seq<Event>): GameState {
    if events == [] then s else Step(Run(s, events[..|events| - 1]), events[|events| - 1])
  }

  /** The target is fixed, the score never passes it, and an active game is below it. */
  predicate ScoreInvariant(s: GameState) {
    && s.targetScore == TargetScore
    && 0 <= s.currentScore <= s.targetScore
    && (s.gameActive ==> s.currentScore < s.targetScore)
  }

  lemma StepKeepsInvariant(s: GameState, e: Event)
    requires ScoreInvariant(s)
    ensures ScoreInvariant(Step(s, e))
  {
  }

  /** From the loaded state, whatever the player does, the score stays within 0..10. */
  lemma {:induction false} ScoreNeverPassesTarget(events: seq<Event>)
    ensures ScoreInvariant(Run(InitialState, events))
    ensures 0 <= Run(InitialState, events).currentScore <= TargetScore
  {
    if events != [] {
      ScoreNeverPassesTarget(events[..|events| - 1]);
      StepKeepsInvariant(Run(InitialState, events[..|events| - 1]), events[|events| - 1]);
    }
  }

  /** Ten clicks after initialisation win the round, and an eleventh changes nothing. */
  lemma TenClicksWin(now: int)
    ensures var s := Run(InitialState, [Initialize(now)] + seq(10, _ => ActionClick));
            s.currentScore == 10 && !s.gameActive
    ensures var s := Run(InitialState, [Initialize(now)] + seq(11, _ => ActionClick));
            s.currentScore == 10 && !s.gameActive
  {
    RunClicks(now, 10);
    RunClicks(now, 11);
  }

  /** The state after initialising and then clicking `k` times. */
  lemma {:induction false} RunClicks(now: int, k: nat)
    ensures Run(InitialState, [Initialize(now)] + seq(k, _ => ActionClick)) ==
      InitialState.(roundStartTime := Some(now), currentScore := if k <= 10 then k else 10, gameActive := k < 10)
  {
    var events := [Initialize(now)] + seq(k, _ => ActionClick);
    if k == 0 {
      assert events == [Initialize(now)];
      assert events[..0] == [];
    } else {
      assert events[..|events| - 1] == [Initialize(now)] + seq(k - 1, _ => ActionClick);
      assert events[|events| - 1] == ActionClick;
      RunClicks(now, k - 1);
    }
  }

  // ---------------------------------------------------------------------------
  // Players
  // ---------------------------------------------------------------------------

  /** A player record as stored in the session; `score` is `None` while unset. */
  datatype Player = Player(name: string, score: Option<int>, online: bool)

  datatype PlayerEntry = PlayerEntry(id: string, player: Player)

  /** The winner report `checkWinCondition` builds. */
  datatype Winner = Winner(playerId: string, name: string, score: int, timeElapsed: int)

  /** `player.score >= targetScore && player.online`; an unset score compares false. */
  predicate Wins(p: Player, target: int) {
    p.score.Some? && p.score.value >= target && p.online
  }

  /** The position of the first winning entry. */
  function FirstWinner(entries: seq<PlayerEntry>, target: int): (r: Option<nat>)
    ensures r.Some? ==> r.value < |entries| && Wins(entries[r.value].player, target)
    ensures r.Some? ==> forall j :: 0 <= j < r.value ==> !Wins(entries[j].player, target)
    ensures r.None? ==> forall j :: 0 <= j < |entries| ==> !Wins(entries[j].player, target)
  {
    if entries == [] then None
    else if Wins(entries[0].player, target) then Some(0)
    else
      match FirstWinner(entries[1..], target)
      case None => None
      case Some(i) => Some(i + 1)
  }

  /** `checkWinCondition(players)` at clock reading `now`: the first online entry that
      reached the target. The elapsed time counts from the round start, or from 0 while
      there is none (`null` subtracts as 0). */
  function CheckWinCondition(players: Option<seq<PlayerEntry>>, s: GameState, now: int): (r: Option<Winner>)
    ensures players.None? ==> r.None?
    ensures players.Some? ==>
      (r.None? <==> forall j :: 0 <= j < |players.value| ==> !Wins(players.value[j].player, s.targetScore))
    ensures r.Some? ==> players.Some? && exists i :: 0 <= i < |players.value| && WinnerAt(players.value, i, s, now, r.value)
  {
    match players
    case None => None
    case Some(entries) =>
      match FirstWinner(entries, s.targetScore)
      case None => None
      case Some(i) =>
        var e := entries[i];
        assert WinnerAt(entries, i, s, now, Winner(e.id, e.player.name, e.player.score.value, now - s.roundStartTime.GetOr(0)));
        Some(Winner(e.id, e.player.name, e.player.score.value, now - s.roundStartTime.GetOr(0)))
  }

  /** Entry `i` is the first winning entry and `w` reports it. */
  predicate WinnerAt(entries: seq<PlayerEntry>, i: int, s: GameState, now: int, w: Winner) {
    && 0 <= i < |entries|
    && Wins(entries[i].player, s.targetScore)
    && (forall j :: 0 <= j < i ==> !Wins(entries[j].player, s.targetScore))
    && w.playerId == entries[i].id && w.name == entries[i].player.name
    && Some(w.score) == entries[i].player.score
    && w.timeElapsed == now - s.roundStartTime.GetOr(0)
  }

  /** An offline player never wins, whatever the score. */
  lemma OfflineNeverWins(players: Option<seq<PlayerEntry>>, s: GameState, now: int)
    requires CheckWinCondition(players, s, now).Some?
    ensures exists i :: 0 <= i < |players.value| && players.value[i].player.online
                        && players.value[i].id == CheckWinCondition(players, s, now).value.playerId
  {
    var w := CheckWinCondition(players, s, now).value;
    var i :| 0 <= i < |players.value| && WinnerAt(players.value, i, s, now, w);
    assert players.value[i].player.online;
  }

  /** `getElapsedTime()` at clock reading `now`: 0 while the round start is unset or 0
      (both falsy), else the time since it. */
  function GetElapsedTime(s: GameState, now: int): (r: int)
    ensures s.roundStartTime.None? || s.roundStartTime == Some(0) ==> r == 0
    ensures s.roundStartTime.Some? && s.roundStartTime.value != 0 ==> r + s.roundStartTime.value == now
  {
    match s.roundStartTime
    case None => 0
    case Some(t) => if t == 0 then 0 else now - t
  }

  /** A winner's reported time is the elapsed time once a round has started at a
      non-zero clock reading; with no start recorded it is the raw clock reading. */
  lemma WinnerTimeIsElapsed(players: Option<seq<PlayerEntry>>, s: GameState, now: int)
    requires CheckWinCondition(players, s, now).Some?
    ensures s.roundStartTime.Some? && s.roundStartTime.value != 0 ==>
              CheckWinCondition(players, s, now).value.timeElapsed == GetElapsedTime(s, now)
    ensures s.roundStartTime.None? ==> CheckWinCondition(players, s, now).value.timeElapsed == now
  {
    var w := CheckWinCondition(players, s, now).value;
    var i :| 0 <= i < |players.value| && WinnerAt(players.value, i, s, now, w);
  }

  /** `players[playerId]`: the first entry with that id. */
  function Lookup(entries: seq<PlayerEntry>, id: string): (r: Option<Player>)
    ensures r.None? <==> forall i :: 0 <= i < |entries| ==> entries[i].id != id
    ensures r.Some? ==> exists i :: 0 <= i < |entries| && entries[i].id == id && entries[i].player == r.value
  {
    if entries == [] then None
    else if entries[0].id == id then Some(entries[0].player)
    else
      var r := Lookup(entries[1..], id);
      assert r.Some? ==> exists i :: 0 <= i < |entries[1..]| && entries[1..][i].id == id && entries[1..][i].player == r.value;
      assert forall i :: 1 <= i < |entries| ==> entries[i] == entries[1..][i - 1];
      r
  }

  /** `getCurrentPlayer(players, playerId)`: `null` for a missing players object, an
      empty id or an absent id; a stored player object is always truthy. */
  function GetCurrentPlayer(players: Option<seq<PlayerEntry>>, playerId: string): (r: Option<Player>)
    ensures r.Some? <==> players.Some? && playerId != "" && exists i :: 0 <= i < |players.value| && players.value[i].id == playerId
    ensures r.Some? ==> exists i :: 0 <= i < |players.value| && players.value[i].id == playerId && players.value[i].player == r.value
  {
    if players.None? || playerId == "" then None else Lookup(players.value, playerId)
  }

  // ---------------------------------------------------------------------------
  // Ranking
  // ---------------------------------------------------------------------------

  /** An entry of the ranked list: id, name and `score || 0`. */
  datatype Standing = Standing(id: string, name: string, score: int)

  function StandingOf(e: PlayerEntry): Standing {
    Standing(e.id, e.player.name, e.player.score.GetOr(0))
  }

  /** The online players, in entry order, as standings. */
  function OnlineStandings(entries: seq<PlayerEntry>): (r: seq<Standing>)
    ensures |r| <= |entries|
  {
    if entries == [] then []
    else (if entries[0].player.online then [StandingOf(entries[0])] else []) + OnlineStandings(entries[1..])
  }

  /** A standing is listed exactly when it comes from an online entry. */
  lemma {:induction false} OnlineStandingsMembers(entries: seq<PlayerEntry>, x: Standing)
    ensures x in OnlineStandings(entries) <==>
            exists i :: 0 <= i < |entries| && entries[i].player.online && StandingOf(entries[i]) == x
  {
    if entries != [] {
      OnlineStandingsMembers(entries[1..], x);
      if exists i :: 0 <= i < |entries[1..]| && entries[1..][i].player.online && StandingOf(entries[1..][i]) == x {
        var i :| 0 <= i < |entries[1..]| && entries[1..][i].player.online && StandingOf(entries[1..][i]) == x;
        assert entries[i + 1] == entries[1..][i];
      }
      if exists i :: 0 <= i < |entries| && entries[i].player.online && StandingOf(entries[i]) == x {
        var i :| 0 <= i < |entries| && entries[i].player.online && StandingOf(entries[i]) == x;
        if i > 0 {
          assert entries[1..][i - 1] == entries[i];
        }
      }
    }
  }

  /** Scores never increase along the list. */
  predicate Descending(s: seq<Standing>) {
    forall i, j :: 0 <= i < j < |s| ==> s[i].score >= s[j].score
  }

  /** Places `x` before the first standing it does not score below, so it goes ahead
      of equal scores that came after it in the input. */
  function Insert(x: Standing, t: seq<Standing>): (r: seq<Standing>)
    ensures |r| == |t| + 1 && multiset(r) == multiset(t) + multiset{x}
  {
    if t == [] || x.score >= t[0].score then [x] + t
    else
      assert t == [t[0]] + t[1..];
      [t[0]] + Insert(x, t[1..])
  }

  /** `.sort((a, b) => b.score - a.score)`, a stable sort on descending score. */
  function SortByScore(s: seq<Standing>): (r: seq<Standing>)
    ensures |r| == |s| && multiset(r) == multiset(s)
  {
    if s == [] then []
    else
      assert s == [s[0]] + s[1..];
      Insert(s[0], SortByScore(s[1..]))
  }

  /** Each score is at least the next one. */
  predicate Chained(s: seq<Standing>) {
    |s| <= 1 || (s[0].score >= s[1].score && Chained(s[1..]))
  }

  lemma {:induction false} ChainedDescending(s: seq<Standing>)
    requires Chained(s)
    ensures Descending(s)
  {
    if |s| > 1 {
      ChainedDescending(s[1..]);
      forall i, j | 0 <= i < j < |s| ensures s[i].score >= s[j].score {
        if i == 0 {
          assert s[1..][0].score >= s[1..][j - 1].score;
        } else {
          assert s[1..][i - 1].score >= s[1..][j - 1].score;
        }
      }
    }
  }

  lemma {:induction false} InsertChained(x: Standing, t: seq<Standing>)
    requires Chained(t)
    ensures Chained(Insert(x, t))
    ensures Insert(x, t)[0] == x || (t != [] && Insert(x, t)[0] == t[0])
  {
    if t != [] && x.score < t[0].score {
      InsertChained(x, t[1..]);
      var rest := Insert(x, t[1..]);
      assert Insert(x, t) == [t[0]] + rest;
      assert ([t[0]] + rest)[1..] == rest;
    } else {
      assert ([x] + t)[1..] == t;
    }
  }

  /** The ranked list is ordered by descending score. */
  lemma SortDescending(s: seq<Standing>)
    ensures Descending(SortByScore(s))
  {
    SortChained(s);
    ChainedDescending(SortByScore(s));
  }

  lemma {:induction false} SortChained(s: seq<Standing>)
    ensures Chained(SortByScore(s))
  {
    if s != [] {
      SortChained(s[1..]);
      InsertChained(s[0], SortByScore(s[1..]));
    }
  }

  /** The standings with score `k`, in order. */
  function WithScore(s: seq<Standing>, k: int): (r: seq<Standing>)
    ensures |r| <= |s|
  {
    if s == [] then [] else (if s[0].score == k then [s[0]] else []) + WithScore(s[1..], k)
  }

  lemma {:induction false} WithScoreConcat(a: seq<Standing>, b: seq<Standing>, k: int)
    ensures WithScore(a + b, k) == WithScore(a, k) + WithScore(b, k)
  {
    if a != [] {
      assert (a + b)[1..] == a[1..] + b;
      WithScoreConcat(a[1..], b, k);
    } else {
      assert a + b == b;
    }
  }

  /** Inserting `x` puts it ahead of every equal score already placed. */
  lemma {:induction false} InsertWithScore(x: Standing, t: seq<Standing>, k: int)
    ensures WithScore(Insert(x, t), k) == WithScore([x], k) + WithScore(t, k)
  {
    WithScoreConcat([x], t, k);
    if t != [] && x.score < t[0].score {
      var rest := Insert(x, t[1..]);
      assert Insert(x, t) == [t[0]] + rest;
      InsertWithScore(x, t[1..], k);
      WithScoreConcat([t[0]], rest, k);
      WithScoreConcat([t[0]], t[1..], k);
      assert [t[0]] + t[1..] == t;
      // x and t[0] have different scores, so at most one of them has score k
      assert WithScore([x], k) == [] || WithScore([t[0]], k) == [];
    }
  }

  /** Stability: players with equal scores keep their entry order. */
  lemma {:induction false} SortStable(s: seq<Standing>, k: int)
    ensures WithScore(SortByScore(s), k) == WithScore(s, k)
  {
    if s != [] {
      var t := SortByScore(s[1..]);
      assert SortByScore(s) == Insert(s[0], t);
      SortStable(s[1..], k);
      InsertWithScore(s[0], t, k);
      assert WithScore(SortByScore(s), k) == WithScore([s[0]], k) + WithScore(s[1..], k);
      WithScoreConcat([s[0]], s[1..], k);
      assert [s[0]] + s[1..] == s;
    }
  }

  /** `getRankedPlayers(players)`. */
  function GetRankedPlayers(players: Option<seq<PlayerEntry>>): (r: seq<Standing>)
    ensures players.None? ==> r == []
  {
    match players
    case None => []
    case Some(entries) => SortByScore(OnlineStandings(entries))
  }

  /** The ranked list holds exactly the online players, ordered by descending score,
      with ties in entry order. */
  lemma RankedPlayersSpec(entries: seq<PlayerEntry>, k: int)
    ensures multiset(GetRankedPlayers(Some(entries))) == multiset(OnlineStandings(entries))
    ensures Descending(GetRankedPlayers(Some(entries)))
    ensures WithScore(GetRankedPlayers(Some(entries)), k) == WithScore(OnlineStandings(entries), k)
  {
    SortDescending(OnlineStandings(entries));
    SortStable(OnlineStandings(entries), k);
  }

  /** `findIndex(p => p.id === playerId)`. */
  function IndexOfId(s: seq<Standing>, id: string): (r: Option<nat>)
    ensures r.None? <==> forall i :: 0 <= i < |s| ==> s[i].id != id
    ensures r.Some? ==> r.value < |s| && s[r.value].id == id
    ensures r.Some? ==> forall j :: 0 <= j < r.value ==> s[j].id != id
  {
    if s == [] then None
    else if s[0].id == id then Some(0)
    else
      match IndexOfId(s[1..], id)
      case None => None
      case Some(i) => Some(i + 1)
  }

  /** `getPlayerRank(players, playerId)`: the 1-based place in the ranked list, or 0. */
  function GetPlayerRank(players: Option<seq<PlayerEntry>>, playerId: string): (r: nat)
    ensures players.None? ==> r == 0
    ensures players.Some? ==> r <= |OnlineStandings(players.value)|
    ensures r > 0 ==> GetRankedPlayers(players)[r - 1].id == playerId
    ensures r > 0 ==> forall j :: 0 <= j < r - 1 ==> GetRankedPlayers(players)[j].id != playerId
    ensures r == 0 <==> forall i :: 0 <= i < |GetRankedPlayers(players)| ==> GetRankedPlayers(players)[i].id != playerId
  {
    var ranked := GetRankedPlayers(players);
    assert players.Some? ==> |ranked| == |OnlineStandings(players.value)|;
    match IndexOfId(ranked, playerId)
    case None => 0
    case Some(i) => i + 1
  }

  /** A player has rank 0 exactly when no online entry carries the id. */
  lemma RankZeroIffNotOnline(entries: seq<PlayerEntry>, playerId: string)
    ensures GetPlayerRank(Some(entries), playerId) == 0 <==>
            forall i :: 0 <= i < |entries| && entries[i].player.online ==> entries[i].id != playerId
  {
    var ranked := GetRankedPlayers(Some(entries));
    if GetPlayerRank(Some(entries), playerId) > 0 {
      var x := ranked[GetPlayerRank(Some(entries), playerId) - 1];
      assert x in multiset(OnlineStandings(entries));
      OnlineStandingsMembers(entries, x);
    } else {
      forall i | 0 <= i < |entries| && entries[i].player.online
        ensures entries[i].id != playerId
      {
        OnlineStandingsMembers(entries, StandingOf(entries[i]));
        assert StandingOf(entries[i]) in multiset(ranked);
      }
    }
  }

  /** The number of standings scoring above `v`, and at least `v`. */
  function CountAbove(s: seq<Standing>, v: int): (n: nat)
    ensures n <= |s|
  {
    if s == [] then 0 else (if s[0].score > v then 1 else 0) + CountAbove(s[1..], v)
  }

  function CountAtLeast(s: seq<Standing>, v: int): (n: nat)
    ensures n <= |s|
  {
    if s == [] then 0 else (if s[0].score >= v then 1 else 0) + CountAtLeast(s[1..], v)
  }

  lemma {:induction false} CountsInsert(x: Standing, t: seq<Standing>, v: int)
    ensures CountAbove(Insert(x, t), v) == CountAbove([x], v) + CountAbove(t, v)
    ensures CountAtLeast(Insert(x, t), v) == CountAtLeast([x], v) + CountAtLeast(t, v)
  {
    if t != [] && x.score < t[0].score {
      CountsInsert(x, t[1..], v);
    }
  }

  /** Sorting keeps the counts. */
  lemma {:induction false} CountsSort(s: seq<Standing>, v: int)
    ensures CountAbove(SortByScore(s), v) == CountAbove(s, v)
    ensures CountAtLeast(SortByScore(s), v) == CountAtLeast(s, v)
  {
    if s != [] {
      CountsSort(s[1..], v);
      CountsInsert(s[0], SortByScore(s[1..]), v);
    }
  }

  /** In a descending list, the entries ahead of position `p` all score at least `s[p]`
      and the entries from `p` on score at most `s[p]`. */
  lemma {:induction false} CountsAroundPosition(s: seq<Standing>, p: nat)
    requires Descending(s) && p < |s|
    ensures CountAbove(s, s[p].score) <= p < CountAtLeast(s, s[p].score)
  {
    if p > 0 {
      assert Descending(s[1..]) by {
        forall i, j | 0 <= i < j < |s[1..]| ensures s[1..][i].score >= s[1..][j].score {
          assert s[1..][i] == s[i + 1] && s[1..][j] == s[j + 1];
        }
      }
      CountsAroundPosition(s[1..], p - 1);
      assert s[1..][p - 1] == s[p];
    } else {
      AllAtMost(s, s[0].score);
    }
  }

  lemma {:induction false} AllAtMost(s: seq<Standing>, v: int)
    requires forall i :: 0 <= i < |s| ==> s[i].score <= v
    ensures CountAbove(s, v) == 0
  {
    if s != [] {
      AllAtMost(s[1..], v);
    }
  }

  /** A ranked player is behind every online player with a higher score and ahead of
      no more than the others with the same score: with `v` the player's score,
      `#(score > v) < rank <= #(score >= v)`. */
  lemma RankBetweenCounts(entries: seq<PlayerEntry>, playerId: string)
    requires GetPlayerRank(Some(entries), playerId) > 0
    ensures var rank := GetPlayerRank(Some(entries), playerId);
            var v := GetRankedPlayers(Some(entries))[rank - 1].score;
            CountAbove(OnlineStandings(entries), v) < rank <= CountAtLeast(OnlineStandings(entries), v)
  {
    var rank := GetPlayerRank(Some(entries), playerId);
    var ranked := GetRankedPlayers(Some(entries));
    SortDescending(OnlineStandings(entries));
    CountsAroundPosition(ranked, rank - 1);
    CountsSort(OnlineStandings(entries), ranked[rank - 1].score);
  }

  // ---------------------------------------------------------------------------
  // The clock
  // ---------------------------------------------------------------------------

  /** JavaScript's `a % b` for `b > 0`: the remainder takes the sign of `a`. */
  function JsRem(a: int, b: int): (r: int)
    requires b > 0
    ensures a >= 0 ==> 0 <= r < b
    ensures a < 0 ==> -b < r <= 0
  {
    if a >= 0 then a % b else -((-a) % b)
  }

  /** `formatTime(milliseconds)` on a whole number of milliseconds: whole minutes, a
      colon, and the remaining seconds padded to two digits. `Math.floor` of a quotient
      by a positive divisor is Dafny's `/`. */
  function FormatTime(milliseconds: int): string {
    var totalSeconds := milliseconds / 1000;
    var minutes := totalSeconds / 60;
    var seconds := JsRem(totalSeconds, 60);
    IntToString(minutes) + ":" + PadStart(IntToString(seconds), 2, '0')
  }

  /** For a non-negative time the rendering is `M:SS`: the minutes unpadded and exactly
      two digits of seconds. */
  lemma FormatTimeShape(milliseconds: int)
    requires milliseconds >= 0
    ensures var t := milliseconds / 1000;
            FormatTime(milliseconds) == NatToString(t / 60) + ":" + [DigitChar(t % 60 / 10), DigitChar(t % 60 % 10)]
  {
    var t := milliseconds / 1000;
    assert JsRem(t, 60) == t % 60;
    assert IntToString(t / 60) == NatToString(t / 60);
    PadTwoDigits(t % 60);
  }

  /** A number below 100, padded to two places, is its two decimal digits. */
  lemma PadTwoDigits(n: nat)
    requires n < 100
    ensures PadStart(IntToString(n), 2, '0') == [DigitChar(n / 10), DigitChar(n % 10)]
  {
    var q, r := n / 10, n % 10;
    assert q < 10 && r < 10;
    if n < 10 {
      assert q == 0 && r == n;
      var d := [DigitChar(n)];
      assert IntToString(n) == d;
      assert PadStart(d, 2, '0') == seq(1, _ => '0') + d;
    } else {
      var d := [DigitChar(q)] + [DigitChar(r)];
      assert NatToString(q) == [DigitChar(q)];
      assert IntToString(n) == d;
    }
  }

  /** Reads a rendered clock back into whole seconds. */
  function ParseClock(s: string): int
    requires |s| >= 3
  {
    ParseNat(s[..|s| - 3]) * 60 + ParseNat(s[|s| - 2..])
  }

  /** The rendering loses nothing but the milliseconds: reading it back gives the
      whole seconds, with the seconds field below 60. */
  lemma FormatTimeRoundTrip(milliseconds: int)
    requires milliseconds >= 0
    ensures |FormatTime(milliseconds)| >= 4
    ensures ParseClock(FormatTime(milliseconds)) == milliseconds / 1000
    ensures ParseNat(FormatTime(milliseconds)[|FormatTime(milliseconds)| - 2..]) < 60
  {
    FormatTimeShape(milliseconds);
    ClockRoundTrip(FormatTime(milliseconds), milliseconds / 1000);
  }

  /** The `M:SS` rendering `r` of `t` whole seconds reads back as `t`. */
  lemma ClockRoundTrip(r: string, t: nat)
    requires r == NatToString(t / 60) + ":" + [DigitChar(t % 60 / 10), DigitChar(t % 60 % 10)]
    ensures |r| >= 4 && ParseClock(r) == t && ParseNat(r[|r| - 2..]) < 60
  {
    var sec := t % 60;
    var m := NatToString(t / 60);
    var digits := [DigitChar(sec / 10), DigitChar(sec % 10)];
    ClockFields(m, digits);
    ParseNatToString(t / 60);
    ParseTwoDigits(sec / 10, sec % 10);
    assert ParseClock(r) == (t / 60) * 60 + sec;
  }

  /** The fields of `m + ":" + d` for a two-character `d`. */
  lemma ClockFields(m: string, d: string)
    requires |d| == 2
    ensures var r := m + ":" + d; |r| == |m| + 3 && r[..|r| - 3] == m && r[|r| - 2..] == d
  {
    var r := m + ":" + d;
    assert r[..|r| - 3] == m;
    assert r[|r| - 2..] == d;
  }

  lemma ParseTwoDigits(a: nat, b: nat)
    requires a < 10 && b < 10
    ensures ParseNat([DigitChar(a), DigitChar(b)]) == a * 10 + b
  {
    var s := [DigitChar(a), DigitChar(b)];
    assert s[..1] == [DigitChar(a)];
    assert [DigitChar(a)][..0] == [];
    assert ParseNat([DigitChar(a)]) == a;
    assert ParseNat(s) == ParseNat(s[..1]) * 10 + DigitValue(DigitChar(b));
  }

  /** `formatTime(65000)` is "1:05". */
  lemma FormatTimeExample()
    ensures FormatTime(65000) == "1:05"
  {
    assert 65000 / 1000 == 65;
    assert 65 / 60 == 1;
    assert JsRem(65, 60) == 5;
    assert IntToString(1) == "1";
    assert IntToString(5) == "5";
    assert PadStart("5", 2, '0') == "05";
  }

  /** A negative time keeps JavaScript's signs: the minutes round down and the seconds
      take the sign of the total, so -1000 ms renders as "-1:-1". */
  lemma FormatTimeNegative()
    ensures FormatTime(-1000) == "-1:-1"
  {
    assert -1000 / 1000 == -1;
    assert -1 / 60 == -1;
    assert JsRem(-1, 60) == -1;
    assert IntToString(-1) == "-1";
    assert PadStart("-1", 2, '0') == "-1";
  }
}

/** The starter template of the game: the same state record, `initializeGame`,
    `getCurrentPlayer` and `getPlayerRank` as the reference, with the click handler and
    the winner check left as stubs. */
module GameStarter {
  import opened Wrappers
  import GameLogic

  /** The update the starter's `initializeGame` sends: the target and the first clock
      reading `stamp`, without the round number. As in the reference, the local effect
      is `GameLogic.InitializeGame` at the second reading `later`. */
  function InitPayload(s: GameLogic.GameState, stamp: int): (u: GameLogic.SessionUpdate)
    ensures u.roundStartTime == stamp
    ensures forall later :: u.targetScore == GameLogic.InitializeGame(s, later).targetScore
    ensures forall later :: stamp <= later ==>
              GameLogic.InitializeGame(s, later).roundStartTime.Some? &&
              u.roundStartTime <= GameLogic.InitializeGame(s, later).roundStartTime.value
    ensures u.currentRound.None?
  {
    GameLogic.SessionUpdate(s.targetScore, stamp, None)
  }

  /** For the same clock reading the two updates differ only in the round number, which
      the starter leaves out. */
  lemma PayloadOmitsRound(s: GameLogic.GameState, stamp: int)
    ensures InitPayload(s, stamp) == GameLogic.InitPayload(s, stamp).(currentRound := None)
    ensures InitPayload(s, stamp) != GameLogic.InitPayload(s, stamp)
  {
  }

  /** The stub `onActionButtonClick`: it only logs. */
  function OnActionButtonClick(s: GameLogic.GameState): (r: GameLogic.Effect)
    ensures r.state == s && r.synced.None?
  {
    GameLogic.Effect(s, None)
  }

  /** The stub `checkWinCondition`: no winner, ever. */
  function CheckWinCondition(players: Option<seq<GameLogic.PlayerEntry>>): (r: Option<GameLogic.Winner>)
    ensures r.None?
  {
    None
  }

  /** The stub click agrees with the reference exactly when the game is inactive. */
  lemma StubClickAgreesWhenInactive(s: GameLogic.GameState)
    ensures OnActionButtonClick(s) == GameLogic.OnActionButtonClick(s) <==> !s.gameActive
  {
  }

  /** The stub winner check agrees with the reference exactly when no online player has
      reached the target. */
  lemma StubWinAgreesWithoutWinner(players: seq<GameLogic.PlayerEntry>, s: GameLogic.GameState, now: int)
    ensures CheckWinCondition(Some(players)) == GameLogic.CheckWinCondition(Some(players), s, now)
            <==> forall j :: 0 <= j < |players| ==> !GameLogic.Wins(players[j].player, s.targetScore)
  {
  }
}
