/** The game records and the store that holds them (the game-record handlers of
    server/board/BoardTools.js). The database becomes an in-memory map from id to
    record; ids are handed out in creation order, so the store's natural order is
    the order of ids. */
module GameStore {
  import opened Wrappers
  import opened BoardGenerator

  type Id = nat
  type UserId = nat

  /** A signed-in player as the request resolves to one. */
  datatype User = User(id: UserId, username: string)

  /** A game record. opponent is the id of the other record of a challenge pair;
      points is unset until the game is finalized. */
  datatype Game = Game(
    id: Id,
    boardString: string,
    userId: UserId,
    opponentName: Option<string>,
    opponent: Option<Id>,
    points: Option<int>,
    wordsPlayed: seq<string>,
    pending: bool)

  /** The record Game.create makes: no opponent yet, no points, no words, pending. */
  function NewGame(id: Id, board: string, owner: UserId, opponentName: Option<string>): (g: Game) {
    Game(id, board, owner, opponentName, None, None, [], true)
  }

  /** A filter as passed to Game.find: the owner, and optionally the pending flag. */
  datatype Query = Query(userId: UserId, pending: Option<bool>)

  predicate Matches(g: Game, q: Query) {
    g.userId == q.userId && (q.pending.Some? ==> g.pending == q.pending.value)
  }

  predicate AscendingIds(s: seq<Game>) {
    forall i, j :: 0 <= i < j < |s| ==> s[i].id < s[j].id
  }

  /** Game.find: the records that match the query, in the order of the store. */
  function FindGames(records: seq<Game>, q: Query): (found: seq<Game>)
    ensures forall g :: g in found <==> g in records && Matches(g, q)
    ensures AscendingIds(records) ==> AscendingIds(found)
    ensures |found| <= |records|
  {
    if records == [] then []
    else
      var rest := FindGames(records[1..], q);
      assert AscendingIds(records) ==> forall g :: g in rest ==> records[0].id < g.id;
      if Matches(records[0], q) then [records[0]] + rest else rest
  }

  /** Finding in a concatenation finds in each part, in order. */
  lemma {:induction false} FindGamesAppend(a: seq<Game>, b: seq<Game>, q: Query)
    ensures FindGames(a + b, q) == FindGames(a, q) + FindGames(b, q)
  {
    if a == [] {
      assert a + b == b;
    } else {
      assert (a + b)[0] == a[0];
      assert (a + b)[1..] == a[1..] + b;
      FindGamesAppend(a[1..], b, q);
    }
  }

  /** The records with ids 0 .. count - 1, in id order. */
  function InStoreOrder(games: map<Id, Game>, count: nat): (r: seq<Game>)
    requires forall id: Id :: id < count ==> id in games
    ensures |r| == count
    ensures forall i :: 0 <= i < count ==> r[i] == games[i]
  {
    if count == 0 then [] else InStoreOrder(games, count - 1) + [games[count - 1]]
  }

  /** Every id below next is taken, none above, and each record carries its own id. */
  ghost predicate Dense(games: map<Id, Game>, next: Id) {
    && (forall id: Id :: id in games <==> id < next)
    && (forall id: Id :: id in games ==> games[id].id == id)
  }

  /** Every opponent reference leads to another record that points back and shares the board. */
  ghost predicate PairsLinked(games: map<Id, Game>) {
    forall id: Id :: id in games && games[id].opponent.Some? ==>
      var other := games[id].opponent.value;
      && other in games
      && other != id
      && games[other].opponent == Some(id)
      && games[other].boardString == games[id].boardString
  }

  /** Records a and b form a challenge pair. */
  ghost predicate IsChallengePair(games: map<Id, Game>, a: Id, b: Id) {
    && a in games && b in games && a != b
    && games[a].opponent == Some(b)
    && games[b].opponent == Some(a)
    && games[a].boardString == games[b].boardString
  }

  /** One entry of the history: [game] for a solo game, [game, opponent's record] otherwise. */
  datatype HistoryEntry = Solo(game: Game) | Paired(game: Game, opponentGame: Game)

  /** The pairing map of getGameHistory: each game with its opponent's record looked up by id. */
  function PairWithOpponents(completed: seq<Game>, games: map<Id, Game>): (h: seq<HistoryEntry>)
    requires forall g :: g in completed && g.opponent.Some? ==> g.opponent.value in games
    ensures |h| == |completed|
    ensures forall i :: 0 <= i < |h| ==>
      && h[i].game == completed[i]
      && (h[i].Solo? <==> completed[i].opponent.None?)
      && (h[i].Paired? ==> h[i].opponentGame == games[completed[i].opponent.value])
  {
    if completed == [] then []
    else
      var g := completed[0];
      var entry := if g.opponent.None? then Solo(g) else Paired(g, games[g.opponent.value]);
      [entry] + PairWithOpponents(completed[1..], games)
  }

  class Store {
    var games: map<Id, Game>
    var nextId: Id

    ghost predicate Valid()
      reads this
    {
      Dense(games, nextId) && PairsLinked(games)
    }

    constructor ()
      ensures Valid()
      ensures games == map[] && nextId == 0
    {
      games := map[];
      nextId := 0;
    }

    /** All records in the store's natural order. */
    function Records(): (r: seq<Game>)
      reads this
      requires Valid()
      ensures AscendingIds(r)
      ensures forall g :: g in r <==> g in games.Values
    {
      var r := InStoreOrder(games, nextId);
      assert forall g :: g in games.Values ==> g in r by {
        forall g | g in games.Values ensures g in r {
          var id :| id in games && games[id] == g;
          assert r[id] == g;
        }
      }
      r
    }

    /** Game.find over the store. */
    function Find(q: Query): (found: seq<Game>)
      reads this
      requires Valid()
      ensures forall g :: g in found <==> g in games.Values && Matches(g, q)
      ensures AscendingIds(found)
    {
      FindGames(Records(), q)
    }

    /** Game.create: a new pending record under a fresh id. */
    method Create(board: string, owner: UserId, opponentName: Option<string>) returns (id: Id)
      requires Valid()
      modifies this
      ensures Valid()
      ensures id == old(nextId) && nextId == old(nextId) + 1
      ensures games == old(games)[id := NewGame(id, board, owner, opponentName)]
    {
      id := nextId;
      games := games[id := NewGame(id, board, owner, opponentName)];
      nextId := nextId + 1;
    }

    /** makeBoard: a solo game on a fresh board for the signed-in user. */
    method MakeBoard(user: User, draws: seq<nat>) returns (id: Id, board: string)
      requires Valid()
      requires ValidDraws(draws)
      modifies this
      ensures Valid()
      ensures IsBoard(board)
      ensures forall i :: 0 <= i < BoardSize ==> board[i] == Letters[draws[i]]
      ensures id == old(nextId) && id !in old(games) && nextId == old(nextId) + 1
      ensures games == old(games)[id := NewGame(id, board, user.id, None)]
    {
      board := GenerateRandomBoard(draws);
      id := Create(board, user.id, None);
    }

    /** initializeChallengeGame: one board, a record for each player, then the two
        records are linked to each other. The reply carries the challenger's record id.
        Between the second create and the last save the store holds a record whose
        opponent is still unset; that window is local to this method. */
    method InitializeChallengeGame(user: User, opponentName: string, directory: map<string, UserId>,
                                   draws: seq<nat>) returns (reply: ChallengeReply)
      requires Valid()
      requires ValidDraws(draws)
      requires opponentName in directory
      modifies this
      ensures Valid()
      ensures reply == ChallengeReply(old(nextId), opponentName)
      ensures nextId == old(nextId) + 2
      ensures games.Keys == old(games).Keys + {old(nextId), old(nextId) + 1}
      ensures forall id :: id in old(games) ==> games[id] == old(games)[id]
      ensures IsChallengePair(games, old(nextId), old(nextId) + 1)
      ensures IsBoard(games[old(nextId)].boardString)
      ensures forall i :: 0 <= i < BoardSize ==> games[old(nextId)].boardString[i] == Letters[draws[i]]
      ensures games[old(nextId)] ==
        NewGame(old(nextId), games[old(nextId)].boardString, user.id, Some(opponentName)).(opponent := Some(old(nextId) + 1))
      ensures games[old(nextId) + 1] ==
        NewGame(old(nextId) + 1, games[old(nextId)].boardString, directory[opponentName], Some(user.username)).(opponent := Some(old(nextId)))
    {
      var boardStr := GenerateRandomBoard(draws);
      var myGame := Create(boardStr, user.id, Some(opponentName));
      var opponentId := directory[opponentName];
      var opponentGame := Create(boardStr, opponentId, Some(user.username));
      games := games[myGame := games[myGame].(opponent := Some(opponentGame))];
      games := games[opponentGame := games[opponentGame].(opponent := Some(myGame))];
      reply := ChallengeReply(myGame, opponentName);
    }

    /** makeChallengeGame: refuse a challenge to oneself, then a challenge to a name
        that is no user, and only then create the pair. checkIsRealUser and
        getUserIDFromUsername both consult the user directory. */
    method MakeChallengeGame(user: User, opponentName: string, directory: map<string, UserId>,
                             draws: seq<nat>) returns (r: Result<ChallengeReply, ChallengeError>)
      requires Valid()
      requires ValidDraws(draws)
      modifies this
      ensures Valid()
      ensures opponentName == user.username ==> r == Failure(SameUser)
      ensures opponentName != user.username && opponentName !in directory ==> r == Failure(InvalidUser)
      ensures r.Failure? ==> games == old(games) && nextId == old(nextId)
      ensures r.Success? <==> opponentName != user.username && opponentName in directory
      ensures r.Success? ==>
        && r.value == ChallengeReply(old(nextId), opponentName)
        && games.Keys == old(games).Keys + {old(nextId), old(nextId) + 1}
        && (forall id :: id in old(games) ==> games[id] == old(games)[id])
        && nextId == old(nextId) + 2
        && IsChallengePair(games, old(nextId), old(nextId) + 1)
        && IsBoard(games[old(nextId)].boardString)
        && (forall i :: 0 <= i < BoardSize ==> games[old(nextId)].boardString[i] == Letters[draws[i]])
        && games[old(nextId)] ==
          NewGame(old(nextId), games[old(nextId)].boardString, user.id, Some(opponentName)).(opponent := Some(old(nextId) + 1))
        && games[old(nextId) + 1] ==
          NewGame(old(nextId) + 1, games[old(nextId)].boardString, directory[opponentName], Some(user.username)).(opponent := Some(old(nextId)))
    {
      if opponentName == user.username {
        return Failure(SameUser);
      }
      if opponentName !in directory {
        return Failure(InvalidUser);
      }
      var reply := InitializeChallengeGame(user, opponentName, directory, draws);
      r := Success(reply);
    }

    /** getBoard: the record's board, with pending cleared. */
    method GetBoard(id: Id) returns (boardString: string)
      requires Valid()
      requires id in games
      modifies this
      ensures Valid()
      ensures boardString == old(games[id].boardString)
      ensures games == old(games)[id := old(games[id]).(pending := false)]
      ensures nextId == old(nextId)
    {
      var game := games[id];
      games := games[id := games[id].(pending := false)];
      boardString := game.boardString;
    }

    /** finalizeGame: record the caller's score and words and clear pending; the
        updated record is the reply. The score is taken as given. */
    method FinalizeGame(id: Id, score: int, wordsUsed: seq<string>) returns (game: Game)
      requires Valid()
      requires id in games
      modifies this
      ensures Valid()
      ensures game == old(games[id]).(points := Some(score), wordsPlayed := wordsUsed, pending := false)
      ensures games == old(games)[id := game]
      ensures nextId == old(nextId)
      ensures game.boardString == old(games[id].boardString) && game.userId == old(games[id].userId)
      ensures game.opponent == old(games[id].opponent) && game.opponentName == old(games[id].opponentName)
    {
      game := games[id];
      game := game.(points := Some(score), wordsPlayed := wordsUsed, pending := false);
      games := games[id := game];
    }

    /** getGameHistory: the user's finished games in store order, each paired with its
        opponent's record when it has one. */
    function GameHistory(user: UserId): (h: seq<HistoryEntry>)
      reads this
      requires Valid()
      ensures forall e :: e in h ==> e.game in games.Values && e.game.userId == user && !e.game.pending
      ensures forall g :: g in games.Values && g.userId == user && !g.pending ==> exists e :: e in h && e.game == g
      ensures forall i, j :: 0 <= i < j < |h| ==> h[i].game.id < h[j].game.id
      ensures forall e :: e in h ==> (e.Solo? <==> e.game.opponent.None?)
      ensures forall e :: e in h && e.Paired? ==>
        && e.game.opponent == Some(e.opponentGame.id)
        && e.opponentGame in games.Values
        && e.opponentGame.opponent == Some(e.game.id)
        && e.opponentGame.boardString == e.game.boardString
    {
      var completed := Find(Query(user, Some(false)));
      HistoryEntriesLinked(games, nextId, completed);
      PairWithOpponents(completed, games)
    }
  }

  /** Pairing finished games of a well-formed store: every entry covers one game, and
      a paired entry holds the record that points back and shares the board. */
  lemma HistoryEntriesLinked(games: map<Id, Game>, next: Id, completed: seq<Game>)
    requires Dense(games, next) && PairsLinked(games)
    requires forall g :: g in completed ==> g in games.Values
    ensures forall g :: g in completed && g.opponent.Some? ==> g.opponent.value in games
    ensures forall g :: g in completed ==> exists e :: e in PairWithOpponents(completed, games) && e.game == g
    ensures forall e :: e in PairWithOpponents(completed, games) ==> e.game in completed
    ensures forall e :: e in PairWithOpponents(completed, games) && e.Paired? ==>
      && e.game.opponent == Some(e.opponentGame.id)
      && e.opponentGame in games.Values
      && e.opponentGame.opponent == Some(e.game.id)
      && e.opponentGame.boardString == e.game.boardString
  {
    forall g | g in completed && g.opponent.Some? ensures g.opponent.value in games {
      var id :| id in games && games[id] == g;
    }
    var h := PairWithOpponents(completed, games);
    forall g | g in completed ensures exists e :: e in h && e.game == g {
      var i :| 0 <= i < |completed| && completed[i] == g;
      assert h[i] in h;
    }
    forall e | e in h ensures e.game in completed {
      var i :| 0 <= i < |h| && h[i] == e;
    }
    forall e | e in h && e.Paired?
      ensures e.game.opponent == Some(e.opponentGame.id)
      ensures e.opponentGame in games.Values
      ensures e.opponentGame.opponent == Some(e.game.id)
      ensures e.opponentGame.boardString == e.game.boardString
    {
      var i :| 0 <= i < |h| && h[i] == e;
      var id :| id in games && games[id] == e.game;
      assert completed[i] == e.game;
    }
  }

  /** The challenge reply: the challenger's record id and the opponent's name. */
  datatype ChallengeReply = ChallengeReply(id: Id, opponentName: string)

  datatype ChallengeError =
    | SameUser     // 'Cannot challenge same user'
    | InvalidUser  // 'Invalid user'

  /** Fetching a board twice gives the same board both times and leaves the record
      not pending, changed in nothing else. */
  method GetBoardTwice(store: Store, id: Id) returns (first: string, second: string)
    requires store.Valid()
    requires id in store.games
    modifies store
    ensures store.Valid()
    ensures first == second == old(store.games[id].boardString)
    ensures store.games == old(store.games)[id := old(store.games[id]).(pending := false)]
    ensures !store.games[id].pending
    ensures store.nextId == old(store.nextId)
  {
    first := store.GetBoard(id);
    second := store.GetBoard(id);
  }
}
