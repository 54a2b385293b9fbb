/** The game queries of server/users/userController.js: a user's high score, their
    pending games, and the list of all usernames. A username is resolved to a user id
    through the user directory, as getUserIDFromUsername does. */
module Users {
  import opened Wrappers
  import opened GameStore

  /** The score a game contributes to the running maximum: points that were never
      set compare false with '>', so they never raise it. */
  function Raise(highest: int, g: Game): (raised: int) {
    if g.points.Some? && g.points.value > highest then g.points.value else highest
  }

  /** The high score as the forEach loop accumulates it, starting from 0. */
  function MaxPoints(games: seq<Game>): (highest: int) {
    if games == [] then 0 else Raise(MaxPoints(games[..|games| - 1]), games[|games| - 1])
  }

  /** The accumulated value is the maximum with floor 0: at least 0, at least every set
      score, and either 0 or the score of one of the games. */
  lemma {:induction false} MaxPointsIsMaximum(games: seq<Game>)
    ensures MaxPoints(games) >= 0
    ensures forall g :: g in games && g.points.Some? ==> g.points.value <= MaxPoints(games)
    ensures MaxPoints(games) == 0 || exists g :: g in games && g.points == Some(MaxPoints(games))
    decreases |games|
  {
    if games != [] {
      var prefix := games[..|games| - 1];
      MaxPointsIsMaximum(prefix);
      assert games == prefix + [games[|games| - 1]];
      forall g | g in games && g.points.Some? ensures g.points.value <= MaxPoints(games) {
        if g in prefix { } else { assert g == games[|games| - 1]; }
      }
      if MaxPoints(games) != MaxPoints(prefix) {
        assert games[|games| - 1] in games;
      } else if MaxPoints(prefix) != 0 {
        var g :| g in prefix && g.points == Some(MaxPoints(prefix));
        assert g in games;
      }
    }
  }

  /** The high score does not depend on the order in which the games are visited. */
  lemma MaxPointsOrderIndependent(a: seq<Game>, b: seq<Game>)
    requires multiset(a) == multiset(b)
    ensures MaxPoints(a) == MaxPoints(b)
  {
    MaxPointsIsMaximum(a);
    MaxPointsIsMaximum(b);
    assert forall g :: g in a <==> g in b by {
      forall g ensures g in a <==> g in b {
        assert g in a <==> g in multiset(a);
        assert g in b <==> g in multiset(b);
      }
    }
  }

  /** The forEach loop of getUserHighScore over the games found. */
  method HighestScore(result: seq<Game>) returns (highestScore: int)
    ensures highestScore == MaxPoints(result)
    ensures highestScore >= 0
    ensures forall g :: g in result && g.points.Some? ==> g.points.value <= highestScore
    ensures highestScore == 0 || exists g :: g in result && g.points == Some(highestScore)
  {
    highestScore := 0;
    for i := 0 to |result|
      invariant highestScore == MaxPoints(result[..i])
    {
      assert result[..i + 1][..i] == result[..i];
      if result[i].points.Some? && result[i].points.value > highestScore {
        highestScore := result[i].points.value;
      }
    }
    assert result[..|result|] == result;
    MaxPointsIsMaximum(result);
  }

  /** getUserHighScore: the best score over all of the user's games, pending or not. */
  method GetUserHighScore(store: Store, directory: map<string, UserId>, username: string)
    returns (highestScore: int)
    requires store.Valid()
    requires username in directory
    ensures highestScore >= 0
    ensures forall g :: g in store.games.Values && g.userId == directory[username] && g.points.Some? ==>
      g.points.value <= highestScore
    ensures highestScore == 0 ||
      exists g :: g in store.games.Values && g.userId == directory[username] && g.points == Some(highestScore)
  {
    var userID := directory[username];
    var result := store.Find(Query(userID, None));
    highestScore := HighestScore(result);
  }

  /** getPendingGames: exactly the user's games that are still pending, in store order. */
  method GetPendingGames(store: Store, directory: map<string, UserId>, username: string)
    returns (result: seq<Game>)
    requires store.Valid()
    requires username in directory
    ensures forall g :: g in result <==>
      g in store.games.Values && g.userId == directory[username] && g.pending
    ensures forall i, j :: 0 <= i < j < |result| ==> result[i].id < result[j].id
  {
    var userID := directory[username];
    result := store.Find(Query(userID, Some(true)));
  }

  /** getAllUsers: the username of every user record, in the order of the records. */
  function AllUsernames(users: seq<User>): (allUsers: seq<string>)
    ensures |allUsers| == |users|
    ensures forall i :: 0 <= i < |users| ==> allUsers[i] == users[i].username
  {
    if users == [] then [] else [users[0].username] + AllUsernames(users[1..])
  }
}
