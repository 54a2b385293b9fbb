# hackerwords game core in Dafny

A model of the game-session and scoring core of the hackerwords backend, a
Boggle-like word game. The model covers:

- scoring a played word: a length bonus plus fixed letter values;
- generating a 16-letter board from the letter pool;
- checking a word against the dictionary;
- the game records:
  - creating solo games and two-player challenge pairs;
  - fetching a board, which clears `pending`;
  - finalizing a game;
  - building the game history;
- the user queries: high score, pending games and the list of all usernames.

Files and modules:

- `wrappers.dfy` (`Wrappers`): `Option` and `Result`.
- `scoring.dfy` (`Scoring`): the letter and length tables and `ScoreWord`, with lemmas about the
  score.
- `board.dfy` (`BoardGenerator`): the 32-letter pool and `GenerateRandomBoard`.
- `words.dfy` (`WordCheck`): `CheckWord`.
- `games.dfy` (`GameStore`): the `Game` record, the `Store` class that holds the records, and the
  history pairing.
- `users.dfy` (`Users`): the high-score loop, pending games and usernames.

How the model stands in for the running system:

- **The database.** The store is an in-memory `map<Id, Game>` plus a counter that hands out
  fresh ids. Ids are given out in creation order, so the store's natural order (the order
  `Game.find` returns records in) is ascending id.
- **Store invariant.** `Store.Valid()` holds two things:
  - the ids are exactly `0 .. nextId - 1`;
  - every `opponent` reference leads to a different record that points back and has the same
    board.
  Every operation keeps this invariant.
- **Challenge creation.** `InitializeChallengeGame` creates A, creates B, then saves the two
  cross-links one after the other. So the state where only A is linked exists only inside that
  method.
- **Random draws.** `Math.random()` is replaced by a caller-supplied sequence of 16 pool indices,
  each below 32.
- **User lookup.** The helpers `checkIsRealUser` and `getUserIDFromUsername` both read one
  directory, a `map<string, UserId>`. A name is a real user exactly when it is a key of the
  directory. The signed-in user is a `User` parameter.
- **Score results.** `scoreWord` looks up JavaScript tables, and a missing entry gives
  `undefined` or `NaN`. The model's `JsNumber` is `Num(n)` or `NaN`, and `NaN` stands for both
  `undefined` and `NaN`. So `ScoreWord` has no precondition. It returns a number exactly when the
  word has 1 to 16 letters, all from `a` to `z`. A dictionary word longer than 16 letters is
  still reported as a word by `CheckWord`, but its score is `NaN`.
- **Table facts.** The pool `'aabcdeeefghiijklmnoopqrstuuvwxyz'` (server/board/BoardTools.js:109)
  has 32 characters. `"quiz"` scores 1 + (10 + 1 + 1 + 10) = 23: the length bonus for 4 plus the
  values of q, u, i and z (server/board/BoardTools.js:218-226, 234, 249-252).

## Model

| member | source | states |
|---|---|---|
| `Scoring.ScoreWord` | server/board/BoardTools.js:200-254 | The result is a number exactly when the word has 1 to 16 letters, all from a to z. That number is the length bonus for the word's length plus the sum of its letter values. Any other input gives NaN. |
| `Scoring.LengthBonusMonotone` | server/board/BoardTools.js:230-247 | The length bonus never decreases as the length grows from 1 to 16. |
| `Scoring.LengthBonusPlateaus` | server/board/BoardTools.js:230-247 | The bonus is 0 for lengths 1 and 2, and 11 for every length from 8 to 16. |
| `Scoring.ScoreAtLeastLength` | server/board/BoardTools.js:201-228 | Every letter is worth at least 1, so a scorable word scores at least its length. |
| `Scoring.LetterSumPermutation` | server/board/BoardTools.js:249-253 | Two strings with the same letters, in any order, have the same letter sum. |
| `Scoring.ScorePermutationInvariant` | server/board/BoardTools.js:200-254 | An anagram of a scorable word is also scorable and has the same score. |
| `Scoring.AppendLetterIncreases` | server/board/BoardTools.js:230-253 | Adding a letter to a word shorter than 16 gives a scorable word with a strictly higher score. |
| `Scoring.ScoreExamples` | server/board/BoardTools.js:200-254 | "cat" scores 6 and "quiz" scores 23. |
| `BoardGenerator.GenerateRandomBoard` | server/board/BoardTools.js:108-116 | The board has exactly 16 characters. Each character is the pool letter at the matching draw index, so every character is in the pool. |
| `BoardGenerator.PoolIsLowercase` | server/board/BoardTools.js:109 | The pool has 32 characters, and each one is a lowercase letter with an entry in the letter table. |
| `BoardGenerator.BoardWordIsScorable` | server/board/BoardTools.js:108-116 | Any word of 1 to 16 characters spelled with a board's tiles can be scored. |
| `WordCheck.CheckWord` | server/board/BoardTools.js:264-272 | isWord is true exactly when the word is in the word set, and a score is present exactly then. The score is a number exactly when the word is scorable, and it then equals the word's score. |
| `GameStore.FindGames` | server/board/BoardTools.js:75 | A game is in the result exactly when it is a record that matches the query (owner, and the pending flag when given). Records keep their store order. |
| `GameStore.FindGamesAppend` | server/board/BoardTools.js:75 | Finding in a concatenation is the concatenation of the two finds, so the filter keeps order. |
| `GameStore.PairWithOpponents` | server/board/BoardTools.js:76-92 | There is one entry per game, in the same order. An entry is solo exactly when the game has no opponent. Otherwise it holds the record whose id is the game's opponent. |
| `GameStore.HistoryEntriesLinked` | server/board/BoardTools.js:76-92 | In a valid store, every game gets an entry. Every paired entry holds a stored record that points back to the game and has the same board. |
| `GameStore.Store.Find` | server/board/BoardTools.js:75 | Returns exactly the stored records that match the query, in ascending id order. |
| `GameStore.Store.Create` | server/board/BoardTools.js:128-130 | Adds one new record under a fresh id with no opponent, no points, no words and pending set. Nothing else changes. |
| `GameStore.Store.MakeBoard` | server/board/BoardTools.js:182-191 | Generates a board from the draws and stores one new pending solo record for the user under a fresh id. Returns that id and the board. |
| `GameStore.Store.InitializeChallengeGame` | server/board/BoardTools.js:126-139 | Adds exactly two records, A and B, and leaves every older record unchanged. A and B are a challenge pair on one generated board. A belongs to the challenger and names the opponent. B belongs to the opponent's id and names the challenger. The reply is A's id with the opponent's name. |
| `GameStore.Store.MakeChallengeGame` | server/board/BoardTools.js:46-63 | A self-challenge fails first and creates nothing. A name that is not a user fails next and creates nothing. Otherwise exactly two records are added and older ones are unchanged. They form a challenge pair on one board drawn from the draws. Both are pending, with no points and no words. A belongs to the challenger and names the opponent, B belongs to the opponent's id and names the challenger, and the reply is A's id. |
| `GameStore.Store.GetBoard` | server/board/BoardTools.js:27-36 | Returns the record's board and clears its pending flag. Nothing else in the store changes. |
| `GameStore.GetBoardTwice` | server/board/BoardTools.js:27-36 | Fetching twice returns the same board both times. The record is left not pending and is otherwise unchanged, and so are the other records and the id counter. |
| `GameStore.Store.FinalizeGame` | server/board/BoardTools.js:149-161 | Sets the record's points, wordsPlayed and pending = false, and returns the updated record. The board, owner, opponent and every other record are unchanged. |
| `GameStore.Store.GameHistory` | server/board/BoardTools.js:73-99 | There is one entry for each finished game of the user and no others, in ascending id order. An entry is solo exactly when the game has no opponent. A paired entry holds the opponent's stored record, which points back and has the same board. |
| `Users.HighestScore` | server/users/userController.js:25-31 | The result is at least 0 and at least every set points value. It is either 0 or the points of one of the games. |
| `Users.MaxPointsIsMaximum` | server/users/userController.js:25-31 | The running maximum from 0 is a maximum with floor 0. Unset points never raise it. |
| `Users.MaxPointsOrderIndependent` | server/users/userController.js:24-31 | The high score is the same whatever order the games are visited in. |
| `Users.GetUserHighScore` | server/users/userController.js:21-35 | The result is at least 0 and at least the points of every game the user owns, pending or finished. It is either 0 or the points of one of those games. |
| `Users.GetPendingGames` | server/users/userController.js:38-48 | Returns exactly the user's games that are still pending, in store order. |
| `Users.AllUsernames` | server/users/userController.js:13-18 | Returns one username per user record, with the same count and order. |

## Left out

- `Math.random()` and `Math.floor` are replaced by explicit draw indices. The distribution of letters on a board is not modelled.
- Persistence and asynchrony are left out: Mongoose, promise chains and `Promise.all`. Each handler is one sequential method over the in-memory store, and concurrent interleavings of handlers are not modelled.
- `util.js` is not part of this model. Its helpers are represented by the `User` parameter and the directory map.
- Users.GetUserHighScore: requires the username to be in the directory, because what `getUserIDFromUsername` does with an unknown name lives in `util.js`.
- Users.GetPendingGames: requires the username to be in the directory, for the same reason.
- `GameModel.js` is not part of this model. A new record is assumed to have no opponent, unset points, no words and pending set.
- `wordSet.js` is not part of this model. The dictionary is an abstract set of strings, and words are looked up exactly as given, with no case folding.
- GameStore.Store.GetBoard: requires the id to be in the store. For an unknown id the source dereferences null and crashes.
- GameStore.Store.FinalizeGame: requires the id to be in the store, for the same reason.
- Request plumbing is left out: `res.json`/`res.status`, `console.log`, `Number(req.body.score)` coercion and `req.url.split('=')` parsing. Scores are integers, and `wordsPlayed` is a sequence of strings.
- `undefined` and `NaN` are one value, `NaN`, in `JsNumber`. They differ only in how JSON shows them.
- The authentication handlers are left out: `signin`, `signup`, `checkAuth`, token encoding and password checks (server/users/userController.js:60-139). They are credential plumbing around foreign libraries.
