/** Board generation (generateRandomBoard in server/board/BoardTools.js). The
    random source is replaced by the sequence of indices it would have drawn. */
module BoardGenerator {
  import opened Scoring

  /** The letter pool; vowels and common letters appear more than once. */
  const Letters: string := "aabcdeeefghiijklmnoopqrstuuvwxyz"

  /** The number of tiles on a board. */
  const BoardSize: nat := 16

  /** A board string: sixteen letters, each taken from the pool. */
  predicate IsBoard(s: string) {
    |s| == BoardSize && forall i :: 0 <= i < |s| ==> s[i] in Letters
  }

  /** Sixteen draws of Math.floor(Math.random() * letters.length), each an index into the pool. */
  predicate ValidDraws(draws: seq<nat>) {
    |draws| == BoardSize && forall i :: 0 <= i < |draws| ==> draws[i] < |Letters|
  }

  /** The pool has 32 characters, and every one of them is a letter with a value. */
  lemma PoolIsLowercase()
    ensures |Letters| == 32
    ensures forall i :: 0 <= i < |Letters| ==> IsLowerLetter(Letters[i])
  {
  }

  method GenerateRandomBoard(draws: seq<nat>) returns (board: string)
    requires ValidDraws(draws)
    ensures IsBoard(board)
    ensures forall i :: 0 <= i < BoardSize ==> board[i] == Letters[draws[i]]
  {
    board := "";
    for i := 0 to BoardSize
      invariant |board| == i
      invariant forall k :: 0 <= k < i ==> board[k] == Letters[draws[k]]
    {
      board := board + [Letters[draws[i]]];
    }
  }

  /** Every tile of a board is a lowercase letter with an entry in the letter table. */
  lemma BoardIsLowercase(board: string)
    requires IsBoard(board)
    ensures AllLower(board)
  {
    PoolIsLowercase();
    forall i | 0 <= i < |board| ensures IsLowerLetter(board[i]) {
      var j :| 0 <= j < |Letters| && Letters[j] == board[i];
    }
  }

  /** A word of 1 to 16 letters spelled with the board's tiles can be scored. */
  lemma BoardWordIsScorable(board: string, w: string)
    requires IsBoard(board)
    requires 1 <= |w| <= BoardSize
    requires forall i :: 0 <= i < |w| ==> w[i] in board
    ensures Scorable(w)
  {
    BoardIsLowercase(board);
    forall i | 0 <= i < |w| ensures IsLowerLetter(w[i]) {
      var j :| 0 <= j < |board| && board[j] == w[i];
    }
  }
}
