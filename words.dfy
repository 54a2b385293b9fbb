/** Word checking (checkWord in server/board/BoardTools.js): dictionary
    membership, and the word's score when it is a word. */
module WordCheck {
  import opened Wrappers
  import opened Scoring

  /** The JSON reply: { isWord: false } or { isWord: true, score }. */
  datatype CheckReply = CheckReply(isWord: bool, score: Option<JsNumber>)

  /** The dictionary is the abstract set wordSet; a word is looked up exactly as given. */
  method CheckWord(wordSet: set<string>, word: string) returns (reply: CheckReply)
    ensures reply.isWord <==> word in wordSet
    ensures reply.score.Some? <==> reply.isWord
    ensures reply.isWord ==> (reply.score.value.Num? <==> Scorable(word))
    ensures reply.isWord && Scorable(word) ==> reply.score == Some(Num(WordScore(word)))
  {
    if word in wordSet {
      var wordScore := ScoreWord(word);
      reply := CheckReply(true, Some(wordScore));
    } else {
      reply := CheckReply(false, None);
    }
  }
}
