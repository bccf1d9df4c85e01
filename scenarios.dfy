/** Three submissions in a row, for any three records:
    A scores on an empty board, B scores more, then C ties with A. Whatever
    ranks or other properties the submitted objects carry, the list shows B
    ranked 1, A ranked 2 and C ranked 3. */
module Scenarios {
  import opened Leaderboard
  import opened Server

  /** A record as the file holds it once the handler has written it with `rank`. */
  function Written(r: Record, rank: int): Record {
    AsRecord(Entry(rank, r.initials, r.score))
  }

  lemma FirstSubmission(a: Record)
    ensures AsRecords(Submitted([], a)) == [Written(a, 1)]
  {
    assert SortByScore([] + [a]) == [a] by {
      assert [] + [a] == [a] && [a][..0] == [];
    }
  }

  lemma HigherScoreGoesFirst(a: Record, b: Record)
    requires a.score < b.score
    ensures AsRecords(Submitted([Written(a, 1)], b)) == [Written(b, 1), Written(a, 2)]
  {
    var stored := [Written(a, 1)];
    SubmitToSortedInserts(stored, b);
    assert Insert(stored, b) == Insert([], b) + stored;
  }

  lemma TieGoesLast(a: Record, b: Record, c: Record)
    requires a.score < b.score && c.score == a.score
    ensures AsRecords(Submitted([Written(b, 1), Written(a, 2)], c))
         == [Written(b, 1), Written(a, 2), Written(c, 3)]
  {
    var stored := [Written(b, 1), Written(a, 2)];
    SubmitToSortedInserts(stored, c);
    assert Insert(stored, c) == stored + [c];
  }

  method TieKeepsSubmissionOrder(a: Record, b: Record, c: Record) returns (listed: ListOutcome)
    requires a.score < b.score && c.score == a.score
    ensures listed == Listed(Array([Written(b, 1), Written(a, 2), Written(c, 3)]))
  {
    var file := new HighScoreFile(Readable(Parsed(Array([]), map[])));
    var outcome := file.SaveHighScore(a, Completes);
    FirstSubmission(a);
    outcome := file.SaveHighScore(b, Completes);
    HigherScoreGoesFirst(a, b);
    outcome := file.SaveHighScore(c, Completes);
    TieGoesLast(a, b, c);
    listed := file.GetHighScores();
  }

  /** A file holding `null`: the list handler answers 500 "Parse error", a
      submission throws at the push and ends the process, and a later list
      request gets no response at all. */
  method NullFileEndsServer(body: Record) returns (before: ListOutcome, after: ListOutcome)
    ensures ListStatus(before) == Some(500) && ListMessage(before) == "Parse error"
    ensures ListStatus(after).None?
  {
    var file := new HighScoreFile(Readable(Null));
    before := file.GetHighScores();
    var outcome := file.SaveHighScore(body, Completes);
    assert SaveReply(outcome).None?;
    after := file.GetHighScores();
  }
}
