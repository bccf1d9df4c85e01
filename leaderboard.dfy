/**
 * The high-score leaderboard as values: the records held in the `highScores`
 * array of high_scores.json, the order the submit handler sorts them into,
 * the ranks it numbers them with, and the three-field entries it writes back.
 */
module Leaderboard {

  datatype Option<+T> = None | Some(value: T)

  /** One element of the `highScores` array as JavaScript holds it after
      JSON.parse: the player's initials, the score, the `rank` property if the
      object has one, and every other property by name (with its JSON text). */
  datatype Record = Record(initials: string, score: int, rank: Option<int>, others: map<string, string>)

  /** An element as the submit handler rebuilds it: exactly rank, initials and score. */
  datatype Entry = Entry(rank: int, initials: string, score: int)

  /** What a player submitted, whatever else the object carries. */
  function Play(r: Record): (string, int) { (r.initials, r.score) }

  function Plays(s: seq<Record>): seq<(string, int)> {
    seq(|s|, i requires 0 <= i < |s| => Play(s[i]))
  }

  /** An entry as it reads back from the file after being written. */
  function AsRecord(e: Entry): Record { Record(e.initials, e.score, Some(e.rank), map[]) }

  function AsRecords(board: seq<Entry>): seq<Record> {
    seq(|board|, i requires 0 <= i < |board| => AsRecord(board[i]))
  }

  // ---------------------------------------------------------------------------
  // Order
  // ---------------------------------------------------------------------------

  /** Highest score first: the order the comparator `b.score - a.score` asks for. */
  predicate SortedByScore(s: seq<Record>) {
    forall i, j :: 0 <= i < j < |s| ==> s[i].score >= s[j].score
  }

  /** The records of `s` whose score is `k`, in their order in `s`. */
  function WithScore(s: seq<Record>, k: int): seq<Record> {
    if s == [] then []
    else WithScore(s[..|s| - 1], k) + (if s[|s| - 1].score == k then [s[|s| - 1]] else [])
  }

  /** Places `x` after the last record of `s` that scores at least as much,
      moving it past the lower-scoring records at the end of `s`. */
  function Insert(s: seq<Record>, x: Record): seq<Record> {
    if s == [] || s[|s| - 1].score >= x.score then s + [x]
    else Insert(s[..|s| - 1], x) + [s[|s| - 1]]
  }

  /** The stable sort by score, highest first: each record in turn is inserted
      into the sorted records that came before it. */
  function SortByScore(s: seq<Record>): seq<Record> {
    if s == [] then [] else Insert(SortByScore(s[..|s| - 1]), s[|s| - 1])
  }

  // ---------------------------------------------------------------------------
  // Ranks and shape
  // ---------------------------------------------------------------------------

  /** Every record's `rank` becomes its position + 1; nothing else changes. */
  function Renumber(s: seq<Record>): seq<Record> {
    seq(|s|, i requires 0 <= i < |s| => s[i].(rank := Some(i + 1)))
  }

  /** Every record rebuilt as exactly {rank, initials, score}. */
  function Reshape(s: seq<Record>): seq<Entry>
    requires forall i :: 0 <= i < |s| ==> s[i].rank.Some?
  {
    seq(|s|, i requires 0 <= i < |s| => Entry(s[i].rank.value, s[i].initials, s[i].score))
  }

  /** The leaderboard the submit handler writes when the file holds `stored`
      and `body` is submitted: push, sort, number, reshape. */
  function Submitted(stored: seq<Record>, body: Record): seq<Entry> {
    Reshape(Renumber(SortByScore(stored + [body])))
  }

  /** A leaderboard, as the `highScores` array of a file the submit handler
      has written: sorted by score, highest first, the record at position i
      ranked i + 1, and no record carrying any other property. */
  predicate IsLeaderboard(s: seq<Record>) {
    && SortedByScore(s)
    && (forall i :: 0 <= i < |s| ==> s[i].rank == Some(i + 1) && s[i].others == map[])
  }

  // ---------------------------------------------------------------------------
  // Writing and reading back
  // ---------------------------------------------------------------------------

  /** An entry written to the file and read back and reshaped again is the
      same entry. */
  lemma ReshapeAfterReadBack(board: seq<Entry>)
    ensures Reshape(AsRecords(board)) == board
  {
  }

  /** A record with a rank and no other property is read back unchanged after
      being reshaped and written. */
  lemma ReadBackAfterReshape(s: seq<Record>)
    requires forall i :: 0 <= i < |s| ==> s[i].rank.Some? && s[i].others == map[]
    ensures AsRecords(Reshape(s)) == s
  {
    forall i | 0 <= i < |s| ensures AsRecords(Reshape(s))[i] == s[i] {
      assert Reshape(s)[i] == Entry(s[i].rank.value, s[i].initials, s[i].score);
    }
  }

  // ---------------------------------------------------------------------------
  // Facts about WithScore
  // ---------------------------------------------------------------------------

  lemma {:induction false} WithScoreAppend(a: seq<Record>, b: seq<Record>, k: int)
    ensures WithScore(a + b, k) == WithScore(a, k) + WithScore(b, k)
    decreases |b|
  {
    if b == [] {
      assert a + b == a;
    } else {
      var b' := b[..|b| - 1];
      assert (a + b)[..|a + b| - 1] == a + b';
      WithScoreAppend(a, b', k);
    }
  }

  lemma WithScoreSnoc(s: seq<Record>, x: Record, k: int)
    ensures WithScore(s + [x], k) == WithScore(s, k) + (if x.score == k then [x] else [])
  {
    assert (s + [x])[..|s|] == s;
  }

  lemma {:induction false} WithScoreMembers(s: seq<Record>, k: int)
    ensures forall e :: e in WithScore(s, k) <==> e in s && e.score == k
  {
    if s != [] {
      WithScoreMembers(s[..|s| - 1], k);
      assert s == s[..|s| - 1] + [s[|s| - 1]];
    }
  }

  // ---------------------------------------------------------------------------
  // Insert
  // ---------------------------------------------------------------------------

  lemma PlaysAppend(a: seq<Record>, b: seq<Record>)
    ensures Plays(a + b) == Plays(a) + Plays(b)
  {
  }

  /** Insert adds exactly `x`: nothing is lost or duplicated. */
  lemma {:induction false} InsertPermutes(s: seq<Record>, x: Record)
    ensures multiset(Insert(s, x)) == multiset(s) + multiset{x}
  {
    if s != [] && s[|s| - 1].score < x.score {
      var s', last := s[..|s| - 1], s[|s| - 1];
      InsertPermutes(s', x);
      assert s == s' + [last];
    }
  }

  /** Insert adds exactly the initials and score of `x`. */
  lemma {:induction false} InsertKeepsPlays(s: seq<Record>, x: Record)
    ensures multiset(Plays(Insert(s, x))) == multiset(Plays(s)) + multiset{Play(x)}
  {
    if s == [] || s[|s| - 1].score >= x.score {
      PlaysAppend(s, [x]);
    } else {
      var s', last := s[..|s| - 1], s[|s| - 1];
      InsertKeepsPlays(s', x);
      assert s == s' + [last];
      PlaysAppend(s', [last]);
      PlaysAppend(Insert(s', x), [last]);
    }
  }

  lemma {:induction false} InsertKeepsSorted(s: seq<Record>, x: Record)
    requires SortedByScore(s)
    ensures SortedByScore(Insert(s, x))
  {
    if s != [] && s[|s| - 1].score < x.score {
      var s', last := s[..|s| - 1], s[|s| - 1];
      InsertKeepsSorted(s', x);
      InsertPermutes(s', x);
      var t := Insert(s', x);
      forall i | 0 <= i < |t| ensures t[i].score >= last.score {
        assert t[i] in multiset(t);
        assert t[i] in multiset(s') || t[i] == x;
        if t[i] != x {
          var j :| 0 <= j < |s'| && s'[j] == t[i];
          assert s[j] == t[i];
        }
      }
    }
  }

  /** Insert moves `x` only past records that score less, so among the
      records of any one score the order is kept and `x` comes last. */
  lemma {:induction false} InsertIsStable(s: seq<Record>, x: Record, k: int)
    ensures WithScore(Insert(s, x), k) == WithScore(s, k) + (if x.score == k then [x] else [])
  {
    if s == [] || s[|s| - 1].score >= x.score {
      WithScoreSnoc(s, x, k);
    } else {
      var s', last := s[..|s| - 1], s[|s| - 1];
      InsertIsStable(s', x, k);
      WithScoreSnoc(Insert(s', x), last, k);
    }
  }

  // ---------------------------------------------------------------------------
  // SortByScore
  // ---------------------------------------------------------------------------

  /** Where Insert puts `x`: after position j - 1 when the record there
      scores at least as much as `x` and every later one scores less. */
  lemma {:induction false} InsertAfterLast(sorted: seq<Record>, j: int, x: Record)
    requires 0 <= j <= |sorted|
    requires j == 0 || sorted[j - 1].score >= x.score
    requires forall k :: j <= k < |sorted| ==> sorted[k].score < x.score
    ensures Insert(sorted, x) == sorted[..j] + [x] + sorted[j..]
    decreases |sorted|
  {
    if j < |sorted| {
      var s' := sorted[..|sorted| - 1];
      InsertAfterLast(s', j, x);
      assert s'[..j] == sorted[..j];
      assert sorted[j..] == s'[j..] + [sorted[|sorted| - 1]];
    } else {
      assert sorted[..j] == sorted;
    }
  }

  /** The sort returns the same records, each as often as before. */
  lemma {:induction false} SortByScorePermutes(s: seq<Record>)
    ensures multiset(SortByScore(s)) == multiset(s)
    ensures |SortByScore(s)| == |s|
  {
    if s != [] {
      var s', last := s[..|s| - 1], s[|s| - 1];
      SortByScorePermutes(s');
      InsertPermutes(SortByScore(s'), last);
      MultisetOfLast(s);
    }
    assert |multiset(SortByScore(s))| == |SortByScore(s)|;
  }

  /** A non-empty sequence's records are those before its last one, plus that one. */
  lemma MultisetOfLast(s: seq<Record>)
    requires s != []
    ensures multiset(s) == multiset(s[..|s| - 1]) + multiset{s[|s| - 1]}
  {
    assert s == s[..|s| - 1] + [s[|s| - 1]];
  }

  /** The sort keeps every player's initials and score, each as often as before. */
  lemma {:induction false} SortByScoreKeepsPlays(s: seq<Record>)
    ensures multiset(Plays(SortByScore(s))) == multiset(Plays(s))
  {
    if s != [] {
      var s', last := s[..|s| - 1], s[|s| - 1];
      SortByScoreKeepsPlays(s');
      InsertKeepsPlays(SortByScore(s'), last);
      assert s == s' + [last];
      PlaysAppend(s', [last]);
    }
  }

  /** The sort puts the highest score first. */
  lemma {:induction false} SortByScoreSorted(s: seq<Record>)
    ensures SortedByScore(SortByScore(s))
  {
    if s != [] {
      SortByScoreSorted(s[..|s| - 1]);
      InsertKeepsSorted(SortByScore(s[..|s| - 1]), s[|s| - 1]);
    }
  }

  /** The sort is stable: for every score, the records with that score keep
      their relative order. */
  lemma {:induction false} SortByScoreStable(s: seq<Record>, k: int)
    ensures WithScore(SortByScore(s), k) == WithScore(s, k)
  {
    if s != [] {
      SortByScoreStable(s[..|s| - 1], k);
      InsertIsStable(SortByScore(s[..|s| - 1]), s[|s| - 1], k);
    }
  }

  lemma WithScoreFront(x: Record, s: seq<Record>, k: int)
    ensures WithScore([x] + s, k) == (if x.score == k then [x] else []) + WithScore(s, k)
  {
    WithScoreAppend([x], s, k);
    assert WithScore([x], k) == WithScore([], k) + (if x.score == k then [x] else []);
  }

  lemma WithScoreOfHead(s: seq<Record>)
    requires s != []
    ensures WithScore(s, s[0].score) != []
  {
    WithScoreMembers(s, s[0].score);
  }

  /** Sequences sorted by score with the same records of every score start
      with the same score. */
  lemma SortedSameTopScore(t: seq<Record>, u: seq<Record>)
    requires t != [] && u != []
    requires SortedByScore(t) && SortedByScore(u)
    requires forall k :: WithScore(t, k) == WithScore(u, k)
    ensures t[0].score == u[0].score
  {
    var a, b := t[0].score, u[0].score;
    WithScoreMembers(t, a);
    WithScoreMembers(u, a);
    assert t[0] in WithScore(t, a);
    var j :| 0 <= j < |u| && u[j] == t[0];
    assert b >= a;
    WithScoreMembers(t, b);
    WithScoreMembers(u, b);
    assert u[0] in WithScore(u, b);
    var i :| 0 <= i < |t| && t[i] == u[0];
    assert a >= b;
  }

  /** Two sequences sorted by score with the same records of every score, in
      the same order, are equal. */
  lemma {:induction false} SortedByScoreUnique(t: seq<Record>, u: seq<Record>)
    requires SortedByScore(t) && SortedByScore(u)
    requires forall k :: WithScore(t, k) == WithScore(u, k)
    ensures t == u
    decreases |t|
  {
    if t == [] && u != [] {
      WithScoreOfHead(u);
      assert false;
    } else if t != [] && u == [] {
      WithScoreOfHead(t);
      assert false;
    } else if t != [] {
      SortedSameTopScore(t, u);
      var a := t[0].score;
      assert t == [t[0]] + t[1..] && u == [u[0]] + u[1..];
      WithScoreFront(t[0], t[1..], a);
      WithScoreFront(u[0], u[1..], a);
      assert t[0] == WithScore(t, a)[0] == u[0];
      forall k ensures WithScore(t[1..], k) == WithScore(u[1..], k) {
        WithScoreFront(t[0], t[1..], k);
        WithScoreFront(u[0], u[1..], k);
        var front := if a == k then [t[0]] else [];
        assert front + WithScore(t[1..], k) == front + WithScore(u[1..], k);
        assert WithScore(t[1..], k) == (front + WithScore(t[1..], k))[|front|..];
        assert WithScore(u[1..], k) == (front + WithScore(u[1..], k))[|front|..];
      }
      SortedByScoreUnique(t[1..], u[1..]);
    }
  }

  /** SortByScore(s) is the one sequence that is sorted by score and keeps
      the order of the records of every score in `s`: any stable sort with
      the same comparator returns it. */
  lemma SortByScoreCharacterized(s: seq<Record>, t: seq<Record>)
    ensures t == SortByScore(s) ==> SortedByScore(t) && forall k :: WithScore(t, k) == WithScore(s, k)
    ensures (SortedByScore(t) && forall k :: WithScore(t, k) == WithScore(s, k)) ==> t == SortByScore(s)
  {
    var sorted := SortByScore(s);
    SortByScoreSorted(s);
    forall k ensures WithScore(sorted, k) == WithScore(s, k) {
      SortByScoreStable(s, k);
    }
    if SortedByScore(t) && forall k :: WithScore(t, k) == WithScore(s, k) {
      SortedByScoreUnique(t, sorted);
    }
  }

  /** A sequence already sorted by score is left as it is. */
  lemma SortedIsFixpoint(s: seq<Record>)
    requires SortedByScore(s)
    ensures SortByScore(s) == s
  {
    SortByScoreCharacterized(s, s);
  }

  // ---------------------------------------------------------------------------
  // One submission
  // ---------------------------------------------------------------------------

  /** The submitted record lands after every earlier record with the same
      score, and the earlier ones keep their order. */
  lemma NewEntryAfterTies(stored: seq<Record>, body: Record)
    ensures WithScore(SortByScore(stored + [body]), body.score) == WithScore(stored, body.score) + [body]
  {
    SortByScoreStable(stored + [body], body.score);
    WithScoreAppend(stored, [body], body.score);
    assert WithScore([body], body.score) == WithScore([], body.score) + [body];
  }

  /** When the file already holds a sorted array, sorting after the push
      just inserts the submitted record: the others keep their order. */
  lemma SubmitToSortedInserts(stored: seq<Record>, body: Record)
    requires SortedByScore(stored)
    ensures SortByScore(stored + [body]) == Insert(stored, body)
  {
    assert (stored + [body])[..|stored|] == stored;
    SortedIsFixpoint(stored);
  }

  /** The entry at position i of the written leaderboard is the i-th record
      of the sorted array, with rank i + 1 and its own initials and score. */
  lemma SubmittedAt(stored: seq<Record>, body: Record, i: int)
    requires 0 <= i <= |stored|
    ensures |Submitted(stored, body)| == |stored| + 1
    ensures Submitted(stored, body)[i]
         == Entry(i + 1, SortByScore(stored + [body])[i].initials, SortByScore(stored + [body])[i].score)
  {
    SortByScorePermutes(stored + [body]);
  }

  /** The written leaderboard is sorted and ranked, has one entry more than
      the array read, and holds the initials and score of every stored
      record and of the submitted one, each exactly once. */
  lemma SubmittedIsLeaderboard(stored: seq<Record>, body: Record)
    ensures |Submitted(stored, body)| == |stored| + 1
    ensures IsLeaderboard(AsRecords(Submitted(stored, body)))
    ensures multiset(Plays(AsRecords(Submitted(stored, body)))) == multiset(Plays(stored)) + multiset{Play(body)}
  {
    var sorted := SortByScore(stored + [body]);
    SortByScorePermutes(stored + [body]);
    SortByScoreKeepsPlays(stored + [body]);
    SortByScoreSorted(stored + [body]);
    var board := Submitted(stored, body);
    assert Plays(AsRecords(board)) == Plays(sorted);
    assert Plays(stored + [body]) == Plays(stored) + [Play(body)];
  }
}
