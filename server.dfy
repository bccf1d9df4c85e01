/**
 * The two route handlers of the high-score server: POST /saveHighScore and
 * GET /getHighScores, over the file high_scores.json held as the state of a
 * HighScoreFile object. What the file system does on a read is decided by the
 * file's state; what it does on a write is a parameter of the submit handler.
 */
module Server {
  import opened Leaderboard

  /** What `highScores` holds on the parsed value. */
  datatype HighScoresValue =
    | Missing
      // no such property, or the parsed value is a number, string or boolean
    | Array(records: seq<Record>)
    | NotArray(text: string)
      // any other JSON value (null, an object, a number, ...), by its JSON text

  /** The file's text as JSON.parse sees it. */
  datatype Json =
    | Malformed
      // JSON.parse throws
    | Null
      // the text is `null`: reading a property of it throws a TypeError
    | Parsed(highScores: HighScoresValue, others: map<string, string>)
      // any other value; others are the remaining top-level properties, by
      // name, with their JSON text (none unless the value is an object)

  /** The file as fs.readFile finds it. */
  datatype Disk = Unreadable | Readable(json: Json)

  /** What fs.writeFile does with the new contents: complete, or fail and
      leave the file in the state `left` (the write is not atomic). */
  datatype WriteAttempt = Completes | FailsLeaving(left: Disk)

  /** How a submission ends. PushThrew is the TypeError that `push` throws
      when `highScores` is not an array; nothing catches it, so it ends the
      process. ServerDown is a request that arrives after that. */
  datatype SaveOutcome = Created | ReadFailed | ParseFailed | PushThrew | WriteFailed | ServerDown

  /** How a list request ends. ListParseFailed also covers the TypeError of
      reading `highScores` of `null`, which the same catch handles. */
  datatype ListOutcome =
    | Listed(highScores: HighScoresValue)
    | ListReadFailed
    | ListParseFailed
    | ListServerDown

  datatype Response = Response(code: int, body: string)

  /** The submit handler's response for each outcome. A push that throws
      sends nothing, and a process that has ended answers nothing. */
  function SaveReply(outcome: SaveOutcome): (r: Option<Response>)
    ensures r.None? <==> outcome == PushThrew || outcome == ServerDown
    ensures r.Some? && r.value.code == 201 <==> outcome == Created
    ensures r.Some? && outcome != Created ==> r.value.code == 500
  {
    match outcome
    case Created => Some(Response(201, "Success"))
    case ReadFailed => Some(Response(500, "Error reading file"))
    case ParseFailed => Some(Response(500, "JSON error"))
    case PushThrew => None
    case WriteFailed => Some(Response(500, "File write error"))
    case ServerDown => None
  }

  /** The status code of the list handler's response: 200 with `highScores`
      as JSON (an empty body when it is missing), 500 with a message, or no
      response once the process has ended. */
  function ListStatus(outcome: ListOutcome): (code: Option<int>)
    ensures code == Some(200) <==> outcome.Listed?
    ensures code.None? <==> outcome == ListServerDown
    ensures code.Some? && code != Some(200) ==> code == Some(500)
  {
    match outcome
    case Listed(_) => Some(200)
    case ListServerDown => None
    case _ => Some(500)
  }

  /** The message of a failed list response. */
  function ListMessage(outcome: ListOutcome): (m: string)
    requires outcome == ListReadFailed || outcome == ListParseFailed
    ensures m == "Cannot read from file" <==> outcome == ListReadFailed
  {
    if outcome == ListReadFailed then "Cannot read from file" else "Parse error"
  }

  /** Array.prototype.sort with the comparator `b.score - a.score`, which
      sorts in place and is stable. Modelled as an insertion sort: every
      stable sort with this comparator gives the same result
      (Leaderboard.SortByScoreCharacterized). */
  method SortByScoreDescending(a: array<Record>)
    modifies a
    ensures a[..] == SortByScore(old(a[..]))
  {
    ghost var input := a[..];
    var i := 0;
    while i < a.Length
      invariant 0 <= i <= a.Length
      invariant a[..i] == SortByScore(input[..i])
      invariant a[i..] == input[i..]
    {
      InsertLast(a, i);
      assert input[..i + 1][..i] == input[..i];
      i := i + 1;
    }
    assert input[..a.Length] == input;
  }

  /** One step of the insertion sort: a[i] moves left past the records that
      score less than it. */
  method InsertLast(a: array<Record>, i: int)
    requires 0 <= i < a.Length
    modifies a
    ensures a[..i + 1] == Insert(old(a[..i]), old(a[i]))
    ensures a[i + 1..] == old(a[i + 1..])
  {
    var x := a[i];
    ghost var sorted := a[..i];
    var j := ShiftLower(a, i);
    a[j] := x;
    InsertAfterLast(sorted, j, x);
    assert a[..i + 1] == sorted[..j] + [x] + sorted[j..] by {
      forall k | 0 <= k <= i ensures a[k] == (sorted[..j] + [x] + sorted[j..])[k] {
        if k > j {
          assert (sorted[..j] + [x] + sorted[j..])[k] == sorted[k - 1];
        }
      }
    }
  }

  /** The inner loop of the insertion step: moves one place to the right
      every record before a[i] that scores less than a[i], from the right,
      and returns the place left free. */
  method ShiftLower(a: array<Record>, i: int) returns (j: int)
    requires 0 <= i < a.Length
    modifies a
    ensures 0 <= j <= i
    ensures j == 0 || old(a[j - 1]).score >= old(a[i]).score
    ensures forall k :: j <= k < i ==> old(a[k]).score < old(a[i]).score
    ensures forall k :: 0 <= k < j ==> a[k] == old(a[k])
    ensures forall k :: j < k <= i ==> a[k] == old(a[k - 1])
    ensures forall k :: i < k < a.Length ==> a[k] == old(a[k])
  {
    var x := a[i];
    j := i;
    while j > 0 && a[j - 1].score < x.score
      invariant 0 <= j <= i
      invariant forall k :: 0 <= k < j ==> a[k] == old(a[k])
      invariant forall k :: j < k <= i ==> a[k] == old(a[k - 1])
      invariant forall k :: i < k < a.Length ==> a[k] == old(a[k])
      invariant forall k :: j <= k < i ==> old(a[k]).score < x.score
    {
      a[j] := a[j - 1];
      j := j - 1;
    }
  }

  /** The forEach that sets every record's rank to its position + 1. */
  method AssignRanks(a: array<Record>)
    modifies a
    ensures a[..] == Renumber(old(a[..]))
  {
    var i := 0;
    while i < a.Length
      invariant 0 <= i <= a.Length
      invariant a[..i] == Renumber(old(a[..]))[..i]
      invariant a[i..] == old(a[..])[i..]
    {
      a[i] := a[i].(rank := Some(i + 1));
      i := i + 1;
    }
  }

  /** The map that rebuilds every record as exactly {rank, initials, score}. */
  method Reformat(a: array<Record>) returns (newScores: seq<Entry>)
    requires forall i :: 0 <= i < a.Length ==> a[i].rank.Some?
    ensures newScores == Reshape(a[..])
  {
    newScores := [];
    for i := 0 to a.Length
      invariant newScores == Reshape(a[..i])
    {
      assert a[..i + 1] == a[..i] + [a[i]];
      newScores := newScores + [Entry(a[i].rank.value, a[i].initials, a[i].score)];
    }
    assert a[..a.Length] == a[..];
  }

  /** The array work of the submit handler: push `body` onto the stored
      records, sort them, number them and rebuild them. */
  method Submit(stored: seq<Record>, body: Record) returns (newScores: seq<Entry>)
    ensures newScores == Submitted(stored, body)
    ensures |newScores| == |stored| + 1
    ensures IsLeaderboard(AsRecords(newScores))
    ensures multiset(Plays(AsRecords(newScores))) == multiset(Plays(stored)) + multiset{Play(body)}
  {
    var pushed := stored + [body];
    var highScores := new Record[|pushed|](i requires 0 <= i < |pushed| => pushed[i]);
    assert highScores[..] == pushed;
    SortByScoreDescending(highScores);
    AssignRanks(highScores);
    newScores := Reformat(highScores);
    SubmittedIsLeaderboard(stored, body);
  }

  /** The file high_scores.json, and whether the server process is still
      running. */
  class HighScoreFile {
    var disk: Disk
    var crashed: bool

    constructor (initial: Disk)
      ensures disk == initial && !crashed
    {
      disk := initial;
      crashed := false;
    }

    /** The file holds a leaderboard as the submit handler writes it. */
    predicate HoldsLeaderboard()
      reads this
    {
      disk.Readable? && disk.json.Parsed? && disk.json.highScores.Array?
      && IsLeaderboard(disk.json.highScores.records)
    }

    /** POST /saveHighScore: read and parse the file, push the submitted
        record, sort, number, reshape and write the file back. */
    method SaveHighScore(body: Record, write: WriteAttempt) returns (outcome: SaveOutcome)
      modifies this
      ensures old(crashed) ==> outcome == ServerDown
      ensures !old(crashed) && old(disk).Unreadable? ==> outcome == ReadFailed
      ensures !old(crashed) && old(disk) == Readable(Malformed) ==> outcome == ParseFailed
      ensures !old(crashed) && old(disk).Readable? && !old(disk).json.Malformed?
                && !(old(disk).json.Parsed? && old(disk).json.highScores.Array?) ==>
                outcome == PushThrew && crashed
      ensures !old(crashed) && old(disk).Readable? && old(disk).json.Parsed?
                && old(disk).json.highScores.Array? ==>
                var board := Submitted(old(disk).json.highScores.records, body);
                match write
                case Completes =>
                  outcome == Created
                  && disk == Readable(Parsed(Array(AsRecords(board)), old(disk).json.others))
                case FailsLeaving(left) =>
                  outcome == WriteFailed && disk == left
      ensures outcome == Created ==> HoldsLeaderboard()
      ensures outcome != Created && outcome != WriteFailed ==> disk == old(disk)
      ensures outcome != PushThrew ==> crashed == old(crashed)
    {
      if crashed {
        return ServerDown;
      }
      if disk.Unreadable? {
        return ReadFailed;
      }
      var scores := disk.json;
      if scores.Malformed? {
        return ParseFailed;
      }
      if scores.Null? || !scores.highScores.Array? {
        crashed := true;
        return PushThrew;
      }
      var newScores := Submit(scores.highScores.records, body);
      match write {
        case Completes =>
          disk := Readable(Parsed(Array(AsRecords(newScores)), scores.others));
          outcome := Created;
        case FailsLeaving(left) =>
          disk := left;
          outcome := WriteFailed;
      }
    }

    /** GET /getHighScores: read and parse the file and return its
        `highScores` as it is. */
    method GetHighScores() returns (outcome: ListOutcome)
      ensures crashed ==> outcome == ListServerDown
      ensures !crashed && disk.Unreadable? ==> outcome == ListReadFailed
      ensures !crashed && (disk == Readable(Malformed) || disk == Readable(Null)) ==>
                outcome == ListParseFailed
      ensures !crashed && disk.Readable? && disk.json.Parsed? ==>
                outcome == Listed(disk.json.highScores)
    {
      if crashed {
        return ListServerDown;
      }
      if disk.Unreadable? {
        return ListReadFailed;
      }
      match disk.json {
        case Malformed =>
          outcome := ListParseFailed;
        case Null =>
          outcome := ListParseFailed;
        case Parsed(highScores, _) =>
          outcome := Listed(highScores);
      }
    }

    /** Reading does not change the file, so two reads with no submission
        between them return the same thing. */
    method GetHighScoresTwice() returns (first: ListOutcome, second: ListOutcome)
      ensures first == second
    {
      first := GetHighScores();
      second := GetHighScores();
    }
  }
}
