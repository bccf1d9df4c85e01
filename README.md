# High-score leaderboard server, modelled in Dafny

This project models the two route handlers of the game's high-score server
(`BackEnd/server.js`).

- `POST /saveHighScore` reads `high_scores.json` and parses it. It pushes the
  submitted object onto the `highScores` array and sorts the array by score,
  highest first. It sets every element's `rank` to its position + 1, rebuilds
  every element as exactly `{rank, initials, score}` and writes the file back.
- `GET /getHighScores` reads and parses the same file and returns its
  `highScores` value as it is, whatever it holds.

Files:

- `leaderboard.dfy` (module `Leaderboard`) holds the values. A `Record` is an
  element of the array as JavaScript holds it after `JSON.parse`, and an
  `Entry` is the three-field object the submit handler writes. The module also
  holds the specification functions:
  - `SortByScore` is the stable descending sort, written as a functional
    insertion sort.
  - `WithScore` is the sub-sequence of the records with one score. It is used
    to state stability.
  - `Renumber` models the `forEach` that sets ranks, and `Reshape` models the
    `map` that rebuilds the elements.
  - `Submitted(stored, body)` is the leaderboard the submit handler writes.

  The module proves the lemmas about these functions.
- `server.dfy` (module `Server`) holds the handlers.
  - The class `HighScoreFile` has two fields. `disk` is the file's state as a
    read finds it: unreadable, text that does not parse, `null`, or another
    parsed value whose `highScores` is missing, an array or some other JSON
    value. `crashed` records that an uncaught exception has ended the server
    process.
  - `SaveHighScore` hands the array work to `Submit`. `Submit` copies the
    array and the pushed record into a Dafny `array`, sorts it in place
    (`SortByScoreDescending`, an insertion sort), numbers it in place
    (`AssignRanks`) and builds the new array (`Reformat`). Each of these
    methods is proved against the matching function of `Leaderboard`.
  - What `fs.writeFile` does is a parameter: the write completes, or it fails
    and leaves the file in any state, since the write is not atomic.
- `scenarios.dfy` (module `Scenarios`) proves, for any three submissions A,
  then B scoring more, then C tying with A, that the list shows B, A, C
  ranked 1, 2, 3. AAA 100, BBB 150 and CCC 100 is one instance. It also
  proves that a file holding `null` ends the process at the first
  submission.

The main results:

- The sort returns a permutation (`SortByScorePermutes`), sorted highest first
  (`SortByScoreSorted`). It is stable: for every score, the records with that
  score keep their order (`SortByScoreStable`).
- These three properties determine the result (`SortByScoreCharacterized`).
  So the model gives the same result as any stable sort with the comparator
  `b.score - a.score`. Section 23.1.3.30 of ECMA-262 (2023 edition) requires
  `Array.prototype.sort` to be stable.
- A successful submission leaves a leaderboard. It is sorted, the entry at
  position i has rank i + 1, and it has exactly one entry more than before.
  Each stored (initials, score) pair appears as often as before, and the
  submitted one appears once more (`SubmittedIsLeaderboard`). The submitted entry comes after every earlier
  entry with the same score (`NewEntryAfterTies`).
- A failed read, a failed parse or a value without an array under
  `highScores` leaves the file unchanged.

What the code does not do, and the model does not either:

- The handler does no input validation. It pushes whatever body it receives.
- There is no lock around the read-modify-write.
- The write is not atomic. A failed `fs.writeFile` can leave the file in any
  state, so the model's failed write takes the state it leaves as a parameter
  (`FailsLeaving(left)`). The leaderboard invariant is only promised after a
  write that completes.

How the code behaves when the file holds no array under `highScores`:

- In the submit handler, `push` throws a TypeError (BackEnd/server.js:63).
  The throw happens inside the read callback, outside any `try`, so it is
  uncaught and ends the Node process. No response is sent, nothing is
  written, and no later request is answered (`PushThrew`, then `crashed`,
  then `ServerDown` and `ListServerDown`).
- In the list handler, a file holding `null` makes `jsonData.highScores`
  throw inside the `try`, so the answer is 500 "Parse error"
  (`ListParseFailed`). A missing `highScores` is answered with 200 and an
  empty body (`Listed(Missing)`). Any other value is answered with 200 and
  that value as JSON (`Listed(NotArray(text))`).

## Model

| member | source | states |
|---|---|---|
| `Leaderboard.ReshapeAfterReadBack` | BackEnd/server.js:74-86 | an entry written to the file, read back and rebuilt by the map is the same entry |
| `Leaderboard.ReadBackAfterReshape` | BackEnd/server.js:74-86 | a record that has a rank and no other property reads back unchanged after being rebuilt and written |
| `Leaderboard.InsertPermutes` | BackEnd/server.js:66 | one insertion step adds exactly the inserted record to the multiset of records |
| `Leaderboard.InsertKeepsPlays` | BackEnd/server.js:66 | one insertion step adds exactly the inserted record's (initials, score) pair to the multiset of pairs |
| `Leaderboard.InsertKeepsSorted` | BackEnd/server.js:66 | inserting into a sequence sorted highest-first keeps it sorted |
| `Leaderboard.InsertIsStable` | BackEnd/server.js:66 | after an insertion, the records of every score keep their order and the inserted record comes after the earlier records with its score |
| `Leaderboard.InsertAfterLast` | BackEnd/server.js:66 | when the record at j - 1 scores at least as much as x and every later one scores less, insertion puts x at position j and shifts the rest right |
| `Leaderboard.SortByScorePermutes` | BackEnd/server.js:66 | the sort returns the same records, each as often as before, so the length is kept |
| `Leaderboard.SortByScoreKeepsPlays` | BackEnd/server.js:66 | the sort keeps every (initials, score) pair, each as often as before |
| `Leaderboard.SortByScoreSorted` | BackEnd/server.js:66 | the sort's result is ordered by score, highest first |
| `Leaderboard.SortByScoreStable` | BackEnd/server.js:66 | stability: for every score k, the records with score k appear in the same order before and after the sort |
| `Leaderboard.SortedByScoreUnique` | BackEnd/server.js:66 | two sequences sorted by score with the same records of every score, in the same order, are equal |
| `Leaderboard.SortByScoreCharacterized` | BackEnd/server.js:66 | t is the sort of s if and only if t is sorted by score and keeps the order of the records of every score in s; this holds for any stable sort with this comparator |
| `Leaderboard.SortedIsFixpoint` | BackEnd/server.js:66 | an array already sorted by score is left as it is |
| `Leaderboard.NewEntryAfterTies` | BackEnd/server.js:63-66 | after the push and the sort, the records scoring the same as the submitted one are the earlier ones in their old order, followed by the submitted one |
| `Leaderboard.SubmitToSortedInserts` | BackEnd/server.js:63-66 | when the stored array is already sorted, push-then-sort is insertion of the submitted record after the last record that scores at least as much |
| `Leaderboard.SubmittedAt` | BackEnd/server.js:63-81 | the written leaderboard has one entry more than the stored array; its i-th entry has rank i + 1 and the initials and score of the i-th sorted record |
| `Leaderboard.SubmittedIsLeaderboard` | BackEnd/server.js:63-81 | the written leaderboard is sorted and ranked 1, 2, 3, ... with no other fields; it has one entry more than before, and the (initials, score) pairs are the stored ones plus the submitted one |
| `Server.SaveReply` | BackEnd/server.js:47-92 | the submit handler answers 201 exactly when the file was written; every other failure is answered with 500; a push that throws, and any request after it, gets no answer |
| `Server.ListStatus` | BackEnd/server.js:101-111 | the list handler answers 200 exactly when it could read `highScores` of the parsed value, no response once the process has ended, and 500 otherwise |
| `Server.ListMessage` | BackEnd/server.js:102-111 | a failed read and a failed parse (or `null`) are answered with different messages |
| `Server.SortByScoreDescending` | BackEnd/server.js:66 | the in-place sort leaves the array equal to `SortByScore` of its old contents |
| `Server.InsertLast` | BackEnd/server.js:66 | one step of the in-place insertion sort: the prefix up to i becomes the old prefix with a[i] inserted, and the rest of the array is untouched |
| `Server.ShiftLower` | BackEnd/server.js:66 | the inner loop of the insertion step shifts right, by one place, exactly the records before a[i] that score less than it and sit after the last one that scores at least as much |
| `Server.AssignRanks` | BackEnd/server.js:69-71 | the in-place loop sets each element's rank to its index + 1 and changes nothing else |
| `Server.Reformat` | BackEnd/server.js:74-81 | the new array holds each element rebuilt as exactly {rank, initials, score} |
| `Server.Submit` | BackEnd/server.js:63-81 | push, sort, number and rebuild give `Submitted(stored, body)`: one entry more than stored, a leaderboard once written, and the stored (initials, score) pairs plus the submitted one |
| `Server.HighScoreFile.SaveHighScore` | BackEnd/server.js:41-94 | read failure, parse failure and a value without an array under `highScores` leave the file unchanged; the last ends the process, after which a submission gets `ServerDown` and a list request gets `ListServerDown`. Otherwise a completed write leaves the file holding `Submitted(old array, body)` with the other top-level properties kept. A failed write leaves the state the write left. After success the file holds a leaderboard |
| `Server.HighScoreFile.GetHighScores` | BackEnd/server.js:99-113 | returns the stored `highScores` value unchanged, whether missing, an array or another value; a read failure, or a parse failure or `null` file, as the matching failure; no answer once the process has ended; changes nothing |
| `Server.HighScoreFile.GetHighScoresTwice` | BackEnd/server.js:101-108 | two list calls with no submission in between return the same result |
| `Scenarios.FirstSubmission` | BackEnd/server.js:63-86 | a submission to an empty array leaves it holding that record alone, with rank 1 and no other property |
| `Scenarios.HigherScoreGoesFirst` | BackEnd/server.js:63-86 | a higher score submitted after a lone record goes before it; the two get ranks 1 and 2 |
| `Scenarios.TieGoesLast` | BackEnd/server.js:63-86 | a record tying with the second of two goes after it and gets rank 3 |
| `Scenarios.TieKeepsSubmissionOrder` | BackEnd/server.js:41-113 | on an empty file, submitting A, then B scoring more, then C tying with A lists B rank 1, A rank 2, C rank 3. Any ranks or other properties the submitted objects carried are gone. AAA 100, then BBB 150, then CCC 100 is one instance |
| `Scenarios.NullFileEndsServer` | BackEnd/server.js:41-113 | on a file holding `null` a list request gets 500 "Parse error"; after one submission, which throws at the push, a list request gets no response |

## Left out

- `Server.SortByScoreDescending` is an insertion sort, not the engine's own
  algorithm. By `SortByScoreCharacterized`, every stable sort with this
  comparator gives the same array.
- JSON.parse and JSON.stringify are not modelled. The file's text is
  represented by the value it parses to. A written leaderboard is assumed to
  read back as the same records.
- Scores are mathematical integers, not JavaScript numbers. Fractional
  scores, NaN from a missing or non-numeric score, and the inconsistent
  comparator that NaN causes are not modelled.
- Every element is an object with string `initials`, a `score` and, if it
  has a `rank`, an integer one. An element that is not an object, that lacks
  `initials`, or whose `rank` is not an integer (a hand-edited file, say) is
  not modelled, although the list handler would return it as it is. The code
  does no input validation either.
- A read's result depends only on the file's state, so a read that fails
  fails again until the file changes. A transient `fs.readFile` error that
  hits one call and not the next (EMFILE, say) is not modelled;
  `GetHighScoresTwice` relies on this.
- Concurrency is not modelled. Each handler runs as one atomic step here,
  but the code has no lock, so two submissions whose reads and writes
  interleave can lose an update.
- The asynchronous callbacks of fs.readFile and fs.writeFile, and the
  console logging, are left out.
- Express setup, body parsing, static file serving, the `/` route and
  `app.listen` (BackEnd/server.js:10-35, 116-118) are framework wiring.
- BackEnd/score.js, the browser `fetch` client of the two endpoints, is not
  part of this model. It only forwards the requests and checks `response.ok`.
- BackEnd/renderTable.js, which builds the page's table from the listed
  scores, is not part of this model. It is UI code.
- The body of a successful list response is `highScores` serialized as JSON.
  The model returns the value itself.
- A file whose `highScores` is not an array is modelled by its JSON
  text only. `push` is not a function on any such value, so it always throws.
