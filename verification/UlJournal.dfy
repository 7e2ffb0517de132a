/** Uplink failure and error indications, said about the journal of a run alone: each
    comes exactly when the limit of errors is reached since the last thing that clears
    them.
 */
module UlJournal {
  import opened FrameTiming
  import opened UlSlot
  import opened UlErrors

  // ----- Counting since the last clearing step

  /** Whether a step clears a count, and whether it then adds one. */
  datatype Mark = Mark(clear: bool, hit: bool)

  /** The last clearing step before n; -1 for none. */
  function LastClear(marks: seq<Mark>, n: nat): (k: int)
    requires n <= |marks|
    ensures -1 <= k < n && (k >= 0 ==> marks[k].clear) && forall j :: k < j < n ==> !marks[j].clear
  {
    if n == 0 then -1 else if marks[n - 1].clear then n - 1 else LastClear(marks, n - 1)
  }

  /** Hits in steps i .. j - 1. */
  function Hits(marks: seq<Mark>, i: nat, j: nat): nat
    requires i <= j <= |marks|
  {
    if i == j then 0 else Hits(marks, i, j - 1) + (if marks[j - 1].hit then 1 else 0)
  }

  /** Hits since the last clearing step before n, which may itself hit after clearing;
      without such a step the count goes back to `before`. */
  function Tally(before: nat, marks: seq<Mark>, n: nat): nat
    requires n <= |marks|
  {
    var k := LastClear(marks, n);
    if k == -1 then before + Hits(marks, 0, n) else Hits(marks, k, n)
  }

  function Stepped(before: nat, x: Mark): nat {
    (if x.clear then 0 else before) + (if x.hit then 1 else 0)
  }

  lemma {:induction false} HitsShift(marks: seq<Mark>, i: nat, j: nat)
    requires 1 <= i <= j <= |marks|
    ensures Hits(marks, i, j) == Hits(marks[1..], i - 1, j - 1)
    decreases j
  {
    if i < j {
      HitsShift(marks, i, j - 1);
    }
  }

  lemma {:induction false} HitsFirst(marks: seq<Mark>, j: nat)
    requires 1 <= j <= |marks|
    ensures Hits(marks, 0, j) == (if marks[0].hit then 1 else 0) + Hits(marks[1..], 0, j - 1)
  {
    if j > 1 {
      HitsFirst(marks, j - 1);
    } else {
      assert Hits(marks, 0, 0) == 0;
    }
  }

  lemma {:induction false} ClearShift(marks: seq<Mark>, n: nat)
    requires 1 <= n <= |marks|
    ensures LastClear(marks, n) ==
      if LastClear(marks[1..], n - 1) >= 0 then LastClear(marks[1..], n - 1) + 1 else if marks[0].clear then 0 else -1
  {
    if n > 1 && !marks[n - 1].clear {
      ClearShift(marks, n - 1);
    }
  }

  /** The first step can be folded into the count before. */
  lemma TallyShift(before: nat, marks: seq<Mark>, n: nat)
    requires 1 <= n <= |marks|
    ensures Tally(before, marks, n) == Tally(Stepped(before, marks[0]), marks[1..], n - 1)
  {
    ClearShift(marks, n);
    HitsFirst(marks, n);
    var k := LastClear(marks[1..], n - 1);
    if k >= 0 {
      HitsShift(marks, k + 1, n);
    }
  }

  /** The book that a slot's counters are. */
  function BookOf(s: Slot): (b: Book)
    requires Valid(s)
    ensures Matches(s, b)
  {
    Book(s.consecutive, seq(PROCESSES, p requires 0 <= p < PROCESSES => s.procs[p].round))
  }

  // ----- Uplink failure

  /** A success, a removal, an abandoned attempt or a failure indication clears the errors. */
  function ErrorMark(x: Note): Mark {
    Mark(x.failure || x.removed || x.abandoned || (x.block.Block? && x.block.decoded), x.errorSdu)
  }

  function ErrorMarks(notes: seq<Note>): (r: seq<Mark>)
    ensures |r| == |notes|
  {
    seq(|notes|, k requires 0 <= k < |notes| => ErrorMark(notes[k]))
  }

  lemma RecordErrors(b: Book, c: Config, x: Note)
    requires |b.fails| == PROCESSES && ExplainsNote(b, c, x)
    ensures Record(b, c, x).streak == Stepped(b.streak, ErrorMark(x))
  {
  }

  lemma {:induction false} FailuresTallied(b: Book, c: Config, notes: seq<Note>, n: nat)
    requires |b.fails| == PROCESSES && Explains(b, c, notes) && n < |notes|
    ensures notes[n].failure <==> Tally(b.streak, ErrorMarks(notes), n) == c.errorLimit
    decreases n
  {
    if n > 0 {
      RecordErrors(b, c, notes[0]);
      assert ErrorMarks(notes)[1..] == ErrorMarks(notes[1..]);
      TallyShift(b.streak, ErrorMarks(notes), n);
      FailuresTallied(Record(b, c, notes[0]), c, notes[1..], n - 1);
    }
  }

  /** Every run and every step of it: uplink failure is indicated exactly if that many error
      indications came since the last success, removal or failure. */
  lemma FailureExactly(s: Slot, c: Config, u: nat, inputs: seq<Input>, n: nat)
    requires ConfigOk(c) && Kept(s, c) && n < |inputs|
    ensures var notes := Journal(s, c, u, inputs);
      notes[n].failure <==> Tally(s.consecutive, ErrorMarks(notes), n) == c.errorLimit
  {
    FailureRuns(s, c, u, inputs, BookOf(s));
    FailuresTallied(BookOf(s), c, Journal(s, c, u, inputs), n);
  }

  // ----- Error indications

  /** A removal, an abandoned attempt or a rejected Msg3 restarts process p, and so does a
      block on it that is decoded or given up; any other block on it failed once more. */
  function RoundMark(x: Note, p: nat): Mark {
    var here := x.block.Block? && x.block.pid == p;
    var rejected := x.block.Block? && x.block.decoded && x.block.msg3 && !x.block.keep;
    Mark(x.removed || x.abandoned || rejected || (here && (x.block.decoded || x.errorSdu)),
      here && !x.block.decoded && !x.errorSdu && !x.abandoned)
  }

  function RoundMarks(notes: seq<Note>, p: nat): (r: seq<Mark>)
    ensures |r| == |notes|
  {
    seq(|notes|, k requires 0 <= k < |notes| => RoundMark(notes[k], p))
  }

  lemma RecordRounds(b: Book, c: Config, x: Note, p: nat)
    requires |b.fails| == PROCESSES && ExplainsNote(b, c, x) && p < PROCESSES
    ensures Record(b, c, x).fails[p] == Stepped(b.fails[p], RoundMark(x, p))
  {
  }

  /** MAC gets an error indication for step n exactly if a block fails that is not a Msg3 and
      its process has used up its rounds since it was last restarted; a Msg3 attempt is
      abandoned exactly if its own limit is reached. */
  ghost predicate IndicatesAt(before: seq<nat>, c: Config, notes: seq<Note>, n: nat)
    requires |before| == PROCESSES && n < |notes|
  {
    var x := notes[n];
    if x.block.NoBlock? then !x.errorSdu && !x.abandoned
    else
      x.block.pid < PROCESSES &&
      var rounds := if x.removed then 0 else Tally(before[x.block.pid], RoundMarks(notes, x.block.pid), n);
      && (x.errorSdu <==> !x.block.decoded && !x.block.msg3 && rounds + 1 == c.blockLimit)
      && (x.abandoned <==> !x.block.decoded && x.block.msg3 && rounds + 1 == c.msg3Limit)
  }

  lemma {:induction false} ErrorsTallied(b: Book, c: Config, notes: seq<Note>, n: nat)
    requires |b.fails| == PROCESSES && Explains(b, c, notes) && n < |notes|
    ensures IndicatesAt(b.fails, c, notes, n)
    decreases n
  {
    if n > 0 {
      var b', rest := Record(b, c, notes[0]), notes[1..];
      ErrorsTallied(b', c, rest, n - 1);
      var x := notes[n];
      if x.block.Block? {
        var p := x.block.pid;
        RecordRounds(b, c, notes[0], p);
        assert RoundMarks(notes, p)[1..] == RoundMarks(rest, p);
        TallyShift(b.fails[p], RoundMarks(notes, p), n);
      }
    }
  }

  /** Every run and every step of it. */
  lemma ErrorsExactly(s: Slot, c: Config, u: nat, inputs: seq<Input>, n: nat)
    requires ConfigOk(c) && Kept(s, c) && n < |inputs|
    ensures IndicatesAt(BookOf(s).fails, c, Journal(s, c, u, inputs), n)
  {
    FailureRuns(s, c, u, inputs, BookOf(s));
    ErrorsTallied(BookOf(s), c, Journal(s, c, u, inputs), n);
  }
}
