/** Uplink block errors and uplink failure over whole runs.  What MAC can observe of a
    slot, received blocks and failure indications, is explained by plain counting: the
    slot, with its flags, PHICH and Msg3 timers, refines a book of counters.
 */
module UlErrors {
  import opened FrameTiming
  import opened UlSlot

  /** One received block: its process, whether it decoded, whether it was a Msg3, and
      whether MAC kept that Msg3. */
  datatype Block = NoBlock | Block(pid: nat, decoded: bool, msg3: bool, keep: bool)

  /** What happened in one step: MAC was told of uplink failure, removed the UE, a block was
      received; MAC got an error indication for it, or the Msg3 attempt was abandoned. */
  datatype Note = Note(failure: bool, removed: bool, block: Block, errorSdu: bool, abandoned: bool)

  /** streak: exhausted blocks in a row; fails[p]: failed receptions in a row of the
      block on process p. */
  datatype Book = Book(streak: nat, fails: seq<nat>)

  const EMPTY := Book(0, [0, 0, 0, 0, 0, 0, 0, 0])

  predicate Exhausts(b: Book, c: Config, x: Block)
    requires |b.fails| == PROCESSES
  {
    x.Block? && x.pid < PROCESSES && !x.decoded && !x.msg3 && b.fails[x.pid] + 1 == c.blockLimit
  }

  predicate Abandons(b: Book, c: Config, x: Block)
    requires |b.fails| == PROCESSES
  {
    x.Block? && x.pid < PROCESSES && !x.decoded && x.msg3 && b.fails[x.pid] + 1 == c.msg3Limit
  }

  /** Bookkeeping of one received block. */
  function Count(b: Book, c: Config, x: Block): (r: Book)
    requires |b.fails| == PROCESSES
    ensures |r.fails| == PROCESSES
  {
    if x.NoBlock? || x.pid >= PROCESSES then b
    else if x.decoded then
      if x.msg3 && !x.keep then EMPTY else Book(0, b.fails[x.pid := 0])
    else if x.msg3 then
      if Abandons(b, c, x) then EMPTY else b.(fails := b.fails[x.pid := b.fails[x.pid] + 1])
    else if Exhausts(b, c, x) then Book(b.streak + 1, b.fails[x.pid := 0])
    else b.(fails := b.fails[x.pid := b.fails[x.pid] + 1])
  }

  /** A failure indication restarts the streak; removing the UE restarts everything. */
  function Record(b: Book, c: Config, note: Note): (r: Book)
    requires |b.fails| == PROCESSES
    ensures |r.fails| == PROCESSES
  {
    var b1 := if note.failure then b.(streak := 0) else b;
    Count(if note.removed then EMPTY else b1, c, note.block)
  }

  /** What a step of the slot shows. */
  function Observe(s: Slot, c: Config, u: nat, i: Input): (note: Note)
    requires Valid(s)
  {
    var s1 := ExpectMsg3(Transmit(s, c, u + LEAD, i.tx), u);
    var pid := UplinkPid(Frame(u), Subframe(u));
    Note(s.consecutive == c.errorLimit, i.tx.remove,
      if HasBlock(s1, u) then Block(pid, i.rx.decoded, s1.msg3Flag, i.rx.keep) else NoBlock,
      GivesUp(Transmit(s, c, u + LEAD, i.tx), c, u, i.rx),
      HasBlock(s1, u) && !i.rx.decoded && s1.msg3Flag && s1.procs[pid].round + 1 == c.msg3Limit)
  }

  predicate Matches(s: Slot, b: Book) {
    && Valid(s) && |b.fails| == PROCESSES && s.consecutive == b.streak
    && forall p :: 0 <= p < PROCESSES ==> s.procs[p].round == b.fails[p]
  }

  lemma TransmitMatches(s: Slot, c: Config, t: nat, i: TxInput, b: Book)
    requires ConfigOk(c) && Kept(s, c) && Matches(s, b)
    ensures var b1 := if b.streak == c.errorLimit then b.(streak := 0) else b;
      Matches(Transmit(s, c, t, i), if i.remove then EMPTY else b1)
  {
    var s1 := CheckFailure(s, c);
    var s2 := if i.remove then Clean(s1) else s1;
    if i.remove {
      CleanKept(s1, c);
    }
    var b1 := if b.streak == c.errorLimit then b.(streak := 0) else b;
    var b2 := if i.remove then EMPTY else b1;
    assert Kept(s2, c) && Matches(s2, b2);
    GrantMatches(s2, c, t, i, b2);
  }

  /** Neither a grant nor a response nor a PHICH changes a counter. */
  lemma GrantMatches(s: Slot, c: Config, t: nat, i: TxInput, b: Book)
    requires Kept(s, c) && Matches(s, b)
    ensures Matches(SendPhich(Respond(GrantBlock(s, t, i.grant), t, i.rar), t, i.noAlloc), b)
  {
    var s1 := GrantBlock(s, t, i.grant);
    assert Kept(s1, c) && Matches(s1, b);
    var s2 := Respond(s1, t, i.rar);
    assert Matches(s2, b) by {
      assert s1.rnti == 0 ==> Quiet(s1.procs[Msg3Pid(Frame(t), Subframe(t))]);
    }
    var p := s2.procs[(t + 4) % 8];
    assert p.phich && p.phichAck ==> p.round == 0;
  }

  lemma ReceiveMatches(s: Slot, c: Config, u: nat, i: RxInput, b: Book)
    requires ConfigOk(c) && Kept(s, c) && Matches(s, b)
    ensures var s1 := ExpectMsg3(s, u);
      var x := if HasBlock(s1, u) then Block(UplinkPid(Frame(u), Subframe(u)), i.decoded, s1.msg3Flag, i.keep) else NoBlock;
      Matches(Receive(s, c, u, i), Count(b, c, x))
  {
    var s1 := ExpectMsg3(s, u);
    assert Matches(s1, b);
    if HasBlock(s1, u) {
      BlockMatches(s1, c, u, i, b);
    }
  }

  lemma BlockMatches(s: Slot, c: Config, u: nat, i: RxInput, b: Book)
    requires ConfigOk(c) && Matches(s, b)
    ensures Matches(if i.decoded then Decoded(s, u, i.keep) else Failed(s, c, u),
      Count(b, c, Block(UplinkPid(Frame(u), Subframe(u)), i.decoded, s.msg3Flag, i.keep)))
  {
  }

  lemma StepExplained(s: Slot, c: Config, u: nat, i: Input, b: Book)
    requires ConfigOk(c) && Kept(s, c) && Matches(s, b)
    ensures ExplainsNote(b, c, Observe(s, c, u, i))
  {
    TransmitMatches(s, c, u + LEAD, i.tx, b);
    var s1 := Transmit(s, c, u + LEAD, i.tx);
    BlockExplained(s1, c, u, i.rx, if i.tx.remove then EMPTY else if b.streak == c.errorLimit then b.(streak := 0) else b);
  }

  lemma BlockExplained(s: Slot, c: Config, u: nat, i: RxInput, b: Book)
    requires Matches(s, b)
    ensures var s1, pid := ExpectMsg3(s, u), UplinkPid(Frame(u), Subframe(u));
      var x := if HasBlock(s1, u) then Block(pid, i.decoded, s1.msg3Flag, i.keep) else NoBlock;
      && pid < PROCESSES && (GivesUp(s, c, u, i) <==> Exhausts(b, c, x))
      && (HasBlock(s1, u) && !i.decoded && s1.msg3Flag && s1.procs[pid].round + 1 == c.msg3Limit <==> Abandons(b, c, x))
  {
  }

  /** One step of the slot is one entry in the book; a failure is indicated exactly if the
      streak has reached the limit, an error exactly if the book says the block is exhausted,
      and a Msg3 attempt is abandoned exactly if the book says so. */
  lemma StepMatches(s: Slot, c: Config, u: nat, i: Input, b: Book)
    requires ConfigOk(c) && Kept(s, c) && Matches(s, b)
    ensures Matches(Next(s, c, u, i), Record(b, c, Observe(s, c, u, i)))
    ensures ExplainsNote(b, c, Observe(s, c, u, i))
  {
    StepExplained(s, c, u, i, b);
    TransmitMatches(s, c, u + LEAD, i.tx, b);
    TransmitKept(s, c, u + LEAD, i.tx);
    var b1 := if b.streak == c.errorLimit then b.(streak := 0) else b;
    ReceiveMatches(Transmit(s, c, u + LEAD, i.tx), c, u, i.rx, if i.tx.remove then EMPTY else b1);
  }

  function Journal(s: Slot, c: Config, u: nat, inputs: seq<Input>): (notes: seq<Note>)
    requires Valid(s)
    ensures |notes| == |inputs|
    decreases |inputs|
  {
    if inputs == [] then []
    else [Observe(s, c, u, inputs[0])] + Journal(Next(s, c, u, inputs[0]), c, u + 1, inputs[1..])
  }

  /** The book explains a note: a failure exactly at the limit of the streak, an error
      indication or an abandoned attempt exactly at the limits of the process. */
  predicate ExplainsNote(b: Book, c: Config, x: Note)
    requires |b.fails| == PROCESSES
  {
    var b1 := if x.removed then EMPTY else b;
    && (x.failure <==> b.streak == c.errorLimit) && b.streak <= c.errorLimit
    && (x.block.Block? ==> x.block.pid < PROCESSES)
    && (x.errorSdu <==> Exhausts(b1, c, x.block)) && (x.abandoned <==> Abandons(b1, c, x.block))
  }

  ghost predicate Explains(b: Book, c: Config, notes: seq<Note>)
    requires |b.fails| == PROCESSES
    decreases |notes|
  {
    notes != [] ==> ExplainsNote(b, c, notes[0]) && Explains(Record(b, c, notes[0]), c, notes[1..])
  }

  function RecordAll(b: Book, c: Config, notes: seq<Note>): (r: Book)
    requires |b.fails| == PROCESSES
    ensures |r.fails| == PROCESSES
    decreases |notes|
  {
    if notes == [] then b else RecordAll(Record(b, c, notes[0]), c, notes[1..])
  }

  /** Every run: the observed journal is explained by the book, and the slot's counters
      are the book's counters at the end. */
  lemma {:induction false} FailureRuns(s: Slot, c: Config, u: nat, inputs: seq<Input>, b: Book)
    requires ConfigOk(c) && Kept(s, c) && Matches(s, b)
    ensures Explains(b, c, Journal(s, c, u, inputs))
    ensures Matches(After(s, c, u, inputs), RecordAll(b, c, Journal(s, c, u, inputs)))
    decreases |inputs|
  {
    if inputs != [] {
      StepMatches(s, c, u, inputs[0], b);
      StepKept(s, c, u, inputs[0]);
      var notes := Journal(s, c, u, inputs);
      assert notes[1..] == Journal(Next(s, c, u, inputs[0]), c, u + 1, inputs[1..]);
      FailureRuns(Next(s, c, u, inputs[0]), c, u + 1, inputs[1..], Record(b, c, Observe(s, c, u, inputs[0])));
    }
  }
}
