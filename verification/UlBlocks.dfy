/** When an uplink block is received: what a grant, a NAK and an ACK on PHICH lead to, over
    whole runs.  Step m transmits subframe m + 2, which decides about the process of subframe
    m + 6, and receives subframe m.
 */
module UlBlocks {
  import opened Arith
  import opened FrameTiming
  import opened UlSlot
  import opened UlErrors

  // ----- One process in one step

  /** The part of a process that decides about blocks. */
  datatype View = View(scheduled: bool, phich: bool, ack: bool)

  function ViewOf(s: Slot, p: nat): View
    requires Valid(s) && p < PROCESSES
  {
    View(s.procs[p].scheduled, s.procs[p].phich, s.procs[p].phichAck)
  }

  /** The slot is emptied in this step: by MAC, or because Msg3 failed for good or was rejected. */
  predicate Emptied(x: Note) {
    x.removed || x.abandoned || (x.block.Block? && x.block.decoded && x.block.msg3 && !x.block.keep)
  }

  predicate IsMsg3(b: Block) {
    b.Block? && b.msg3
  }

  /** The process that transmission t decides about, in a slot with a UE; granted: MAC sent
      it a grant. */
  function Decided(v: View, granted: bool, noAlloc: bool): View {
    if !v.phich then v.(scheduled := v.scheduled || granted)
    else if !noAlloc then View(v.scheduled || granted, false, v.ack)
    else View(!v.ack, false, v.ack)
  }

  lemma TransmitView(s: Slot, c: Config, t: nat, i: TxInput, p: nat)
    requires Kept(s, c) && !i.remove && p < PROCESSES && (s.rnti > 0 || i.rar > 0)
    ensures var r := Transmit(s, c, t, i);
      && r.rnti > 0
      && ViewOf(r, p) ==
         if p == (t + 4) % 8 then Decided(ViewOf(s, p), s.rnti > 0 && i.grant, i.noAlloc) else ViewOf(s, p)
  {
    var s1 := GrantBlock(CheckFailure(s, c), t, i.grant);
    var s2 := Respond(s1, t, i.rar);
    PhichView(s2, t, i.noAlloc, p);
  }

  lemma PhichView(s: Slot, t: nat, noAlloc: bool, p: nat)
    requires Valid(s) && p < PROCESSES && s.rnti > 0
    ensures var r := SendPhich(s, t, noAlloc);
      r.rnti == s.rnti && ViewOf(r, p) == if p == (t + 4) % 8 then Decided(ViewOf(s, p), false, noAlloc) else ViewOf(s, p)
  {
  }

  lemma ExpectView(s: Slot, u: nat, p: nat)
    requires Valid(s) && p < PROCESSES
    ensures var r := ExpectMsg3(s, u);
      && r.rnti == s.rnti
      && (p != u % 8 ==> ViewOf(r, p) == ViewOf(s, p))
      && (p == u % 8 ==>
            ViewOf(r, p).phich == ViewOf(s, p).phich && ViewOf(r, p).ack == ViewOf(s, p).ack
            && (ViewOf(s, p).scheduled ==> ViewOf(r, p).scheduled)
            && (ViewOf(r, p).scheduled && !ViewOf(s, p).scheduled ==> r.msg3Flag))
  {
    PidsFollowTime(u);
  }

  /** The block on process u % 8 is taken, unless the slot is emptied. */
  lemma BlockView(s: Slot, c: Config, u: nat, i: RxInput, p: nat)
    requires Valid(s) && HasBlock(s, u) && p < PROCESSES
    requires !(i.decoded && s.msg3Flag && !i.keep)
    requires !(!i.decoded && s.msg3Flag && s.procs[u % 8].round + 1 == c.msg3Limit)
    ensures var r := if i.decoded then Decoded(s, u, i.keep) else Failed(s, c, u);
      var up := !i.decoded && !s.msg3Flag && s.procs[u % 8].round + 1 == c.blockLimit;
      && r.rnti == s.rnti
      && ViewOf(r, p) == if p == u % 8 then View(false, !up, i.decoded) else ViewOf(s, p)
  {
    PidsFollowTime(u);
  }

  /** What a reception does to the process of the received subframe: a block is taken, and a
      PHICH answer is due unless the block was given up. */
  function Taken(v: View, x: Note): View {
    if x.block.NoBlock? then v.(scheduled := false) else View(false, !x.errorSdu, x.block.decoded)
  }

  lemma ReceiveView(s: Slot, c: Config, u: nat, i: RxInput, p: nat, x: Note)
    requires Kept(s, c) && s.rnti > 0 && p < PROCESSES && Shows(s, c, u, i, x) && !Emptied(x)
    ensures var r := Receive(s, c, u, i);
      && r.rnti == s.rnti
      && ViewOf(r, p) == if p == u % 8 then Taken(ViewOf(s, p), x) else ViewOf(s, p)
    ensures x.block.Block? <==> ViewOf(s, u % 8).scheduled || IsMsg3(x.block)
  {
    PidsFollowTime(u);
    ExpectView(s, u, p);
    ExpectView(s, u, u % 8);
    var s1 := ExpectMsg3(s, u);
    if HasBlock(s1, u) {
      BlockView(s1, c, u, i, p);
    }
  }

  /** The note of a step, from the slot after the transmission half. */
  predicate Shows(s: Slot, c: Config, u: nat, i: RxInput, x: Note)
    requires Valid(s)
  {
    var s1, pid := ExpectMsg3(s, u), UplinkPid(Frame(u), Subframe(u));
    && x.block == (if HasBlock(s1, u) then Block(pid, i.decoded, s1.msg3Flag, i.keep) else NoBlock)
    && (x.errorSdu <==> GivesUp(s, c, u, i))
    && (x.abandoned <==> HasBlock(s1, u) && !i.decoded && s1.msg3Flag && s1.procs[pid].round + 1 == c.msg3Limit)
  }

  /** One step that leaves a UE in the slot: the process of subframe m + 6 is decided about,
      the block of process m % 8 is taken, and nothing else changes. */
  lemma StepView(s: Slot, c: Config, m: nat, i: Input, p: nat)
    requires ConfigOk(c) && Kept(s, c) && p < PROCESSES && (s.rnti > 0 || i.tx.rar > 0)
    requires !Emptied(Observe(s, c, m, i))
    ensures var s', x := Next(s, c, m, i), Observe(s, c, m, i);
      && s'.rnti > 0
      && (p != m % 8 && p != (m + 6) % 8 ==> ViewOf(s', p) == ViewOf(s, p))
      && (p == (m + 6) % 8 ==> ViewOf(s', p) == Decided(ViewOf(s, p), s.rnti > 0 && i.tx.grant, i.tx.noAlloc))
      && (p == m % 8 ==> ViewOf(s', p) == Taken(ViewOf(s, p), x))
      && (x.block.Block? <==> ViewOf(s, m % 8).scheduled || IsMsg3(x.block))
      && (x.block.Block? ==> x.block.pid == m % 8)
  {
    var s1, x := Transmit(s, c, m + LEAD, i.tx), Observe(s, c, m, i);
    Sixth(m);
    PidsFollowTime(m);
    TransmitKept(s, c, m + LEAD, i.tx);
    TransmitView(s, c, m + LEAD, i.tx, p);
    TransmitView(s, c, m + LEAD, i.tx, m % 8);
    assert Shows(s1, c, m, i.rx, x);
    ReceiveView(s1, c, m, i.rx, p, x);
  }

  lemma Sixth(m: nat)
    ensures (m + LEAD + 4) % 8 == (m + 6) % 8 != m % 8
  {
    if (m + 6) % 8 == m % 8 {
      SameResidue(m, m + 6, 8);
    }
  }

  // ----- Histories

  /** A slot as far as blocks are concerned. */
  datatype Snap = Snap(present: bool, views: seq<View>)

  function SnapOf(s: Slot): (r: Snap)
    requires Valid(s)
    ensures |r.views| == PROCESSES
  {
    Snap(s.rnti > 0, seq(PROCESSES, p requires 0 <= p < PROCESSES => ViewOf(s, p)))
  }

  /** Step m leads from a to b, with note x, and leaves a UE in the slot. */
  predicate Moves(a: Snap, b: Snap, m: nat, tx: TxInput, x: Note) {
    && |a.views| == |b.views| == PROCESSES && b.present
    && (forall p :: 0 <= p < PROCESSES && p != m % 8 && p != (m + 6) % 8 ==> b.views[p] == a.views[p])
    && b.views[(m + 6) % 8] == Decided(a.views[(m + 6) % 8], a.present && tx.grant, tx.noAlloc)
    && b.views[m % 8] == Taken(a.views[m % 8], x)
    && (x.block.Block? <==> a.views[m % 8].scheduled || IsMsg3(x.block))
    && (x.block.Block? ==> x.block.pid == m % 8 && (a.present || tx.rar > 0))
  }

  lemma StepMoves(s: Slot, c: Config, m: nat, i: Input)
    requires ConfigOk(c) && Kept(s, c) && (s.rnti > 0 || i.tx.rar > 0) && !Emptied(Observe(s, c, m, i))
    ensures Valid(Next(s, c, m, i)) && Moves(SnapOf(s), SnapOf(Next(s, c, m, i)), m, i.tx, Observe(s, c, m, i))
  {
    var s' := Next(s, c, m, i);
    Sixth(m);
    forall p | 0 <= p < PROCESSES
      ensures SnapOf(s').views[p] == ViewOf(s', p) && SnapOf(s).views[p] == ViewOf(s, p)
      ensures p != m % 8 && p != (m + 6) % 8 ==> ViewOf(s', p) == ViewOf(s, p)
    {
      StepView(s, c, m, i, p);
    }
    StepView(s, c, m, i, m % 8);
    StepView(s, c, m, i, (m + 6) % 8);
  }

  /** A slot without a UE shows no block. */
  lemma NoUeNoBlock(s: Slot, c: Config, m: nat, i: Input)
    requires Kept(s, c) && s.rnti == 0 && i.tx.rar == 0
    ensures Observe(s, c, m, i).block.NoBlock?
  {
  }

  /** Snaps before each step of a run and at its end. */
  function Snaps(s: Slot, c: Config, u: nat, inputs: seq<Input>): (r: seq<Snap>)
    requires Valid(s)
    ensures |r| == |inputs| + 1
    decreases |inputs|
  {
    if inputs == [] then [SnapOf(s)] else [SnapOf(s)] + Snaps(Next(s, c, u, inputs[0]), c, u + 1, inputs[1..])
  }

  /** A history of steps u, u + 1, ...: snaps, what MAC did and what was noted, as the steps of
      a slot relate them. */
  ghost predicate History(u: nat, snaps: seq<Snap>, txs: seq<TxInput>, notes: seq<Note>) {
    && |snaps| == |notes| + 1 && |txs| == |notes|
    && forall k :: 0 <= k < |notes| ==> Related(u, snaps, txs, notes, k)
  }

  predicate Related(u: nat, snaps: seq<Snap>, txs: seq<TxInput>, notes: seq<Note>, k: nat)
    requires k < |notes| && k + 1 < |snaps| && k < |txs|
  {
    Relates(snaps[k], snaps[k + 1], u + k, txs[k], notes[k])
  }

  /** A step that leaves a UE in the slot, one that finds none, or one in which MAC removes it. */
  predicate Relates(a: Snap, b: Snap, m: nat, tx: TxInput, x: Note) {
    && ((a.present || tx.rar > 0) && !Emptied(x) ==> Moves(a, b, m, tx, x))
    && (!a.present && tx.rar == 0 ==> x.block.NoBlock?)
    && (tx.remove && tx.rar == 0 ==> x.removed && Removes(a, b) && x.block.NoBlock?)
  }

  /** The UE goes; a PHICH answer that is due stays, as a NAK. */
  predicate Removes(a: Snap, b: Snap) {
    && |a.views| == |b.views| == PROCESSES && !b.present
    && forall p :: 0 <= p < PROCESSES ==> b.views[p] == View(false, a.views[p].phich, false)
  }

  lemma StepRemoves(s: Slot, c: Config, m: nat, i: Input)
    requires Kept(s, c) && i.tx.remove && i.tx.rar == 0
    ensures var x := Observe(s, c, m, i);
      Valid(Next(s, c, m, i)) && Removes(SnapOf(s), SnapOf(Next(s, c, m, i))) && x.removed && x.block.NoBlock?
  {
    var s1 := Clean(CheckFailure(s, c));
    assert Transmit(s, c, m + LEAD, i.tx) == s1;
    assert ExpectMsg3(s1, m) == s1;
    assert Next(s, c, m, i) == s1;
  }

  function Txs(inputs: seq<Input>): (r: seq<TxInput>)
    ensures |r| == |inputs| && forall k :: 0 <= k < |inputs| ==> r[k] == inputs[k].tx
  {
    seq(|inputs|, k requires 0 <= k < |inputs| => inputs[k].tx)
  }

  lemma HistoryCons(u: nat, a: Snap, snaps: seq<Snap>, tx: TxInput, txs: seq<TxInput>, x: Note, notes: seq<Note>)
    requires History(u + 1, snaps, txs, notes)
    requires Relates(a, snaps[0], u, tx, x)
    ensures History(u, [a] + snaps, [tx] + txs, [x] + notes)
  {
    var snaps', txs', notes' := [a] + snaps, [tx] + txs, [x] + notes;
    forall k | 0 <= k < |notes'| ensures Related(u, snaps', txs', notes', k) {
      if k > 0 {
        assert Related(u + 1, snaps, txs, notes, k - 1);
        assert u + 1 + (k - 1) == u + k;
      }
    }
  }

  lemma {:induction false} RunHistoryOf(s: Slot, c: Config, u: nat, inputs: seq<Input>, snaps: seq<Snap>, notes: seq<Note>)
    requires ConfigOk(c) && Kept(s, c) && snaps == Snaps(s, c, u, inputs) && notes == Journal(s, c, u, inputs)
    ensures History(u, snaps, Txs(inputs), notes)
    decreases |inputs|
  {
    if inputs != [] {
      var s', rest := Next(s, c, u, inputs[0]), inputs[1..];
      StepKept(s, c, u, inputs[0]);
      assert snaps[1..] == Snaps(s', c, u + 1, rest) && notes[1..] == Journal(s', c, u + 1, rest);
      RunHistoryOf(s', c, u + 1, rest, snaps[1..], notes[1..]);
      FirstSnap(s', c, u + 1, rest);
      FirstRelated(s, c, u, inputs[0]);
      HistoryCons(u, snaps[0], snaps[1..], inputs[0].tx, Txs(rest), notes[0], notes[1..]);
      Whole(inputs, snaps, notes);
    }
  }

  lemma Whole(inputs: seq<Input>, snaps: seq<Snap>, notes: seq<Note>)
    requires inputs != [] && snaps != [] && notes != []
    ensures [snaps[0]] + snaps[1..] == snaps && [notes[0]] + notes[1..] == notes
    ensures [inputs[0].tx] + Txs(inputs[1..]) == Txs(inputs)
  {
  }

  /** Every run of the slot is a history with its journal as notes. */
  lemma RunHistory(s: Slot, c: Config, u: nat, inputs: seq<Input>)
    requires ConfigOk(c) && Kept(s, c)
    ensures History(u, Snaps(s, c, u, inputs), Txs(inputs), Journal(s, c, u, inputs))
  {
    RunHistoryOf(s, c, u, inputs, Snaps(s, c, u, inputs), Journal(s, c, u, inputs));
  }

  lemma FirstSnap(s: Slot, c: Config, u: nat, inputs: seq<Input>)
    requires Valid(s)
    ensures Snaps(s, c, u, inputs)[0] == SnapOf(s)
  {
  }

  lemma FirstRelated(s: Slot, c: Config, u: nat, i: Input)
    requires ConfigOk(c) && Kept(s, c)
    ensures Valid(Next(s, c, u, i)) && Relates(SnapOf(s), SnapOf(Next(s, c, u, i)), u, i.tx, Observe(s, c, u, i))
  {
    if (s.rnti > 0 || i.tx.rar > 0) && !Emptied(Observe(s, c, u, i)) {
      StepMoves(s, c, u, i);
    }
    if s.rnti == 0 && i.tx.rar == 0 {
      NoUeNoBlock(s, c, u, i);
    }
    if i.tx.remove && i.tx.rar == 0 {
      StepRemoves(s, c, u, i);
    }
  }

  // ----- Within a history

  /** The slot is not emptied in steps i .. j. */
  predicate Stays(notes: seq<Note>, i: nat, j: nat)
    requires j < |notes|
  {
    forall k :: i <= k <= j ==> !Emptied(notes[k])
  }

  /** Two subframes less than eight apart are on different processes. */
  lemma Distinct(x: nat, y: nat)
    requires x < y < x + 8
    ensures x % 8 != y % 8
  {
    if x % 8 == y % 8 {
      SameResidue(x, y, 8);
    }
  }

  lemma Eight(x: nat)
    ensures (x + 8) % 8 == x % 8
  {
  }

  /** What step k decides about the process of step k + 6 is not touched in between. */
  lemma {:induction false} Carried(u: nat, snaps: seq<Snap>, txs: seq<TxInput>, notes: seq<Note>, k: nat, j: nat)
    requires History(u, snaps, txs, notes) && 1 <= j <= 6 && k + 6 < |notes| && Stays(notes, k, k + 6)
    requires |snaps[k + 1].views| == PROCESSES && snaps[k + 1].present
    ensures var p := (u + k + 6) % 8;
      |snaps[k + j].views| == PROCESSES && snaps[k + j].present && snaps[k + j].views[p] == snaps[k + 1].views[p]
    decreases j
  {
    if j > 1 {
      Carried(u, snaps, txs, notes, k, j - 1);
      var m := k + j - 1;
      assert Related(u, snaps, txs, notes, m);
      Distinct(u + m, u + k + 6);
      Distinct(u + k + 6, u + m + 6);
    }
  }

  /** Step k decides whether there is a block in step k + 6, apart from Msg3. */
  lemma DecidedAt(u: nat, snaps: seq<Snap>, txs: seq<TxInput>, notes: seq<Note>, k: nat)
    requires History(u, snaps, txs, notes) && k + 6 < |notes| && Stays(notes, k, k + 6)
    requires snaps[k].present || txs[k].rar > 0
    ensures var p, y := (u + k + 6) % 8, notes[k + 6].block;
      && |snaps[k].views| == PROCESSES
      && (y.Block? <==> Decided(snaps[k].views[p], snaps[k].present && txs[k].grant, txs[k].noAlloc).scheduled || IsMsg3(y))
      && (y.Block? ==> y.pid == p)
      && |snaps[k + 6].views| == PROCESSES && snaps[k + 6].present
      && snaps[k + 6].views[p] == Decided(snaps[k].views[p], snaps[k].present && txs[k].grant, txs[k].noAlloc)
  {
    assert Related(u, snaps, txs, notes, k);
    Carried(u, snaps, txs, notes, k, 6);
    assert Related(u, snaps, txs, notes, k + 6);
    Sixth(u + k);
  }

  /** The process of step n before step n + 2, when its PHICH answer is due. */
  lemma TakenAt(u: nat, snaps: seq<Snap>, txs: seq<TxInput>, notes: seq<Note>, n: nat)
    requires History(u, snaps, txs, notes) && n + 1 < |notes| && Stays(notes, n, n + 1)
    requires snaps[n].present || txs[n].rar > 0
    ensures |snaps[n].views| == |snaps[n + 2].views| == PROCESSES && snaps[n + 2].present
    ensures snaps[n + 2].views[(u + n) % 8] == Taken(snaps[n].views[(u + n) % 8], notes[n])
  {
    assert Related(u, snaps, txs, notes, n);
    assert Related(u, snaps, txs, notes, n + 1);
    Distinct(u + n, u + n + 1);
    Distinct(u + n, u + n + 1 + 6);
  }

  // ----- What follows a block

  /** Whether a block follows another on its process: after a failure that is not the last, MAC
      granted one or left the process to PHICH; after a success, MAC granted one itself; after
      a block that was given up, MAC granted one. */
  predicate AskedAgain(x: Note, tx: TxInput)
    requires x.block.Block?
  {
    if x.errorSdu then tx.grant else if x.block.decoded then tx.grant && !tx.noAlloc else tx.grant || tx.noAlloc
  }

  lemma FollowsBlock(u: nat, snaps: seq<Snap>, txs: seq<TxInput>, notes: seq<Note>, n: nat)
    requires History(u, snaps, txs, notes) && n + 8 < |notes| && Stays(notes, n, n + 8) && notes[n].block.Block?
    ensures var y := notes[n + 8].block;
      && (y.Block? <==> AskedAgain(notes[n], txs[n + 2]) || IsMsg3(y)) && (y.Block? ==> y.pid == (u + n) % 8)
  {
    assert Related(u, snaps, txs, notes, n);
    TakenAt(u, snaps, txs, notes, n);
    assert Stays(notes, n + 2, n + 2 + 6);
    DecidedAt(u, snaps, txs, notes, n + 2);
    Eight(u + n);
  }

  /** Every run: after a block in step n, while the slot keeps its UE, the journal shows a block
      on the same process eight steps later exactly if it was asked for again or is a Msg3. */
  lemma FollowsExactly(s: Slot, c: Config, u: nat, inputs: seq<Input>, n: nat)
    requires ConfigOk(c) && Kept(s, c) && n + 8 < |inputs| && Stays(Journal(s, c, u, inputs), n, n + 8)
    requires Journal(s, c, u, inputs)[n].block.Block?
    ensures var notes := Journal(s, c, u, inputs);
      var y := notes[n + 8].block;
      && (y.Block? <==> AskedAgain(notes[n], inputs[n + 2].tx) || IsMsg3(y)) && (y.Block? ==> y.pid == (u + n) % 8)
  {
    RunHistory(s, c, u, inputs);
    FollowsBlock(u, Snaps(s, c, u, inputs), Txs(inputs), Journal(s, c, u, inputs), n);
  }

  /** A block that fails before its last round and is left to PHICH is received again eight
      subframes later, on the same process. */
  lemma Retransmitted(s: Slot, c: Config, u: nat, inputs: seq<Input>, n: nat)
    requires ConfigOk(c) && Kept(s, c) && n + 8 < |inputs| && Stays(Journal(s, c, u, inputs), n, n + 8)
    requires var x := Journal(s, c, u, inputs)[n]; x.block.Block? && !x.block.decoded && !x.errorSdu
    requires inputs[n + 2].tx.noAlloc
    ensures var y := Journal(s, c, u, inputs)[n + 8].block; y.Block? && y.pid == (u + n) % 8
  {
    FollowsExactly(s, c, u, inputs, n);
  }

  // ----- Quiet processes

  /** A UE is in the slot, and on process p nothing is scheduled and no PHICH answer is due. */
  predicate QuietOn(a: Snap, p: nat) {
    |a.views| == PROCESSES && p < PROCESSES && a.present && !a.views[p].scheduled && !a.views[p].phich
  }

  /** After step n + 8 without a block the process is quiet, if its answer was due in n + 2. */
  lemma QuietAfter(u: nat, snaps: seq<Snap>, txs: seq<TxInput>, notes: seq<Note>, n: nat)
    requires History(u, snaps, txs, notes) && n + 9 < |notes| && Stays(notes, n + 2, n + 9) && snaps[n + 2].present
    requires notes[n + 8].block.NoBlock?
    ensures QuietOn(snaps[n + 10], (u + n) % 8)
  {
    Eight(u + n);
    assert Stays(notes, n + 2, n + 2 + 6);
    DecidedAt(u, snaps, txs, notes, n + 2);
    TakenAt(u, snaps, txs, notes, n + 8);
  }

  /** A quiet process has a block exactly if MAC grants it, or it is a Msg3. */
  lemma FollowsQuiet(u: nat, snaps: seq<Snap>, txs: seq<TxInput>, notes: seq<Note>, n: nat)
    requires History(u, snaps, txs, notes) && n + 8 < |notes| && Stays(notes, n + 2, n + 8)
    requires QuietOn(snaps[n + 2], (u + n) % 8)
    ensures notes[n + 8].block.Block? <==> txs[n + 2].grant || IsMsg3(notes[n + 8].block)
  {
    Eight(u + n);
    assert Stays(notes, n + 2, n + 2 + 6);
    DecidedAt(u, snaps, txs, notes, n + 2);
  }

  /** In the r rounds of a process after step n, MAC grants nothing on it and no Msg3 is
      received on it. */
  predicate Unasked(txs: seq<TxInput>, notes: seq<Note>, n: nat, r: nat)
    requires |txs| == |notes| && n + 8 * r < |notes|
  {
    forall i: nat :: 1 <= i <= r ==> RoundUnasked(txs, notes, n, i)
  }

  predicate RoundUnasked(txs: seq<TxInput>, notes: seq<Note>, n: nat, i: nat)
    requires |txs| == |notes| && 1 <= i && n + 8 * i < |notes|
  {
    !txs[n + 8 * i - 6].grant && !IsMsg3(notes[n + 8 * i].block)
  }

  lemma {:induction false} NoneAfter(u: nat, snaps: seq<Snap>, txs: seq<TxInput>, notes: seq<Note>, n: nat, r: nat)
    requires History(u, snaps, txs, notes) && 1 <= r && n + 8 * r + 1 < |notes| && Stays(notes, n, n + 8 * r + 1)
    requires notes[n].block.Block? && notes[n].block.decoded && Unasked(txs, notes, n, r)
    ensures notes[n + 8 * r].block.NoBlock? && QuietOn(snaps[n + 8 * r + 2], (u + n) % 8)
    decreases r
  {
    assert RoundUnasked(txs, notes, n, r);
    if r == 1 {
      assert Related(u, snaps, txs, notes, n);
      TakenAt(u, snaps, txs, notes, n);
      FollowsBlock(u, snaps, txs, notes, n);
      QuietAfter(u, snaps, txs, notes, n);
    } else {
      var k := n + 8 * (r - 1);
      NoneAfter(u, snaps, txs, notes, n, r - 1);
      SameProcess(u + n, r - 1);
      FollowsQuiet(u, snaps, txs, notes, k);
      QuietAfter(u, snaps, txs, notes, k);
    }
  }

  lemma SameProcess(x: nat, r: nat)
    ensures (x + 8 * r) % 8 == x % 8
  {
  }

  /** Every run: after a decoded block in step n its process has no block, in none of the steps
      n + 8, n + 16, ..., until MAC grants one or a Msg3 is received on it. */
  lemma NoneAfterSuccess(s: Slot, c: Config, u: nat, inputs: seq<Input>, n: nat, r: nat)
    requires ConfigOk(c) && Kept(s, c) && 1 <= r && n + 8 * r + 1 < |inputs|
    requires Stays(Journal(s, c, u, inputs), n, n + 8 * r + 1)
    requires var x := Journal(s, c, u, inputs)[n]; x.block.Block? && x.block.decoded
    requires Unasked(Txs(inputs), Journal(s, c, u, inputs), n, r)
    ensures Journal(s, c, u, inputs)[n + 8 * r].block.NoBlock?
  {
    RunHistory(s, c, u, inputs);
    NoneAfter(u, Snaps(s, c, u, inputs), Txs(inputs), Journal(s, c, u, inputs), n, r);
  }

  // ----- Grants

  /** Every run: a grant transmitted in subframe t of step k, t == u + k + 2, to a UE that stays
      gives a block in subframe t + 4, on the process of that subframe. */
  lemma GrantGivesBlock(s: Slot, c: Config, u: nat, inputs: seq<Input>, k: nat)
    requires ConfigOk(c) && Kept(s, c) && k + 6 < |inputs| && Stays(Journal(s, c, u, inputs), k, k + 6)
    requires Snaps(s, c, u, inputs)[k].present && inputs[k].tx.grant && !inputs[k].tx.noAlloc
    ensures var t, y := u + k + LEAD, Journal(s, c, u, inputs)[k + 6].block;
      y.Block? && y.pid == (t + 4) % 8 && u + (k + 6) == t + 4
  {
    RunHistory(s, c, u, inputs);
    GrantAt(u, Snaps(s, c, u, inputs), Txs(inputs), Journal(s, c, u, inputs), k);
  }

  lemma GrantAt(u: nat, snaps: seq<Snap>, txs: seq<TxInput>, notes: seq<Note>, k: nat)
    requires History(u, snaps, txs, notes) && k + 6 < |notes| && Stays(notes, k, k + 6)
    requires snaps[k].present && txs[k].grant && !txs[k].noAlloc
    ensures var t, y := u + k + LEAD, notes[k + 6].block; y.Block? && y.pid == (t + 4) % 8 && u + (k + 6) == t + 4
  {
    DecidedAt(u, snaps, txs, notes, k);
  }

  // ----- A PHICH answer that outlives its UE

  lemma InheritsAt(u: nat, snaps: seq<Snap>, txs: seq<TxInput>, notes: seq<Note>, n: nat)
    requires History(u, snaps, txs, notes) && n + 8 < |notes| && notes[n].block.Block? && !Emptied(notes[n])
    requires txs[n + 1].remove && txs[n + 1].rar == 0 && txs[n + 2].rar > 0 && Stays(notes, n + 2, n + 8)
    ensures notes[n + 8].block.Block? <==> (txs[n + 2].noAlloc && !notes[n].errorSdu) || IsMsg3(notes[n + 8].block)
  {
    var p := (u + n) % 8;
    Eight(u + n);
    assert Related(u, snaps, txs, notes, n);
    assert Related(u, snaps, txs, notes, n + 1);
    assert snaps[n + 2].views[p] == View(false, !notes[n].errorSdu, false);
    assert Stays(notes, n + 2, n + 2 + 6);
    DecidedAt(u, snaps, txs, notes, n + 2);
  }

  /** Cleaning a slot leaves a PHICH answer that is due, and the next UE in the slot inherits
      it.  A block is received in step n, its UE is removed in the next step, and the response to
      a random access in the step after puts a new UE into the slot: in step n + 8, two subframes
      before its Msg3, a block is expected from the new UE that nobody granted, exactly if the
      old block was not given up and the process is left to PHICH.  Even a decoded block is
      answered as failed. */
  lemma Inherited(s: Slot, c: Config, u: nat, inputs: seq<Input>, n: nat)
    requires ConfigOk(c) && Kept(s, c) && n + 8 < |inputs|
    requires var x := Journal(s, c, u, inputs)[n]; x.block.Block? && !Emptied(x)
    requires inputs[n + 1].tx.remove && inputs[n + 1].tx.rar == 0 && inputs[n + 2].tx.rar > 0
    requires Stays(Journal(s, c, u, inputs), n + 2, n + 8)
    ensures var notes := Journal(s, c, u, inputs);
      notes[n + 8].block.Block? <==> (inputs[n + 2].tx.noAlloc && !notes[n].errorSdu) || IsMsg3(notes[n + 8].block)
  {
    RunHistory(s, c, u, inputs);
    InheritsAt(u, Snaps(s, c, u, inputs), Txs(inputs), Journal(s, c, u, inputs), n);
  }
}
