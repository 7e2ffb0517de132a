/** Downlink HARQ of one UE at the eNB: transmissions by DCI, ACK/NAK feedback on
    PUCCH or PUSCH looked up in ten-entry tables, retransmission, error counting and
    rate adaptation, over whole runs.
 */
module DlHarq {
  import opened FrameTiming

  const PROCESSES: nat := 8

  /** One HARQ process with its statistics; acks, naks and trials are per round. */
  datatype Process = Process(
    active: bool, round: nat, acks: seq<nat>, naks: seq<nat>, trials: seq<nat>, l2Errors: nat)

  /** limit: Mlimit; threshold and window: error_threshold and ra_window_size. */
  datatype Config = Config(limit: nat, threshold: nat, window: nat)

  datatype Ue = Ue(
    procs: seq<Process>, harqIds: seq<nat>, sent: seq<bool>,
    firstNaks: nat, slide: nat, mcsOffset: int, firstSr: bool)

  predicate Shaped(p: Process, limit: nat) {
    |p.acks| == limit && |p.naks| == limit && |p.trials| == limit && p.round < limit
  }

  predicate Valid(s: Ue, c: Config) {
    && |s.procs| == PROCESSES && |s.harqIds| == 10 && |s.sent| == 10
    && forall i :: 0 <= i < PROCESSES ==> Shaped(s.procs[i], c.limit)
  }

  // ----- Transmission (generate_eNB_dlsch_params_from_dci and the PDSCH loop)

  function Transmitted(p: Process): (r: Process)
    requires p.round < |p.trials|
  {
    p.(active := p.active || p.round == 0, trials := p.trials[p.round := p.trials[p.round] + 1])
  }

  datatype Grant = Idle | Block(pid: nat)

  predicate GrantOk(g: Grant) {
    g.Block? ==> g.pid < PROCESSES
  }

  function Transmit(s: Ue, c: Config, sf: nat, g: Grant): (r: Ue)
    requires Valid(s, c) && sf < 10 && GrantOk(g)
    ensures Valid(r, c)
  {
    match g
    case Idle => s.(sent := s.sent[sf := false])
    case Block(pid) =>
      s.(sent := s.sent[sf := true], harqIds := s.harqIds[sf := pid],
         procs := s.procs[pid := Transmitted(s.procs[pid])], slide := s.slide + 1)
  }

  // ----- Feedback (process_HARQ_feedback)

  /** Effect of one ACK or NAK on an active process. */
  function Resolved(p: Process, ack: bool, limit: nat): (r: Process)
    requires Shaped(p, limit)
    ensures Shaped(r, limit)
  {
    if ack then
      p.(active := false, round := 0, acks := p.acks[p.round := p.acks[p.round] + 1])
    else
      var q := p.(naks := p.naks[p.round := p.naks[p.round] + 1]);
      if p.round + 1 == limit then q.(active := false, round := 0, l2Errors := p.l2Errors + 1)
      else q.(round := p.round + 1)
  }

  /** Rate adaptation: the four tests at the end of a window are made in sequence. */
  function Adapted(offset: int, naks: nat, c: Config, windowEnds: bool): (r: int)
    ensures -1 <= offset <= 1 ==> -1 <= r <= 1
  {
    var o1 := if naks > c.threshold then (if offset == 1 then 0 else -1) else offset;
    if !windowEnds then o1
    else
      var o2 := if o1 == 0 && naks < 2 then 1 else o1;
      var o3 := if o2 == 1 && naks > 2 then 0 else o2;
      var o4 := if o3 == 0 && naks > 2 then -1 else o3;
      if o4 == -1 && naks < 2 then 0 else o4
  }

  /** The table entry sf leads to an active process. */
  predicate Pending(s: Ue, c: Config, sf: nat)
    requires Valid(s, c) && sf < 10
  {
    s.sent[sf] && s.harqIds[sf] < PROCESSES && s.procs[s.harqIds[sf]].active
  }

  function Credit(s: Ue, c: Config, sf: nat, ack: bool): (r: Ue)
    requires Valid(s, c) && sf < 10
    ensures Valid(r, c)
  {
    if !Pending(s, c, sf) then s
    else
      var pid := s.harqIds[sf];
      var p := s.procs[pid];
      var p' := Resolved(p, ack, c.limit);
      var naks := s.firstNaks + (if !ack && p.round == 0 then 1 else 0);
      var ends := s.slide == c.window;
      s.(procs := s.procs[pid := p'],
         harqIds := if p'.active then s.harqIds else s.harqIds[sf := PROCESSES],
         mcsOffset := Adapted(s.mcsOffset, naks, c, ends),
         firstNaks := if ends then 0 else naks,
         slide := if ends then 0 else s.slide)
  }

  /** What the receiver hands over: two bits decoded on PUSCH, or on PUCCH with the
      selected resource (2: bundling or FDD) and whether a scheduling request was seen. */
  datatype Signal =
    | Pusch(bit0: bool, bit1: bool, bundling: bool)
    | Pucch(bit0: bool, bit1: bool, sel: nat, sr: bool)

  /** Number of acknowledged blocks signalled with a scheduling request. */
  function SignalledAcks(sig: Signal, count: nat): nat
    requires sig.Pucch?
  {
    if count == 2 && sig.bit0 && sig.bit1 then 1 else if count == 2 && sig.bit0 && !sig.bit1 then 2 else 0
  }

  function Allocated(s: Ue, d: Duplex, sf: nat, count: nat): (n: nat)
    requires |s.sent| == 10 && forall m :: 0 <= m < count ==> AckSource(d, sf, m) < 10
    ensures n <= count
  {
    if count == 0 then 0
    else Allocated(s, d, sf, count - 1) + (if s.sent[AckSource(d, sf, count - 1)] then 1 else 0)
  }

  /** The acknowledgement value used for subframe m of the set.  On PUSCH the bits are
      taken by the subframes that had a transmission, in order; multiplexed PUCCH
      without a scheduling request always counts as NAK. */
  function AckBit(d: Duplex, sig: Signal, allAcked: bool, taken: nat): (b: bool) {
    match sig
    case Pusch(b0, b1, bundling) => if d == FDD || bundling || taken == 0 then b0 else b1
    case Pucch(b0, _, sel, sr) => if sel == 2 then b0 else sr && allAcked
  }

  predicate AllAcked(s: Ue, d: Duplex, sf: nat, sig: Signal)
    requires |s.sent| == 10 && forall m :: 0 <= m < AckCount(d, sf) ==> AckSource(d, sf, m) < 10
  {
    sig.Pucch? && Allocated(s, d, sf, AckCount(d, sf)) == SignalledAcks(sig, AckCount(d, sf))
  }

  /** Feedback for the first n subframes of the set. */
  function FeedbackUpTo(s: Ue, c: Config, d: Duplex, sf: nat, sig: Signal, n: nat): (r: Ue)
    requires Valid(s, c) && n <= AckCount(d, sf) && forall m :: 0 <= m < AckCount(d, sf) ==> AckSource(d, sf, m) < 10
    ensures Valid(r, c) && r.sent == s.sent && r.firstSr == s.firstSr
  {
    if n == 0 then s
    else
      Credit(FeedbackUpTo(s, c, d, sf, sig, n - 1), c, AckSource(d, sf, n - 1),
        AckBit(d, sig, AllAcked(s, d, sf, sig), Allocated(s, d, sf, n - 1)))
  }

  lemma SourcesInTable(d: Duplex, sf: nat)
    requires sf < 10
    ensures forall m :: 0 <= m < AckCount(d, sf) ==> AckSource(d, sf, m) < 10
  {
  }

  function Feedback(s: Ue, c: Config, d: Duplex, sf: nat, sig: Signal): (r: Ue)
    requires Valid(s, c) && sf < 10
    ensures Valid(r, c)
  {
    SourcesInTable(d, sf);
    FeedbackUpTo(s, c, d, sf, sig, AckCount(d, sf))
  }

  /** First scheduling request after connection setup: process 0 is dropped. */
  function FirstSr(s: Ue, c: Config): (r: Ue)
    requires Valid(s, c)
    ensures Valid(r, c)
  {
    if s.firstSr then
      s.(firstSr := false, procs := s.procs[0 := s.procs[0].(active := false, round := 0)])
    else s
  }

  // ----- One step of the eNB for this UE

  /** The scheduler's grant for the subframe to transmit, a detected scheduling
      request, and the feedback decoded in the subframe received: none when nothing is
      awaited, one normally, two when PUCCH and Msg3 are both processed. */
  datatype Input = Input(grant: Grant, sr: bool, signals: seq<Signal>)

  function FeedbackAll(s: Ue, c: Config, d: Duplex, sf: nat, signals: seq<Signal>): (r: Ue)
    requires Valid(s, c) && sf < 10
    ensures Valid(r, c)
    decreases |signals|
  {
    if signals == [] then s else FeedbackAll(Feedback(s, c, d, sf, signals[0]), c, d, sf, signals[1..])
  }

  function Receive(s: Ue, c: Config, d: Duplex, u: nat, i: Input): (r: Ue)
    requires Valid(s, c)
    ensures Valid(r, c)
  {
    FeedbackAll(if i.sr then FirstSr(s, c) else s, c, d, Subframe(u), i.signals)
  }

  function Next(s: Ue, c: Config, d: Duplex, u: nat, i: Input): (r: Ue)
    requires Valid(s, c) && GrantOk(i.grant)
    ensures Valid(r, c)
  {
    var t := u + LEAD;
    var s1 := if Select(d, Subframe(t)) == Downlink then Transmit(s, c, Subframe(t), i.grant) else s;
    var s2 := if Receives(d, u) then Receive(s1, c, d, u, i) else s1;
    if Select(d, Subframe(t)) == Special then Transmit(s2, c, Subframe(t), i.grant) else s2
  }

  /** The run of inputs is from step u onwards. */
  function After(s: Ue, c: Config, d: Duplex, u: nat, inputs: seq<Input>): (r: Ue)
    requires Valid(s, c) && forall i :: i in inputs ==> GrantOk(i.grant)
    ensures Valid(r, c)
    decreases |inputs|
  {
    if inputs == [] then s
    else
      assert inputs[0] in inputs;
      After(Next(s, c, d, u, inputs[0]), c, d, u + 1, inputs[1..])
  }

  function Reset(c: Config, firstSr: bool): (s: Ue)
    requires c.limit > 0
    ensures Valid(s, c)
  {
    var zeros := seq(c.limit, i => 0);
    var p := Process(false, 0, zeros, zeros, zeros, 0);
    Ue([p, p, p, p, p, p, p, p], seq(10, i => PROCESSES), seq(10, i => false), 0, 0, 0, firstSr)
  }

  // ----- Conservation: any duplex mode, any grants, any feedback

  predicate At(p: Process, r: nat) {
    p.active && p.round == r
  }

  /** Every block that failed round r - 1 was acknowledged in round r, failed it too,
      or is in it; a block lost to the first scheduling request in round `lost` is the
      only exception.  Failing the last round is an L2 error. */
  predicate Balanced(p: Process, limit: nat, lost: nat) {
    && Shaped(p, limit)
    && (forall r :: 1 <= r < limit ==>
          p.naks[r - 1] == p.acks[r] + p.naks[r] + (if At(p, r) then 1 else 0) + (if r == lost then 1 else 0))
    && p.l2Errors == p.naks[limit - 1]
    && (!p.active ==> p.round == 0)
  }

  lemma ResolvedBalanced(p: Process, ack: bool, limit: nat, lost: nat)
    requires Balanced(p, limit, lost) && p.active
    ensures Balanced(Resolved(p, ack, limit), limit, lost)
  {
  }

  lemma TransmittedBalanced(p: Process, limit: nat, lost: nat)
    requires Balanced(p, limit, lost)
    ensures Balanced(Transmitted(p), limit, lost)
  {
  }

  /** Only process 0 can have lost a block, and only once the flag is spent. */
  predicate Conserved(s: Ue, c: Config, lost: nat) {
    && Valid(s, c) && -1 <= s.mcsOffset <= 1 && lost < c.limit && (s.firstSr ==> lost == 0)
    && forall i :: 0 <= i < PROCESSES ==> Balanced(s.procs[i], c.limit, if i == 0 then lost else 0)
  }

  lemma TransmitConserved(s: Ue, c: Config, sf: nat, g: Grant, lost: nat)
    requires Conserved(s, c, lost) && sf < 10 && GrantOk(g)
    ensures Conserved(Transmit(s, c, sf, g), c, lost)
  {
    if g.Block? {
      TransmittedBalanced(s.procs[g.pid], c.limit, if g.pid == 0 then lost else 0);
    }
  }

  lemma CreditConserved(s: Ue, c: Config, sf: nat, ack: bool, lost: nat)
    requires Conserved(s, c, lost) && sf < 10
    ensures Conserved(Credit(s, c, sf, ack), c, lost)
  {
    if Pending(s, c, sf) {
      var pid := s.harqIds[sf];
      ResolvedBalanced(s.procs[pid], ack, c.limit, if pid == 0 then lost else 0);
    }
  }

  lemma {:induction false} FeedbackConserved(s: Ue, c: Config, d: Duplex, sf: nat, sig: Signal, n: nat, lost: nat)
    requires Conserved(s, c, lost) && sf < 10 && n <= AckCount(d, sf)
    requires forall m :: 0 <= m < AckCount(d, sf) ==> AckSource(d, sf, m) < 10
    ensures Conserved(FeedbackUpTo(s, c, d, sf, sig, n), c, lost)
  {
    if n > 0 {
      FeedbackConserved(s, c, d, sf, sig, n - 1, lost);
      CreditConserved(FeedbackUpTo(s, c, d, sf, sig, n - 1), c, AckSource(d, sf, n - 1),
        AckBit(d, sig, AllAcked(s, d, sf, sig), Allocated(s, d, sf, n - 1)), lost);
    }
  }

  lemma {:induction false} FeedbackAllConserved(s: Ue, c: Config, d: Duplex, sf: nat, signals: seq<Signal>, lost: nat)
    requires Conserved(s, c, lost) && sf < 10
    ensures Conserved(FeedbackAll(s, c, d, sf, signals), c, lost)
    decreases |signals|
  {
    if signals != [] {
      SourcesInTable(d, sf);
      FeedbackConserved(s, c, d, sf, signals[0], AckCount(d, sf), lost);
      FeedbackAllConserved(Feedback(s, c, d, sf, signals[0]), c, d, sf, signals[1..], lost);
    }
  }

  /** The round in which a step loses a block of process 0; 0 for none. */
  function LostIn(s: Ue, c: Config, d: Duplex, u: nat, i: Input): nat
    requires Valid(s, c) && GrantOk(i.grant)
  {
    var t := u + LEAD;
    var s1 := if Select(d, Subframe(t)) == Downlink then Transmit(s, c, Subframe(t), i.grant) else s;
    if Receives(d, u) && i.sr && s.firstSr && s1.procs[0].active then s1.procs[0].round else 0
  }

  lemma FirstSrConserved(s: Ue, c: Config, lost: nat)
    requires Conserved(s, c, lost)
    ensures Conserved(FirstSr(s, c), c, if s.firstSr && s.procs[0].active then s.procs[0].round else lost)
  {
  }

  lemma StepConserved(s: Ue, c: Config, d: Duplex, u: nat, i: Input, lost: nat)
    requires Conserved(s, c, lost) && GrantOk(i.grant)
    ensures Conserved(Next(s, c, d, u, i), c, if LostIn(s, c, d, u, i) != 0 then LostIn(s, c, d, u, i) else lost)
  {
    var t := u + LEAD;
    TransmitConserved(s, c, Subframe(t), i.grant, lost);
    var s1 := if Select(d, Subframe(t)) == Downlink then Transmit(s, c, Subframe(t), i.grant) else s;
    var lost' := if LostIn(s, c, d, u, i) != 0 then LostIn(s, c, d, u, i) else lost;
    var s2 := s1;
    if Receives(d, u) {
      FirstSrConserved(s1, c, lost);
      var s0 := if i.sr then FirstSr(s1, c) else s1;
      FeedbackAllConserved(s0, c, d, Subframe(u), i.signals, lost');
      s2 := Receive(s1, c, d, u, i);
    }
    TransmitConserved(s2, c, Subframe(t), i.grant, lost');
  }

  /** The round in which a whole run loses a block of process 0; 0 for none. */
  function Lost(s: Ue, c: Config, d: Duplex, u: nat, inputs: seq<Input>, before: nat): nat
    requires Valid(s, c) && forall i :: i in inputs ==> GrantOk(i.grant)
    decreases |inputs|
  {
    if inputs == [] then before
    else
      assert inputs[0] in inputs;
      var now := LostIn(s, c, d, u, inputs[0]);
      Lost(Next(s, c, d, u, inputs[0]), c, d, u + 1, inputs[1..], if now != 0 then now else before)
  }

  /** Every run, in every duplex mode and whatever is scheduled and received: failed
      rounds are accounted for, up to the one block the first scheduling request may
      drop; rounds stay below the limit, idle processes are in round 0, and the MCS
      offset is -1, 0 or 1. */
  lemma {:induction false} ConservationRuns(s: Ue, c: Config, d: Duplex, u: nat, inputs: seq<Input>, lost: nat)
    requires Conserved(s, c, lost) && forall i :: i in inputs ==> GrantOk(i.grant)
    ensures Conserved(After(s, c, d, u, inputs), c, Lost(s, c, d, u, inputs, lost))
    decreases |inputs|
  {
    if inputs != [] {
      assert inputs[0] in inputs;
      StepConserved(s, c, d, u, inputs[0], lost);
      var now := LostIn(s, c, d, u, inputs[0]);
      ConservationRuns(Next(s, c, d, u, inputs[0]), c, d, u + 1, inputs[1..], if now != 0 then now else lost);
    }
  }

  // ----- Multiplexed feedback in TDD

  /** The acknowledgement that PUCCH channel selection encodes for subframe m of a set of
      `count`, as the code decodes it before overwriting it. */
  function DecodedBit(sig: Signal, count: nat, m: nat): bool
    requires sig.Pucch?
  {
    if count == 1 then sig.bit0
    else if m == 0 then (sig.sel == 1 && sig.bit0 && sig.bit1) || (sig.sel == 0 && !sig.bit0 && sig.bit1)
    else (sig.sel == 1 && sig.bit0 && sig.bit1) || (sig.sel == 1 && !sig.bit0 && !sig.bit1)
  }

  /** Channel selection without a scheduling request. */
  predicate Multiplexed(sig: Signal) {
    sig.Pucch? && sig.sel < 2 && !sig.sr
  }

  /** Feedback as the UE meant it. */
  function MeantUpTo(s: Ue, c: Config, d: Duplex, sf: nat, sig: Signal, n: nat): (r: Ue)
    requires Valid(s, c) && n <= AckCount(d, sf) && Multiplexed(sig)
    requires forall m :: 0 <= m < AckCount(d, sf) ==> AckSource(d, sf, m) < 10
    ensures Valid(r, c) && r.sent == s.sent
  {
    if n == 0 then s
    else Credit(MeantUpTo(s, c, d, sf, sig, n - 1), c, AckSource(d, sf, n - 1), DecodedBit(sig, AckCount(d, sf), n - 1))
  }

  /** Among the first n subframes of the set no block is left whose acknowledgement the UE
      sent. */
  predicate NothingAcked(s: Ue, c: Config, d: Duplex, sf: nat, sig: Signal, n: nat)
    requires Valid(s, c) && n <= AckCount(d, sf) && Multiplexed(sig)
    requires forall k :: 0 <= k < AckCount(d, sf) ==> AckSource(d, sf, k) < 10
  {
    n > 0 ==>
      && NothingAcked(s, c, d, sf, sig, n - 1)
      && !(Pending(FeedbackUpTo(s, c, d, sf, sig, n - 1), c, AckSource(d, sf, n - 1))
           && DecodedBit(sig, AckCount(d, sf), n - 1))
  }

  /** Some block was acknowledged on the way from s to s'. */
  predicate MoreAcks(s: Ue, s': Ue, c: Config) {
    Valid(s, c) && Valid(s', c) &&
    exists i, r :: 0 <= i < PROCESSES && 0 <= r < c.limit && s.procs[i].acks[r] < s'.procs[i].acks[r]
  }

  lemma StillMore(s: Ue, s': Ue, c: Config, sf: nat, ack: bool)
    requires MoreAcks(s, s', c) && sf < 10
    ensures MoreAcks(s, Credit(s', c, sf, ack), c)
  {
    var i, r :| 0 <= i < PROCESSES && 0 <= r < c.limit && s.procs[i].acks[r] < s'.procs[i].acks[r];
    var s2 := Credit(s', c, sf, ack);
    assert s.procs[i].acks[r] < s2.procs[i].acks[r];
  }

  lemma AckMore(s: Ue, s': Ue, c: Config, sf: nat)
    requires Valid(s, c) && Valid(s', c) && SameAcks(s, s') && sf < 10 && Pending(s', c, sf)
    ensures MoreAcks(s, Credit(s', c, sf, true), c)
  {
    var pid := s'.harqIds[sf];
    var r, s2 := s'.procs[pid].round, Credit(s', c, sf, true);
    assert s.procs[pid].acks[r] < s2.procs[pid].acks[r];
  }

  /** One more subframe of the set: t is the state so far as credited, t' as meant. */
  lemma MeantStep(s: Ue, t: Ue, t': Ue, c: Config, sf: nat, bit: bool, same: bool)
    requires Valid(s, c) && Valid(t, c) && sf < 10 && SameAcks(s, t)
    requires if same then t' == t else MoreAcks(s, t', c)
    ensures Valid(t', c)
    ensures if same && !(Pending(t, c, sf) && bit) then Credit(t', c, sf, bit) == Credit(t, c, sf, false)
      else MoreAcks(s, Credit(t', c, sf, bit), c)
  {
    if !same {
      StillMore(s, t', c, sf, bit);
    } else if Pending(t, c, sf) && bit {
      AckMore(s, t, c, sf);
    }
  }

  lemma {:induction false} MeantSame(s: Ue, c: Config, d: Duplex, sf: nat, sig: Signal, n: nat)
    requires Valid(s, c) && sf < 10 && n <= AckCount(d, sf) && Multiplexed(sig)
    requires forall m :: 0 <= m < AckCount(d, sf) ==> AckSource(d, sf, m) < 10
    ensures if NothingAcked(s, c, d, sf, sig, n)
      then MeantUpTo(s, c, d, sf, sig, n) == FeedbackUpTo(s, c, d, sf, sig, n)
      else MoreAcks(s, MeantUpTo(s, c, d, sf, sig, n), c)
  {
    if n > 0 {
      MeantSame(s, c, d, sf, sig, n - 1);
      MuteFeedback(s, c, d, sf, sig, n - 1);
      MeantStep(s, FeedbackUpTo(s, c, d, sf, sig, n - 1), MeantUpTo(s, c, d, sf, sig, n - 1), c,
        AckSource(d, sf, n - 1), DecodedBit(sig, AckCount(d, sf), n - 1), NothingAcked(s, c, d, sf, sig, n - 1));
    }
  }

  /** It is credited as the UE meant it exactly if the UE acknowledged no block. */
  lemma MultiplexedCredit(s: Ue, c: Config, d: Duplex, sf: nat, sig: Signal)
    requires Valid(s, c) && sf < 10 && Multiplexed(sig)
    ensures forall m :: 0 <= m < AckCount(d, sf) ==> AckSource(d, sf, m) < 10
    ensures Feedback(s, c, d, sf, sig) == MeantUpTo(s, c, d, sf, sig, AckCount(d, sf)) <==>
      NothingAcked(s, c, d, sf, sig, AckCount(d, sf))
  {
    SourcesInTable(d, sf);
    MeantSame(s, c, d, sf, sig, AckCount(d, sf));
    MuteFeedback(s, c, d, sf, sig, AckCount(d, sf));
  }

  predicate SameAcks(s: Ue, s': Ue) {
    |s'.procs| == |s.procs| && forall i :: 0 <= i < |s.procs| ==> s'.procs[i].acks == s.procs[i].acks
  }

  lemma {:induction false} MuteFeedback(s: Ue, c: Config, d: Duplex, sf: nat, sig: Signal, n: nat)
    requires Valid(s, c) && sf < 10 && n <= AckCount(d, sf) && Multiplexed(sig)
    requires forall m :: 0 <= m < AckCount(d, sf) ==> AckSource(d, sf, m) < 10
    ensures SameAcks(s, FeedbackUpTo(s, c, d, sf, sig, n))
  {
    if n > 0 {
      MuteFeedback(s, c, d, sf, sig, n - 1);
    }
  }

  lemma {:induction false} MuteSignals(s: Ue, c: Config, d: Duplex, sf: nat, signals: seq<Signal>)
    requires Valid(s, c) && sf < 10 && forall x :: x in signals ==> Multiplexed(x)
    ensures SameAcks(s, FeedbackAll(s, c, d, sf, signals))
    decreases |signals|
  {
    if signals != [] {
      assert signals[0] in signals;
      SourcesInTable(d, sf);
      MuteFeedback(s, c, d, sf, signals[0], AckCount(d, sf));
      MuteSignals(Feedback(s, c, d, sf, signals[0]), c, d, sf, signals[1..]);
    }
  }

  /** A UE whose feedback is all multiplexed without scheduling requests never has a
      block acknowledged, whatever it answers. */
  lemma {:induction false} MultiplexedNeverDelivers(s: Ue, c: Config, d: Duplex, u: nat, inputs: seq<Input>)
    requires Valid(s, c) && forall i :: i in inputs ==> GrantOk(i.grant)
    requires forall i, x :: i in inputs && x in i.signals ==> Multiplexed(x)
    ensures SameAcks(s, After(s, c, d, u, inputs))
    decreases |inputs|
  {
    if inputs != [] {
      assert inputs[0] in inputs;
      MuteStep(s, c, d, u, inputs[0]);
      MultiplexedNeverDelivers(Next(s, c, d, u, inputs[0]), c, d, u + 1, inputs[1..]);
    }
  }

  lemma MuteStep(s: Ue, c: Config, d: Duplex, u: nat, i: Input)
    requires Valid(s, c) && GrantOk(i.grant) && forall x :: x in i.signals ==> Multiplexed(x)
    ensures SameAcks(s, Next(s, c, d, u, i))
  {
    var sf := Subframe(u + LEAD);
    var s1 := if Select(d, sf) == Downlink then Transmit(s, c, sf, i.grant) else s;
    assert SameAcks(s, s1);
    var s0 := if i.sr then FirstSr(s1, c) else s1;
    MuteSignals(s0, c, d, Subframe(u), i.signals);
  }
}
