/** Random access over whole FDD runs: after a response in subframe T, Msg3 is expected
    at T + 6, T + 14, T + 22, ... on one HARQ process, across the frame wrap, and the
    attempt ends after at most maxHARQ_Msg3Tx receptions.
 */
module RandomAccess {
  import opened Arith
  import opened FrameTiming
  import opened UlSlot

  /** Absolute time of Msg3 attempt j after a response in subframe T. */
  function Msg3At(T: nat, j: nat): nat {
    T + MSG3_FIRST + MSG3_AGAIN * j
  }

  /** Before step n: the UE of the response in T waits for attempt j of Msg3. */
  predicate Awaits(s: Slot, c: Config, T: nat, n: nat, j: nat) {
    && Kept(s, c) && s.rnti > 0 && s.mode == RaResponse && j < c.msg3Limit
    && s.msg3Active && s.msg3Frame == Frame(Msg3At(T, j)) && s.msg3Subframe == Subframe(Msg3At(T, j))
    && s.procs[(T + 6) % 8].round == j
    && T <= n + 1 && n <= Msg3At(T, j) && (j > 0 ==> n > Msg3At(T, j - 1))
  }

  ghost predicate InAttempt(s: Slot, c: Config, T: nat, n: nat) {
    exists j :: Awaits(s, c, T, n, j)
  }

  lemma SameProcess(T: nat, j: nat)
    ensures Msg3At(T, j) % 8 == (T + 6) % 8
    ensures UplinkPid(Frame(Msg3At(T, j)), Subframe(Msg3At(T, j))) == (T + 6) % 8
  {
    var x := T + 6;
    DivModUnique(Msg3At(T, j), 8, x / 8 + j, x % 8);
    PidsFollowTime(Msg3At(T, j));
  }

  /** Between two attempts no other subframe uses the Msg3 process. */
  lemma OnlyAttempts(T: nat, j: nat, n: nat)
    requires T <= n + 1 && n <= Msg3At(T, j) && (j > 0 ==> n > Msg3At(T, j - 1))
    ensures n % 8 == (T + 6) % 8 <==> n == Msg3At(T, j)
  {
    SameProcess(T, j);
    if n % 8 == (T + 6) % 8 {
      SameResidue(n, Msg3At(T, j), 8);
    }
  }

  /** Msg3 is due in step n exactly if n is the expected time: the wrapped counters the
      code compares identify it. */
  lemma DueExactly(s: Slot, c: Config, T: nat, n: nat, j: nat)
    requires Awaits(s, c, T, n, j)
    ensures Msg3Due(s, n) <==> n == Msg3At(T, j)
  {
    if Msg3Due(s, n) {
      SameTime(n, Msg3At(T, j));
    }
  }

  /** A response into a free slot: Msg3 is armed and its process is untouched. */
  lemma ResponseArms(s: Slot, T: nat, rnti: nat, noAlloc: bool)
    requires Valid(s) && s.rnti == 0 && rnti > 0 && Quiet(s.procs[(T + 6) % 8])
    ensures var r := SendPhich(Respond(s, T, rnti), T, noAlloc);
      && r.rnti > 0 && r.mode == RaResponse && r.msg3Active
      && r.msg3Frame == Frame(T + 6) && r.msg3Subframe == Subframe(T + 6) && Quiet(r.procs[(T + 6) % 8])
  {
    Msg3Time(T, MSG3_FIRST);
    Msg3Process(T);
    var a := Respond(s, T, rnti);
    assert a.procs[(T + 6) % 8] == s.procs[(T + 6) % 8];
    OtherPhich(a, T, noAlloc);
  }

  /** PHICH in subframe T concerns the process of T + 4, never that of T + 6. */
  lemma OtherPhich(s: Slot, T: nat, noAlloc: bool)
    requires Valid(s)
    ensures SendPhich(s, T, noAlloc).procs[(T + 6) % 8] == s.procs[(T + 6) % 8]
    ensures SendPhich(s, T, noAlloc) == s.(procs := SendPhich(s, T, noAlloc).procs)
  {
    if (T + 4) % 8 == (T + 6) % 8 {
      SameResidue(T + 4, T + 6, 8);
    }
  }

  /** The response to a random access starts the attempt. */
  lemma ResponseStarts(s: Slot, c: Config, u: nat, i: Input)
    requires ConfigOk(c) && Kept(s, c) && i.tx.rar > 0 && (s.rnti == 0 || i.tx.remove)
    ensures Awaits(Next(s, c, u, i), c, u + LEAD, u + 1, 0)
  {
    var T := u + LEAD;
    var s1 := CheckFailure(s, c);
    var s2 := if i.tx.remove then Clean(s1) else s1;
    assert Quiet(s2.procs[(T + 6) % 8]);
    ResponseArms(s2, T, i.tx.rar, i.tx.noAlloc);
    var s3 := Transmit(s, c, T, i.tx);
    assert s3 == SendPhich(Respond(s2, T, i.tx.rar), T, i.tx.noAlloc);
    TransmitKept(s, c, T, i.tx);
    NothingReceivedYet(s3, c, u, i.rx);
  }

  /** The step of the response receives subframe T - 2, on the idle Msg3 process. */
  lemma NothingReceivedYet(s: Slot, c: Config, u: nat, i: RxInput)
    requires Kept(s, c) && s.mode == RaResponse && s.rnti > 0
    requires s.msg3Frame == Frame(u + 8) && s.msg3Subframe == Subframe(u + 8)
    requires !s.procs[(u + 8) % 8].scheduled
    ensures Receive(s, c, u, i) == s.(msg3Flag := false)
  {
    PidsFollowTime(u);
    if Msg3Due(s, u) {
      SameTime(u, u + 8);
    }
  }

  /** The transmission half of a step leaves a waiting UE waiting. */
  lemma TransmitAwaits(s: Slot, c: Config, T: nat, n: nat, j: nat, i: TxInput)
    requires ConfigOk(c) && Awaits(s, c, T, n, j) && !i.remove
    ensures Awaits(Transmit(s, c, n + LEAD, i), c, T, n, j)
  {
    TransmitKept(s, c, n + LEAD, i);
  }

  /** A subframe that is not the expected one does not disturb the attempt. */
  lemma OtherSubframe(s: Slot, c: Config, T: nat, n: nat, j: nat, i: RxInput)
    requires ConfigOk(c) && Awaits(s, c, T, n, j) && n < Msg3At(T, j) && s.consecutive < c.errorLimit
    ensures Awaits(Receive(s, c, n, i), c, T, n + 1, j)
  {
    DueExactly(s, c, T, n, j);
    OnlyAttempts(T, j, n);
    PidsFollowTime(n);
    ReceiveKept(s, c, n, i);
  }

  /** The expected subframe: success ends random access in mode PUSCH, failure leads to
      the next attempt eight subframes later on the same process, or frees the slot when
      the attempts are used up. */
  lemma ExpectedSubframe(s: Slot, c: Config, T: nat, j: nat, i: RxInput)
    requires ConfigOk(c) && Awaits(s, c, T, Msg3At(T, j), j) && s.consecutive < c.errorLimit
    ensures var r := Receive(s, c, Msg3At(T, j), i);
      if i.decoded then r.mode == Pusch && (i.keep <==> r.rnti > 0)
      else if j + 1 == c.msg3Limit then r.rnti == 0 && r.mode == NotSynched
      else Awaits(r, c, T, Msg3At(T, j) + 1, j + 1)
  {
    var n := Msg3At(T, j);
    DueExactly(s, c, T, n, j);
    SameProcess(T, j);
    ReceiveKept(s, c, n, i);
    Msg3Time(n, MSG3_AGAIN);
    assert n + MSG3_AGAIN == Msg3At(T, j + 1);
  }

  /** The UE stays in this attempt throughout: MAC does not remove it and it is still
      waiting for Msg3 after every step. */
  ghost predicate Stays(s: Slot, c: Config, n: nat, inputs: seq<Input>)
    requires Valid(s)
    decreases |inputs|
  {
    inputs != [] ==>
      && !inputs[0].tx.remove && Next(s, c, n, inputs[0]).mode == RaResponse
      && Stays(Next(s, c, n, inputs[0]), c, n + 1, inputs[1..])
  }

  lemma StepAttempt(s: Slot, c: Config, T: nat, n: nat, i: Input)
    requires ConfigOk(c) && InAttempt(s, c, T, n) && !i.tx.remove
    ensures Next(s, c, n, i).mode == RaResponse ==> InAttempt(Next(s, c, n, i), c, T, n + 1)
  {
    var j :| Awaits(s, c, T, n, j);
    TransmitAwaits(s, c, T, n, j, i.tx);
    TransmitKept(s, c, n + LEAD, i.tx);
    ReceiveAttempt(Transmit(s, c, n + LEAD, i.tx), c, T, n, j, i.rx);
  }

  lemma ReceiveAttempt(s: Slot, c: Config, T: nat, n: nat, j: nat, i: RxInput)
    requires ConfigOk(c) && Awaits(s, c, T, n, j) && s.consecutive < c.errorLimit
    ensures Receive(s, c, n, i).mode == RaResponse ==> InAttempt(Receive(s, c, n, i), c, T, n + 1)
  {
    if n < Msg3At(T, j) {
      OtherSubframe(s, c, T, n, j, i);
    } else {
      ExpectedSubframe(s, c, T, j, i);
    }
  }

  lemma AttemptBound(s: Slot, c: Config, T: nat, n: nat)
    requires ConfigOk(c) && InAttempt(s, c, T, n)
    ensures n <= Msg3At(T, c.msg3Limit - 1)
  {
    var j :| Awaits(s, c, T, n, j);
  }

  /** A run of the attempt splits into its first step and the rest. */
  lemma StaysOn(s: Slot, c: Config, T: nat, n: nat, inputs: seq<Input>) returns (s': Slot)
    requires ConfigOk(c) && InAttempt(s, c, T, n) && inputs != [] && Stays(s, c, n, inputs)
    ensures InAttempt(s', c, T, n + 1) && Stays(s', c, n + 1, inputs[1..])
    ensures After(s, c, n, inputs) == After(s', c, n + 1, inputs[1..])
  {
    s' := Next(s, c, n, inputs[0]);
    StepAttempt(s, c, T, n, inputs[0]);
  }

  lemma {:induction false} StaysInAttempt(s: Slot, c: Config, T: nat, n: nat, inputs: seq<Input>, r: Slot, m: nat)
    requires ConfigOk(c) && InAttempt(s, c, T, n) && Stays(s, c, n, inputs)
    requires r == After(s, c, n, inputs) && m == n + |inputs|
    ensures InAttempt(r, c, T, m)
    decreases |inputs|
  {
    if inputs != [] {
      var s' := StaysOn(s, c, T, n, inputs);
      StaysInAttempt(s', c, T, n + 1, inputs[1..], r, m);
    }
  }

  /** Every run, whatever is granted, decoded or signalled on PHICH in between: as long
      as the UE stays in the attempt it waits for Msg3 at T + 6 + 8 j with round j on
      process (T + 6) % 8, and it cannot stay beyond the last allowed reception. */
  lemma Msg3Runs(s: Slot, c: Config, T: nat, n: nat, inputs: seq<Input>)
    requires ConfigOk(c) && InAttempt(s, c, T, n) && Stays(s, c, n, inputs)
    ensures InAttempt(After(s, c, n, inputs), c, T, n + |inputs|)
    ensures n + |inputs| <= Msg3At(T, c.msg3Limit - 1)
  {
    StaysInAttempt(s, c, T, n, inputs, After(s, c, n, inputs), n + |inputs|);
    AttemptBound(After(s, c, n, inputs), c, T, n + |inputs|);
  }

  /** A response in subframe T is followed by at most maxHARQ_Msg3Tx expected receptions:
      a run that lasts longer is one in which the UE has left the attempt. */
  lemma AttemptEnds(s: Slot, c: Config, u: nat, i: Input, inputs: seq<Input>)
    requires ConfigOk(c) && Kept(s, c) && i.tx.rar > 0 && (s.rnti == 0 || i.tx.remove)
    requires u + 1 + |inputs| > Msg3At(u + LEAD, c.msg3Limit - 1)
    ensures !Stays(Next(s, c, u, i), c, u + 1, inputs)
  {
    ResponseStarts(s, c, u, i);
    if Stays(Next(s, c, u, i), c, u + 1, inputs) {
      Msg3Runs(Next(s, c, u, i), c, u + LEAD, u + 1, inputs);
    }
  }
}
