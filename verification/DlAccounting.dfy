/** In FDD every transmission is answered exactly once before its table entry or its
    process is used again, across the frame wrap: trials, acknowledgements, failures
    and blocks in flight add up, per process and round, in exactly the runs whose steps
    are all regular.
 */
module DlAccounting {
  import opened Arith
  import opened FrameTiming
  import opened DlHarq

  /** The table says subframe t carried a block; t may be before the start. */
  predicate SentAt(s: Ue, t: int)
    requires |s.sent| == 10
  {
    s.sent[t % 10]
  }

  /** Before step n the subframes n - 4 .. n + 1 are transmitted and not yet answered. */
  predicate Waiting(s: Ue, n: nat, pid: nat)
    requires |s.sent| == 10
  {
    exists t :: n as int - 4 <= t <= n + 1 && t % 8 == pid && SentAt(s, t)
  }

  /** Per round: every trial was acknowledged, failed, or is in flight; a process that
      is active and not in flight waits for a retransmission. */
  predicate Accounted(p: Process, limit: nat, waiting: bool) {
    && Shaped(p, limit)
    && (forall r :: 0 <= r < limit ==>
          p.trials[r] == p.acks[r] + p.naks[r] + (if waiting && p.round == r then 1 else 0))
    && (waiting ==> p.active)
    && (p.active && !waiting ==> p.round > 0)
    && (!p.active ==> p.round == 0)
  }

  /** Entries awaiting an answer name the process of their subframe. */
  predicate EntriesRight(s: Ue, n: nat)
    requires |s.sent| == 10 && |s.harqIds| == 10
  {
    forall t :: n as int - 4 <= t <= n + 1 && SentAt(s, t) ==> s.harqIds[t % 10] == t % 8
  }

  predicate Settled(s: Ue, c: Config, n: nat) {
    && Valid(s, c) && EntriesRight(s, n)
    && forall pid :: 0 <= pid < PROCESSES ==> Accounted(s.procs[pid], c.limit, Waiting(s, n, pid))
  }

  /** The acknowledgement carried by FDD feedback: the PUSCH bit or the PUCCH bit. */
  predicate Acks(sig: Signal) {
    match sig
    case Pusch(b0, _, _) => b0
    case Pucch(b0, _, sel, _) => sel == 2 && b0
  }

  /** The signals answer the block on process p once: there is one, and what comes after it
      finds the process closed, by an ACK or by the failure of the last round. */
  predicate AnsweredOnce(p: Process, limit: nat, signals: seq<Signal>) {
    signals != [] && (|signals| > 1 ==> Acks(signals[0]) || p.round + 1 == limit)
  }

  /** The scheduler uses the process of get_ue_active_harq_pid, the first scheduling request
      does not find a block of process 0 in flight, and an awaited block is answered once.
      Nothing is asked of feedback when nothing is awaited. */
  predicate Regular(s: Ue, c: Config, n: nat, i: Input)
    requires Valid(s, c)
  {
    && (i.grant.Block? ==> i.grant.pid == (n + LEAD) % 8)
    && (i.sr && s.firstSr ==> !Waiting(s, n, 0) && !(i.grant.Block? && (n + LEAD) % 8 == 0))
    && (SentAt(s, n as int - 4) ==> AnsweredOnce(s.procs[(n as int - 4) % 8], c.limit, i.signals))
  }

  lemma TransmittedAccounted(p: Process, limit: nat)
    requires Accounted(p, limit, false)
    ensures Accounted(Transmitted(p), limit, true)
  {
  }

  lemma ResolvedAccounted(p: Process, ack: bool, limit: nat)
    requires Accounted(p, limit, true)
    ensures Accounted(Resolved(p, ack, limit), limit, false)
  {
  }

  /** In the middle of step n, after transmitting subframe n + 2: which process is waited for. */
  predicate AwaitedNow(s: Ue, n: nat, pid: nat)
    requires |s.sent| == 10
  {
    Waiting(s, n, pid) || (SentAt(s, n + 2) && pid == (n + 2) % 8)
  }

  predicate Midway(s: Ue, c: Config, n: nat) {
    && Valid(s, c)
    && (forall t :: n as int - 4 <= t <= n + 2 && SentAt(s, t) ==> s.harqIds[t % 10] == t % 8)
    && forall pid :: 0 <= pid < PROCESSES ==> Accounted(s.procs[pid], c.limit, AwaitedNow(s, n, pid))
  }

  lemma Apart(t: int, u: int, m: int)
    requires 0 < u - t < m
    ensures t % m != u % m
  {
    if t % m == u % m {
      SmallMultiple(m, u / m - t / m);
    }
  }

  /** Transmitting subframe n + 2 leaves the entries of n - 4 .. n + 1 as they are. */
  lemma EntriesApart(s: Ue, c: Config, n: nat, g: Grant)
    requires Valid(s, c) && GrantOk(g)
    ensures var s' := Transmit(s, c, Subframe(n + LEAD), g);
      && (forall t :: n as int - 4 <= t <= n + 1 ==> SentAt(s', t) == SentAt(s, t) && s'.harqIds[t % 10] == s.harqIds[t % 10])
      && SentAt(s', n + 2) == g.Block? && (g.Block? ==> s'.harqIds[(n + 2) % 10] == g.pid)
  {
    forall t | n as int - 4 <= t <= n + 1 ensures t % 10 != Subframe(n + LEAD) {
      Apart(t, n + 2, 10);
    }
  }

  lemma WaitingSame(s: Ue, s': Ue, n: nat, pid: nat)
    requires |s.sent| == 10 && |s'.sent| == 10
    requires forall t :: n as int - 4 <= t <= n + 1 ==> SentAt(s', t) == SentAt(s, t)
    ensures Waiting(s', n, pid) == Waiting(s, n, pid)
  {
    if Waiting(s, n, pid) {
      var t :| n as int - 4 <= t <= n + 1 && t % 8 == pid && SentAt(s, t);
      assert SentAt(s', t);
    }
    if Waiting(s', n, pid) {
      var t :| n as int - 4 <= t <= n + 1 && t % 8 == pid && SentAt(s', t);
      assert SentAt(s, t);
    }
  }

  lemma NoneWaits(s: Ue, n: nat)
    requires |s.sent| == 10
    ensures !Waiting(s, n, (n + 2) % 8)
  {
    forall t | n as int - 4 <= t <= n + 1 ensures t % 8 != (n + 2) % 8 {
      Apart(t, n + 2, 8);
    }
  }

  /** Transmitting subframe n + 2 opens its process, which nothing was waiting for. */
  lemma TransmitMidway(s: Ue, c: Config, n: nat, g: Grant)
    requires Settled(s, c, n) && GrantOk(g) && (g.Block? ==> g.pid == (n + LEAD) % 8)
    ensures var s' := Transmit(s, c, Subframe(n + LEAD), g);
      && Midway(s', c, n)
      && AwaitedNow(s', n, 0) == (Waiting(s, n, 0) || (g.Block? && (n + LEAD) % 8 == 0))
  {
    var s' := Transmit(s, c, Subframe(n + LEAD), g);
    EntriesApart(s, c, n, g);
    NoneWaits(s, n);
    if g.Block? {
      TransmittedAccounted(s.procs[g.pid], c.limit);
    }
    forall pid | 0 <= pid < PROCESSES
      ensures Accounted(s'.procs[pid], c.limit, AwaitedNow(s', n, pid))
      ensures AwaitedNow(s', n, pid) == (Waiting(s, n, pid) || (g.Block? && pid == (n + 2) % 8))
    {
      WaitingSame(s, s', n, pid);
    }
  }

  // ----- Feedback as a sequence of credits

  /** Feedback of subframe n credits the entry of subframe n - 4 and no other. */
  lemma AnswerCredits(s: Ue, c: Config, n: nat, sig: Signal)
    requires Valid(s, c)
    ensures Feedback(s, c, FDD, Subframe(n), sig) == Credit(s, c, (n as int - 4) % 10, Acks(sig))
  {
    var sf := (n as int - 4) % 10;
    SourcesInTable(FDD, Subframe(n));
    assert AckSource(FDD, Subframe(n), 0) == sf by {
      Shifted(n);
    }
    var ack := AckBit(FDD, sig, AllAcked(s, FDD, Subframe(n), sig), Allocated(s, FDD, Subframe(n), 0));
    assert FeedbackUpTo(s, c, FDD, Subframe(n), sig, 0) == s;
    assert Feedback(s, c, FDD, Subframe(n), sig) == Credit(s, c, sf, ack);
    if s.sent[sf] {
      assert Allocated(s, FDD, Subframe(n), 1) == 1;
    }
  }

  lemma Shifted(n: nat)
    ensures (n as int - 4) % 10 == if Subframe(n) < 4 then Subframe(n) + 6 else Subframe(n) - 4
  {
  }

  /** Which processes are waiting before step n + 1. */
  lemma WaitingShifts(s: Ue, n: nat, pid: nat)
    requires |s.sent| == 10 && pid < 8
    ensures Waiting(s, n + 1, pid) <==>
      (Waiting(s, n, pid) && !(SentAt(s, n as int - 4) && pid == (n as int - 4) % 8))
      || (SentAt(s, n + 2) && pid == (n + 2) % 8)
  {
    if Waiting(s, n, pid) {
      var t :| n as int - 4 <= t <= n + 1 && t % 8 == pid && SentAt(s, t);
      if t > n as int - 4 {
        Apart(n as int - 4, t, 8);
      }
    }
    if Waiting(s, n + 1, pid) {
      var t :| n as int - 3 <= t <= n + 2 && t % 8 == pid && SentAt(s, t);
      Apart(n as int - 4, t, 8);
    }
    assert (n + 1) as int - 4 <= n + 2 <= (n + 1) + 1;
  }

  /** Once the entry is closed or was never sent, further signals do nothing. */
  lemma {:induction false} ClosedStays(s: Ue, c: Config, n: nat, signals: seq<Signal>)
    requires Valid(s, c) && !Pending(s, c, (n as int - 4) % 10)
    ensures FeedbackAll(s, c, FDD, Subframe(n), signals) == s
    decreases |signals|
  {
    if signals != [] {
      AnswerCredits(s, c, n, signals[0]);
      ClosedStays(s, c, n, signals[1..]);
    }
  }

  /** Other entries and other processes are left alone. */
  lemma {:induction false} OthersStay(s: Ue, c: Config, n: nat, signals: seq<Signal>, pid: nat)
    requires Valid(s, c) && pid < PROCESSES
    requires s.procs[pid].active ==> s.harqIds[(n as int - 4) % 10] != pid
    ensures var s' := FeedbackAll(s, c, FDD, Subframe(n), signals);
      && s'.sent == s.sent && s'.procs[pid] == s.procs[pid]
      && forall k :: 0 <= k < 10 && k != (n as int - 4) % 10 ==> s'.harqIds[k] == s.harqIds[k]
    decreases |signals|
  {
    if signals != [] {
      AnswerCredits(s, c, n, signals[0]);
      OthersStay(Feedback(s, c, FDD, Subframe(n), signals[0]), c, n, signals[1..], pid);
    }
  }

  /** More answers than trials in some round. */
  predicate Overpaid(p: Process, limit: nat) {
    Shaped(p, limit) && exists r :: 0 <= r < limit && p.trials[r] < p.acks[r] + p.naks[r]
  }

  lemma ResolvedOverpaid(p: Process, ack: bool, limit: nat)
    requires Overpaid(p, limit)
    ensures Overpaid(Resolved(p, ack, limit), limit)
  {
    var r :| 0 <= r < limit && p.trials[r] < p.acks[r] + p.naks[r];
    var q := Resolved(p, ack, limit);
    assert q.trials[r] < q.acks[r] + q.naks[r];
  }

  lemma {:induction false} StaysOverpaid(s: Ue, c: Config, n: nat, signals: seq<Signal>, pid: nat)
    requires Valid(s, c) && pid < PROCESSES && Overpaid(s.procs[pid], c.limit)
    ensures Overpaid(FeedbackAll(s, c, FDD, Subframe(n), signals).procs[pid], c.limit)
    decreases |signals|
  {
    if signals != [] {
      AnswerCredits(s, c, n, signals[0]);
      if s.harqIds[(n as int - 4) % 10] == pid {
        ResolvedOverpaid(s.procs[pid], Acks(signals[0]), c.limit);
      }
      StaysOverpaid(Feedback(s, c, FDD, Subframe(n), signals[0]), c, n, signals[1..], pid);
    }
  }

  /** A second signal for a block that goes on is credited to a round not yet sent. */
  lemma SecondOverpays(p: Process, limit: nat, ack: bool)
    requires Accounted(p, limit, false) && p.active
    ensures Overpaid(Resolved(p, ack, limit), limit)
  {
    var q := Resolved(p, ack, limit);
    assert q.trials[p.round] < q.acks[p.round] + q.naks[p.round];
  }

  lemma CreditSettled(s: Ue, c: Config, n: nat, ack: bool)
    requires Midway(s, c, n)
    ensures Settled(Credit(s, c, (n as int - 4) % 10, ack), c, n + 1)
  {
    var t0 := n as int - 4;
    var sf := t0 % 10;
    var s' := Credit(s, c, sf, ack);
    assert s'.sent == s.sent;
    forall t | t0 + 1 <= t <= n + 2 && SentAt(s', t) ensures s'.harqIds[t % 10] == t % 8 {
      Apart(t0, t, 10);
      assert SentAt(s, t);
    }
    if SentAt(s, t0) {
      assert Waiting(s, n, t0 % 8);
      assert Pending(s, c, sf);
      Apart(t0, n + 2, 8);
      ResolvedAccounted(s.procs[t0 % 8], ack, c.limit);
    }
    forall pid | 0 <= pid < PROCESSES ensures Accounted(s'.procs[pid], c.limit, Waiting(s', n + 1, pid)) {
      WaitingShifts(s, n, pid);
      assert Waiting(s', n + 1, pid) == Waiting(s, n + 1, pid) by {
        assert forall t :: SentAt(s', t) == SentAt(s, t);
      }
    }
  }

  // ----- Steps

  /** The feedback of a step settles it exactly if an awaited block is answered once. */
  lemma AnswersSettle(s: Ue, c: Config, n: nat, signals: seq<Signal>)
    requires Midway(s, c, n)
    ensures Settled(FeedbackAll(s, c, FDD, Subframe(n), signals), c, n + 1) <==>
      (SentAt(s, n as int - 4) ==> AnsweredOnce(s.procs[(n as int - 4) % 8], c.limit, signals))
  {
    var t0 := n as int - 4;
    if !SentAt(s, t0) {
      ClosedStays(s, c, n, signals);
      CreditSettled(s, c, n, false);
    } else if signals == [] {
      Unanswered(s, c, n);
    } else {
      assert Waiting(s, n, t0 % 8) && Accounted(s.procs[t0 % 8], c.limit, AwaitedNow(s, n, t0 % 8));
      AnswerCredits(s, c, n, signals[0]);
      CreditSettled(s, c, n, Acks(signals[0]));
      MoreAnswers(s, c, n, signals);
    }
  }

  /** An awaited block without an answer is neither credited nor waited for any longer. */
  lemma Unanswered(s: Ue, c: Config, n: nat)
    requires Midway(s, c, n) && SentAt(s, n as int - 4)
    ensures !Settled(s, c, n + 1)
  {
    var pid := (n as int - 4) % 8;
    assert Waiting(s, n, pid);
    WaitingShifts(s, n, pid);
    Apart(n as int - 4, n + 2, 8);
    var p := s.procs[pid];
    assert Accounted(p, c.limit, AwaitedNow(s, n, pid));
    assert p.trials[p.round] == p.acks[p.round] + p.naks[p.round] + 1;
    assert !Accounted(p, c.limit, Waiting(s, n + 1, pid));
  }

  lemma MoreAnswers(s: Ue, c: Config, n: nat, signals: seq<Signal>)
    requires Valid(s, c) && signals != [] && Pending(s, c, (n as int - 4) % 10)
    requires s.harqIds[(n as int - 4) % 10] == (n as int - 4) % 8
    requires Accounted(s.procs[(n as int - 4) % 8], c.limit, true)
    requires Feedback(s, c, FDD, Subframe(n), signals[0]) == Credit(s, c, (n as int - 4) % 10, Acks(signals[0]))
    requires Settled(Feedback(s, c, FDD, Subframe(n), signals[0]), c, n + 1)
    ensures Settled(FeedbackAll(s, c, FDD, Subframe(n), signals), c, n + 1) <==>
      AnsweredOnce(s.procs[(n as int - 4) % 8], c.limit, signals)
  {
    var pid := (n as int - 4) % 8;
    var s1 := Feedback(s, c, FDD, Subframe(n), signals[0]);
    var rest := signals[1..];
    if !s1.procs[pid].active {
      ClosedStays(s1, c, n, rest);
    } else if rest != [] {
      ResolvedAccounted(s.procs[pid], Acks(signals[0]), c.limit);
      SecondOverpays(s1.procs[pid], c.limit, Acks(rest[0]));
      AnswerCredits(s1, c, n, rest[0]);
      StaysOverpaid(Feedback(s1, c, FDD, Subframe(n), rest[0]), c, n, rest[1..], pid);
    }
  }

  /** The first scheduling request, in the middle of a step: harmless unless a block of
      process 0 is in flight. */
  lemma SrMidway(s: Ue, c: Config, n: nat)
    requires Midway(s, c, n) && (s.firstSr ==> !AwaitedNow(s, n, 0))
    ensures Midway(FirstSr(s, c), c, n)
  {
    var s' := FirstSr(s, c);
    forall pid | 0 <= pid < PROCESSES ensures AwaitedNow(s', n, pid) == AwaitedNow(s, n, pid) {
      WaitingSame(s, s', n, pid);
    }
  }

  lemma SrBreaks(s: Ue, c: Config, n: nat, signals: seq<Signal>)
    requires Midway(s, c, n) && s.firstSr && AwaitedNow(s, n, 0)
    ensures !Settled(FeedbackAll(FirstSr(s, c), c, FDD, Subframe(n), signals), c, n + 1)
  {
    var s1 := FirstSr(s, c);
    var s' := FeedbackAll(s1, c, FDD, Subframe(n), signals);
    OthersStay(s1, c, n, signals, 0);
    var p := s.procs[0];
    assert Accounted(p, c.limit, AwaitedNow(s, n, 0));
    assert p.trials[p.round] == p.acks[p.round] + p.naks[p.round] + 1;
    assert !Accounted(s'.procs[0], c.limit, Waiting(s', n + 1, 0));
  }

  /** A grant on another process than that of its subframe leaves a wrong entry. */
  lemma WrongProcess(s: Ue, c: Config, n: nat, i: Input)
    requires Valid(s, c) && GrantOk(i.grant) && i.grant.Block? && i.grant.pid != (n + LEAD) % 8
    ensures !Settled(Next(s, c, FDD, n, i), c, n + 1)
  {
    var s1 := Transmit(s, c, Subframe(n + LEAD), i.grant);
    EntriesApart(s, c, n, i.grant);
    var s2 := if i.sr then FirstSr(s1, c) else s1;
    WrongEntry(s2, c, n, i.signals);
  }

  lemma WrongEntry(s: Ue, c: Config, n: nat, signals: seq<Signal>)
    requires Valid(s, c) && SentAt(s, n + 2) && s.harqIds[(n + 2) % 10] != (n + 2) % 8
    ensures !Settled(FeedbackAll(s, c, FDD, Subframe(n), signals), c, n + 1)
  {
    EntriesStay(s, c, n, signals);
    Apart(n as int - 4, n + 2, 10);
    assert SentAt(FeedbackAll(s, c, FDD, Subframe(n), signals), n + 2);
  }

  lemma {:induction false} EntriesStay(s: Ue, c: Config, n: nat, signals: seq<Signal>)
    requires Valid(s, c)
    ensures var s' := FeedbackAll(s, c, FDD, Subframe(n), signals);
      && s'.sent == s.sent
      && forall k :: 0 <= k < 10 && k != (n as int - 4) % 10 ==> s'.harqIds[k] == s.harqIds[k]
    decreases |signals|
  {
    if signals != [] {
      AnswerCredits(s, c, n, signals[0]);
      EntriesStay(Feedback(s, c, FDD, Subframe(n), signals[0]), c, n, signals[1..]);
    }
  }

  lemma StepSettled(s: Ue, c: Config, n: nat, i: Input)
    requires Settled(s, c, n) && GrantOk(i.grant)
    ensures Settled(Next(s, c, FDD, n, i), c, n + 1) <==> Regular(s, c, n, i)
  {
    if i.grant.Block? && i.grant.pid != (n + LEAD) % 8 {
      WrongProcess(s, c, n, i);
    } else {
      var s1 := Transmit(s, c, Subframe(n + LEAD), i.grant);
      TransmitMidway(s, c, n, i.grant);
      TransmitKeepsRound(s, c, n, i.grant);
      ReceiveSettles(s1, c, n, i);
    }
  }

  lemma TransmitKeepsRound(s: Ue, c: Config, n: nat, g: Grant)
    requires Valid(s, c) && GrantOk(g)
    ensures var s1, pid := Transmit(s, c, Subframe(n + LEAD), g), (n as int - 4) % 8;
      s1.procs[pid].round == s.procs[pid].round && SentAt(s1, n as int - 4) == SentAt(s, n as int - 4)
  {
    EntriesApart(s, c, n, g);
  }

  lemma ReceiveSettles(s: Ue, c: Config, n: nat, i: Input)
    requires Midway(s, c, n)
    ensures Settled(Receive(s, c, FDD, n, i), c, n + 1) <==>
      && (i.sr && s.firstSr ==> !AwaitedNow(s, n, 0))
      && (SentAt(s, n as int - 4) ==> AnsweredOnce(s.procs[(n as int - 4) % 8], c.limit, i.signals))
  {
    if i.sr && s.firstSr && AwaitedNow(s, n, 0) {
      SrBreaks(s, c, n, i.signals);
    } else {
      var s1 := if i.sr then FirstSr(s, c) else s;
      if i.sr {
        SrMidway(s, c, n);
      }
      AnswersSettle(s1, c, n, i.signals);
      if SentAt(s, n as int - 4) {
        assert Waiting(s, n, (n as int - 4) % 8);
      }
    }
  }

  // ----- Runs

  ghost predicate RegularRun(s: Ue, c: Config, n: nat, inputs: seq<Input>)
    requires Valid(s, c)
    decreases |inputs|
  {
    inputs != [] ==>
      GrantOk(inputs[0].grant) && Regular(s, c, n, inputs[0]) && RegularRun(Next(s, c, FDD, n, inputs[0]), c, n + 1, inputs[1..])
  }

  ghost predicate AlwaysSettled(s: Ue, c: Config, n: nat, inputs: seq<Input>)
    requires Valid(s, c) && forall i :: i in inputs ==> GrantOk(i.grant)
    decreases |inputs|
  {
    && Settled(s, c, n)
    && (inputs != [] ==>
          (assert inputs[0] in inputs; AlwaysSettled(Next(s, c, FDD, n, inputs[0]), c, n + 1, inputs[1..])))
  }

  /** Every FDD run: after every step each trial is answered exactly once, by the feedback
      four subframes later, and credited to the process and round it was sent in, if and only
      if every step is regular. */
  lemma {:induction false} AccountingRuns(s: Ue, c: Config, n: nat, inputs: seq<Input>)
    requires Settled(s, c, n) && forall i :: i in inputs ==> GrantOk(i.grant)
    ensures AlwaysSettled(s, c, n, inputs) <==> RegularRun(s, c, n, inputs)
    decreases |inputs|
  {
    if inputs != [] {
      assert inputs[0] in inputs;
      StepSettled(s, c, n, inputs[0]);
      if Regular(s, c, n, inputs[0]) {
        AccountingRuns(Next(s, c, FDD, n, inputs[0]), c, n + 1, inputs[1..]);
      }
    }
  }

  lemma {:induction false} SettledAtEnd(s: Ue, c: Config, n: nat, inputs: seq<Input>)
    requires Settled(s, c, n) && RegularRun(s, c, n, inputs) && forall i :: i in inputs ==> GrantOk(i.grant)
    ensures Settled(After(s, c, FDD, n, inputs), c, n + |inputs|)
    decreases |inputs|
  {
    if inputs != [] {
      assert inputs[0] in inputs;
      StepSettled(s, c, n, inputs[0]);
      SettledAtEnd(Next(s, c, FDD, n, inputs[0]), c, n + 1, inputs[1..]);
    }
  }

  const QUIET := Input(Idle, false, [])
  const NAK := Pucch(false, false, 2, false)

  function Quiet(k: nat): (r: seq<Input>)
    ensures |r| == k && forall i :: i in r ==> i == QUIET
  {
    if k == 0 then [] else [QUIET] + Quiet(k - 1)
  }

  /** A block sent in subframe 2 and answered by PUCCH and PUSCH at once, both NAK: the
      second NAK is counted for a round that was never sent. */
  lemma TwoNaks(c: Config)
    requires c.limit > 1
    ensures var inputs := [Input(Block(2), false, [])] + Quiet(5) + [Input(Idle, false, [NAK, NAK])];
      (forall i :: i in inputs ==> GrantOk(i.grant)) && !AlwaysSettled(Reset(c, false), c, 0, inputs)
  {
    var inputs := [Input(Block(2), false, [])] + Quiet(5) + [Input(Idle, false, [NAK, NAK])];
    var s := Reset(c, false);
    ResetSettled(c, false);
    AccountingRuns(s, c, 0, inputs);
    assert inputs[1..] == Quiet(5) + [Input(Idle, false, [NAK, NAK])];
    QuietUntil(Next(s, c, FDD, 0, inputs[0]), c, 1);
  }

  lemma {:induction false} QuietUntil(s: Ue, c: Config, n: nat)
    requires Valid(s, c) && c.limit > 1 && 1 <= n <= 6 && s.sent[2] && s.procs[2].round == 0
    ensures !RegularRun(s, c, n, Quiet(6 - n) + [Input(Idle, false, [NAK, NAK])])
    decreases 6 - n
  {
    var inputs := Quiet(6 - n) + [Input(Idle, false, [NAK, NAK])];
    if n < 6 {
      assert inputs[0] == QUIET && inputs[1..] == Quiet(6 - n - 1) + [Input(Idle, false, [NAK, NAK])];
      QuietUntil(Next(s, c, FDD, n, QUIET), c, n + 1);
    } else {
      assert !Regular(s, c, n, inputs[0]);
    }
  }

  lemma ResetSettled(c: Config, firstSr: bool)
    requires c.limit > 0
    ensures Settled(Reset(c, firstSr), c, 0) && Conserved(Reset(c, firstSr), c, 0)
  {
  }

  // ----- Transport blocks

  function Sum(s: seq<nat>): nat {
    if s == [] then 0 else s[0] + Sum(s[1..])
  }

  lemma {:induction false} FailedLater(p: Process, limit: nat, r: nat, lost: nat)
    requires Balanced(p, limit, lost) && r < limit && lost < limit
    ensures p.naks[r] ==
      Sum(p.acks[r + 1..]) + p.l2Errors + (if p.active && p.round > r then 1 else 0) + (if lost > r then 1 else 0)
    decreases limit - r
  {
    if r + 1 < limit {
      FailedLater(p, limit, r + 1, lost);
      assert p.acks[r + 1..][1..] == p.acks[r + 2..];
      assert p.naks[(r + 1) - 1] ==
        p.acks[r + 1] + p.naks[r + 1] + (if At(p, r + 1) then 1 else 0) + (if r + 1 == lost then 1 else 0);
    }
  }

  /** No transport block disappears or is counted twice: of the blocks ever started on a
      process, each was delivered in some round, was given up as an L2 error, was dropped by
      the first scheduling request, or is still under way. */
  lemma TransportBlocks(p: Process, limit: nat, waiting: bool, lost: nat)
    requires Balanced(p, limit, lost) && Accounted(p, limit, waiting) && lost < limit
    ensures p.trials[0] == Sum(p.acks) + p.l2Errors + (if p.active then 1 else 0) + (if lost > 0 then 1 else 0)
  {
    FailedLater(p, limit, 0, lost);
  }

  /** The same at the end of every regular FDD run from reset; only process 0 can have lost
      a block to the first scheduling request. */
  lemma TransportBlocksRuns(c: Config, firstSr: bool, inputs: seq<Input>, pid: nat)
    requires c.limit > 0 && pid < PROCESSES && forall i :: i in inputs ==> GrantOk(i.grant)
    requires RegularRun(Reset(c, firstSr), c, 0, inputs)
    ensures var s := Reset(c, firstSr);
      var p, lost := After(s, c, FDD, 0, inputs).procs[pid], Lost(s, c, FDD, 0, inputs, 0);
      p.trials[0] == Sum(p.acks) + p.l2Errors + (if p.active then 1 else 0) + (if pid == 0 && lost > 0 then 1 else 0)
  {
    var s := Reset(c, firstSr);
    ResetSettled(c, firstSr);
    SettledAtEnd(s, c, 0, inputs);
    ConservationRuns(s, c, FDD, 0, inputs, 0);
    var s' := After(s, c, FDD, 0, inputs);
    TransportBlocks(s'.procs[pid], c.limit, Waiting(s', |inputs|, pid), if pid == 0 then Lost(s, c, FDD, 0, inputs, 0) else 0);
  }
}
