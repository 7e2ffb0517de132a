/** Feedback and what it is about: the UE encodes which blocks it received, and the eNB
    credits every block of the acknowledged set with what the UE meant (section 10.1 and table
    7.3-1 of TS 36.213).
 */
module DlFeedback {
  import opened FrameTiming
  import opened DlHarq

  /** How the UE answers: bit by bit or bundled on PUSCH, bundled on PUCCH, or as the number of
      acknowledged blocks on PUCCH together with a scheduling request. */
  datatype Mode = EachOnPusch | BundledOnPusch | BundledOnPucch(sr: bool) | CountedWithSr(sel: nat)

  predicate All(acks: seq<bool>) {
    forall j :: 0 <= j < |acks| ==> acks[j]
  }

  function Count(acks: seq<bool>): (n: nat)
    ensures n <= |acks| && (n == |acks| <==> All(acks))
  {
    if acks == [] then 0
    else
      assert All(acks) <==> acks[0] && forall j :: 0 <= j < |acks| - 1 ==> acks[1..][j];
      (if acks[0] then 1 else 0) + Count(acks[1..])
  }

  /** The signal for the blocks received in the set, in order of their subframes. */
  function Sends(mode: Mode, acks: seq<bool>): Signal {
    match mode
    case EachOnPusch => Pusch(|acks| > 0 && acks[0], |acks| > 1 && acks[1], false)
    case BundledOnPusch => Pusch(All(acks), All(acks), true)
    case BundledOnPucch(sr) => Pucch(All(acks), false, 2, sr)
    case CountedWithSr(sel) =>
      var n := Count(acks);
      Pucch(n == 1 || n == 2, n == 1 || n == 3, sel, true)
  }

  /** What the answer can tell about block j: itself, or whether all were received. */
  function Meant(mode: Mode, acks: seq<bool>, j: nat): bool
    requires j < |acks|
  {
    if mode.EachOnPusch? then acks[j] else All(acks)
  }

  predicate ModeOk(d: Duplex, mode: Mode) {
    mode.CountedWithSr? ==> d.TDD? && mode.sel < 2
  }

  lemma {:induction false} AllocatedSteps(s: Ue, d: Duplex, sf: nat, m: nat, n: nat)
    requires |s.sent| == 10 && m < n && (forall k :: 0 <= k < n ==> AckSource(d, sf, k) < 10)
    requires s.sent[AckSource(d, sf, m)]
    ensures Allocated(s, d, sf, m) < Allocated(s, d, sf, n)
    decreases n
  {
    if m + 1 < n {
      AllocatedSteps(s, d, sf, m, n - 1);
    }
  }

  /** Every transmitted block of the set is credited with what the UE meant, in FDD and in TDD
      with one or two subframes per set; except that a set of one subframe answered with a
      scheduling request in channel selection is always taken for NAK. */
  lemma CreditedAsMeant(s: Ue, c: Config, d: Duplex, sf: nat, mode: Mode, acks: seq<bool>, m: nat)
    requires Valid(s, c) && sf < 10 && ModeOk(d, mode) && m < AckCount(d, sf)
    requires forall k :: 0 <= k < AckCount(d, sf) ==> AckSource(d, sf, k) < 10
    requires |acks| == Allocated(s, d, sf, AckCount(d, sf)) && s.sent[AckSource(d, sf, m)]
    ensures var sig, j := Sends(mode, acks), Allocated(s, d, sf, m);
      && j < |acks|
      && AckBit(d, sig, AllAcked(s, d, sf, sig), j) ==
         (Meant(mode, acks, j) && !(mode.CountedWithSr? && AckCount(d, sf) == 1))
  {
    AllocatedSteps(s, d, sf, m, AckCount(d, sf));
    assert AckCount(d, sf) <= 2;
    var n := Count(acks);
  }

  // ----- The effect on the processes

  predicate DistinctPids(s: Ue, c: Config, d: Duplex, sf: nat)
    requires Valid(s, c) && forall k :: 0 <= k < AckCount(d, sf) ==> AckSource(d, sf, k) < 10
  {
    AckCount(d, sf) == 2 ==>
      var a, b := AckSource(d, sf, 0), AckSource(d, sf, 1);
      a != b && (Pending(s, c, a) && Pending(s, c, b) ==> s.harqIds[a] != s.harqIds[b])
  }

  /** The bit used for the m-th subframe of the set. */
  function BitFor(s: Ue, c: Config, d: Duplex, sf: nat, sig: Signal, m: nat): bool
    requires Valid(s, c) && m < AckCount(d, sf) && forall k :: 0 <= k < AckCount(d, sf) ==> AckSource(d, sf, k) < 10
  {
    AckBit(d, sig, AllAcked(s, d, sf, sig), Allocated(s, d, sf, m))
  }

  /** Feedback resolves each pending block of the set once, with its own bit, and leaves every
      other process alone. */
  lemma FeedbackExactly(s: Ue, c: Config, d: Duplex, sf: nat, sig: Signal, pid: nat)
    requires Valid(s, c) && sf < 10 && pid < PROCESSES
    requires forall k :: 0 <= k < AckCount(d, sf) ==> AckSource(d, sf, k) < 10
    requires DistinctPids(s, c, d, sf)
    ensures var p, p' := s.procs[pid], Feedback(s, c, d, sf, sig).procs[pid];
      && (forall m :: 0 <= m < AckCount(d, sf) && Pending(s, c, AckSource(d, sf, m)) && s.harqIds[AckSource(d, sf, m)] == pid
            ==> p' == Resolved(p, BitFor(s, c, d, sf, sig, m), c.limit))
      && ((forall m :: 0 <= m < AckCount(d, sf) && Pending(s, c, AckSource(d, sf, m)) ==> s.harqIds[AckSource(d, sf, m)] != pid)
            ==> p' == p)
  {
    if AckCount(d, sf) == 1 {
      OneCredit(s, c, d, sf, sig, pid);
    } else if AckCount(d, sf) == 2 {
      TwoCredits(s, c, d, sf, sig, pid);
    }
  }

  lemma OneCredit(s: Ue, c: Config, d: Duplex, sf: nat, sig: Signal, pid: nat)
    requires Valid(s, c) && AckCount(d, sf) >= 1 && pid < PROCESSES
    requires forall k :: 0 <= k < AckCount(d, sf) ==> AckSource(d, sf, k) < 10
    ensures var a, t := AckSource(d, sf, 0), FeedbackUpTo(s, c, d, sf, sig, 1);
      && t == Credit(s, c, a, BitFor(s, c, d, sf, sig, 0))
      && t.procs[pid] == (if Pending(s, c, a) && s.harqIds[a] == pid then Resolved(s.procs[pid], BitFor(s, c, d, sf, sig, 0), c.limit)
                          else s.procs[pid])
  {
    assert FeedbackUpTo(s, c, d, sf, sig, 0) == s;
  }

  lemma TwoCredits(s: Ue, c: Config, d: Duplex, sf: nat, sig: Signal, pid: nat)
    requires Valid(s, c) && AckCount(d, sf) == 2 && pid < PROCESSES
    requires forall k :: 0 <= k < AckCount(d, sf) ==> AckSource(d, sf, k) < 10
    requires DistinctPids(s, c, d, sf)
    ensures var a, b, p' := AckSource(d, sf, 0), AckSource(d, sf, 1), FeedbackUpTo(s, c, d, sf, sig, 2).procs[pid];
      p' == (if Pending(s, c, a) && s.harqIds[a] == pid then Resolved(s.procs[pid], BitFor(s, c, d, sf, sig, 0), c.limit)
             else if Pending(s, c, b) && s.harqIds[b] == pid then Resolved(s.procs[pid], BitFor(s, c, d, sf, sig, 1), c.limit)
             else s.procs[pid])
  {
    var a, b := AckSource(d, sf, 0), AckSource(d, sf, 1);
    OneCredit(s, c, d, sf, sig, pid);
    var t := FeedbackUpTo(s, c, d, sf, sig, 1);
    StillPending(s, c, a, BitFor(s, c, d, sf, sig, 0), b);
    assert FeedbackUpTo(s, c, d, sf, sig, 2) == Credit(t, c, b, BitFor(s, c, d, sf, sig, 1));
  }

  /** Crediting one entry leaves another, on a different process, as it was. */
  lemma StillPending(s: Ue, c: Config, a: nat, ack: bool, b: nat)
    requires Valid(s, c) && a < 10 && b < 10 && a != b
    requires Pending(s, c, a) && Pending(s, c, b) ==> s.harqIds[a] != s.harqIds[b]
    ensures var t := Credit(s, c, a, ack);
      && (Pending(t, c, b) <==> Pending(s, c, b)) && t.harqIds[b] == s.harqIds[b]
      && (Pending(s, c, b) ==> t.procs[s.harqIds[b]] == s.procs[s.harqIds[b]])
  {
  }
}
