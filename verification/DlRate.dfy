/** Downlink rate adaptation over whole runs.  A window is a number of transmitted blocks;
    first-round NAKs in it decide whether the MCS offset goes up or down.
 */
module DlRate {
  import opened FrameTiming
  import opened DlHarq

  // ----- The law of one adaptation

  /** More first-round NAKs never give a higher offset. */
  lemma Antitone(offset: int, few: nat, many: nat, c: Config, ends: bool)
    requires -1 <= offset <= 1 && few <= many
    ensures Adapted(offset, many, c, ends) <= Adapted(offset, few, c, ends)
  {
  }

  function Raised(offset: int): int {
    if offset < 1 then offset + 1 else 1
  }

  /** At the end of a window whose NAKs are within the threshold: fewer than two raise the
      offset by one, two leave it, more send it to the bottom.  Within a window it changes only
      if the threshold is passed, and then it goes down. */
  lemma AdaptedExactly(offset: int, naks: nat, c: Config)
    requires -1 <= offset <= 1
    ensures naks <= c.threshold ==> Adapted(offset, naks, c, false) == offset
    ensures naks > c.threshold ==> Adapted(offset, naks, c, false) == if offset == 1 then 0 else -1
    ensures naks < 2 && naks <= c.threshold ==> Adapted(offset, naks, c, true) == Raised(offset)
    ensures naks == 2 && naks <= c.threshold ==> Adapted(offset, naks, c, true) == offset
    ensures naks > 2 ==> Adapted(offset, naks, c, true) == -1
  {
  }

  // ----- What adaptation sees of a run

  /** A block was sent, or a pending block was answered; first: by a NAK in round 0. */
  datatype Tick = Sent | Answer(first: bool)

  /** NAKs and blocks since the last window ended, and the offset. */
  datatype Rate = Rate(naks: nat, blocks: nat, offset: int)

  function RateOf(s: Ue): Rate {
    Rate(s.firstNaks, s.slide, s.mcsOffset)
  }

  function RateStep(r: Rate, c: Config, x: Tick): Rate {
    match x
    case Sent => r.(blocks := r.blocks + 1)
    case Answer(first) =>
      var naks := r.naks + (if first then 1 else 0);
      if r.blocks == c.window then Rate(0, 0, Adapted(r.offset, naks, c, true))
      else r.(naks := naks, offset := Adapted(r.offset, naks, c, false))
  }

  function RateAfter(r: Rate, c: Config, xs: seq<Tick>): Rate
    decreases |xs|
  {
    if xs == [] then r else RateAfter(RateStep(r, c, xs[0]), c, xs[1..])
  }

  lemma {:induction false} RateConcat(r: Rate, c: Config, xs: seq<Tick>, ys: seq<Tick>)
    ensures RateAfter(r, c, xs + ys) == RateAfter(RateAfter(r, c, xs), c, ys)
    decreases |xs|
  {
    if xs == [] {
      assert xs + ys == ys;
    } else {
      assert (xs + ys)[1..] == xs[1..] + ys;
      RateConcat(RateStep(r, c, xs[0]), c, xs[1..], ys);
    }
  }

  // ----- The ticks of a run of the UE

  function GrantTicks(g: Grant): seq<Tick> {
    if g.Block? then [Sent] else []
  }

  function CreditTicks(s: Ue, c: Config, sf: nat, ack: bool): seq<Tick>
    requires Valid(s, c) && sf < 10
  {
    if Pending(s, c, sf) then [Answer(!ack && s.procs[s.harqIds[sf]].round == 0)] else []
  }

  function FeedbackTicks(s: Ue, c: Config, d: Duplex, sf: nat, sig: Signal, n: nat): seq<Tick>
    requires Valid(s, c) && n <= AckCount(d, sf) && forall m :: 0 <= m < AckCount(d, sf) ==> AckSource(d, sf, m) < 10
  {
    if n == 0 then []
    else
      FeedbackTicks(s, c, d, sf, sig, n - 1) +
      CreditTicks(FeedbackUpTo(s, c, d, sf, sig, n - 1), c, AckSource(d, sf, n - 1),
        AckBit(d, sig, AllAcked(s, d, sf, sig), Allocated(s, d, sf, n - 1)))
  }

  function SignalTicks(s: Ue, c: Config, d: Duplex, sf: nat, signals: seq<Signal>): seq<Tick>
    requires Valid(s, c) && sf < 10
    decreases |signals|
  {
    if signals == [] then []
    else
      SourcesInTable(d, sf);
      FeedbackTicks(s, c, d, sf, signals[0], AckCount(d, sf)) +
      SignalTicks(Feedback(s, c, d, sf, signals[0]), c, d, sf, signals[1..])
  }

  /** In a step the block of a downlink subframe is sent before the answers come in, that of
      a special subframe after. */
  function StepTicks(s: Ue, c: Config, d: Duplex, u: nat, i: Input): seq<Tick>
    requires Valid(s, c) && GrantOk(i.grant)
  {
    var dir := Select(d, Subframe(u + LEAD));
    var s1 := if dir == Downlink then Transmit(s, c, Subframe(u + LEAD), i.grant) else s;
    (if dir == Downlink then GrantTicks(i.grant) else []) +
    ((if Receives(d, u) then SignalTicks(if i.sr then FirstSr(s1, c) else s1, c, d, Subframe(u), i.signals) else []) +
     (if dir == Special then GrantTicks(i.grant) else []))
  }

  function RunTicks(s: Ue, c: Config, d: Duplex, u: nat, inputs: seq<Input>): seq<Tick>
    requires Valid(s, c) && forall i :: i in inputs ==> GrantOk(i.grant)
    decreases |inputs|
  {
    if inputs == [] then []
    else
      assert inputs[0] in inputs;
      StepTicks(s, c, d, u, inputs[0]) + RunTicks(Next(s, c, d, u, inputs[0]), c, d, u + 1, inputs[1..])
  }

  lemma GrantRate(s: Ue, c: Config, sf: nat, g: Grant)
    requires Valid(s, c) && sf < 10 && GrantOk(g)
    ensures RateOf(Transmit(s, c, sf, g)) == RateAfter(RateOf(s), c, GrantTicks(g))
  {
  }

  lemma CreditRate(s: Ue, c: Config, sf: nat, ack: bool)
    requires Valid(s, c) && sf < 10
    ensures RateOf(Credit(s, c, sf, ack)) == RateAfter(RateOf(s), c, CreditTicks(s, c, sf, ack))
  {
  }

  lemma {:induction false} FeedbackRate(s: Ue, c: Config, d: Duplex, sf: nat, sig: Signal, n: nat)
    requires Valid(s, c) && n <= AckCount(d, sf) && forall m :: 0 <= m < AckCount(d, sf) ==> AckSource(d, sf, m) < 10
    ensures RateOf(FeedbackUpTo(s, c, d, sf, sig, n)) == RateAfter(RateOf(s), c, FeedbackTicks(s, c, d, sf, sig, n))
  {
    if n > 0 {
      FeedbackRate(s, c, d, sf, sig, n - 1);
      var t, m := FeedbackUpTo(s, c, d, sf, sig, n - 1), AckSource(d, sf, n - 1);
      var ack := AckBit(d, sig, AllAcked(s, d, sf, sig), Allocated(s, d, sf, n - 1));
      CreditRate(t, c, m, ack);
      RateConcat(RateOf(s), c, FeedbackTicks(s, c, d, sf, sig, n - 1), CreditTicks(t, c, m, ack));
    }
  }

  lemma {:induction false} SignalsRate(s: Ue, c: Config, d: Duplex, sf: nat, signals: seq<Signal>)
    requires Valid(s, c) && sf < 10
    ensures RateOf(FeedbackAll(s, c, d, sf, signals)) == RateAfter(RateOf(s), c, SignalTicks(s, c, d, sf, signals))
    decreases |signals|
  {
    if signals != [] {
      SourcesInTable(d, sf);
      var t := Feedback(s, c, d, sf, signals[0]);
      FeedbackRate(s, c, d, sf, signals[0], AckCount(d, sf));
      SignalsRate(t, c, d, sf, signals[1..]);
      RateConcat(RateOf(s), c, FeedbackTicks(s, c, d, sf, signals[0], AckCount(d, sf)), SignalTicks(t, c, d, sf, signals[1..]));
    }
  }

  lemma StepRate(s: Ue, c: Config, d: Duplex, u: nat, i: Input)
    requires Valid(s, c) && GrantOk(i.grant)
    ensures RateOf(Next(s, c, d, u, i)) == RateAfter(RateOf(s), c, StepTicks(s, c, d, u, i))
  {
    var sf, dir := Subframe(u + LEAD), Select(d, Subframe(u + LEAD));
    var s1 := if dir == Downlink then Transmit(s, c, sf, i.grant) else s;
    var x := if dir == Downlink then GrantTicks(i.grant) else [];
    GrantRate(s, c, sf, i.grant);
    var s0 := if i.sr then FirstSr(s1, c) else s1;
    var y := if Receives(d, u) then SignalTicks(s0, c, d, Subframe(u), i.signals) else [];
    SignalsRate(s0, c, d, Subframe(u), i.signals);
    var s2 := if Receives(d, u) then Receive(s1, c, d, u, i) else s1;
    assert RateOf(s0) == RateOf(s1) && RateOf(s2) == RateAfter(RateOf(s1), c, y);
    var z := if dir == Special then GrantTicks(i.grant) else [];
    GrantRate(s2, c, sf, i.grant);
    RateConcat(RateOf(s), c, x, y + z);
    RateConcat(RateOf(s1), c, y, z);
  }

  /** Every run, in every duplex mode: the offset follows from the blocks sent and the answers
      to them alone. */
  lemma {:induction false} RateRuns(s: Ue, c: Config, d: Duplex, u: nat, inputs: seq<Input>)
    requires Valid(s, c) && forall i :: i in inputs ==> GrantOk(i.grant)
    ensures RateOf(After(s, c, d, u, inputs)) == RateAfter(RateOf(s), c, RunTicks(s, c, d, u, inputs))
    decreases |inputs|
  {
    if inputs != [] {
      assert inputs[0] in inputs;
      var t := Next(s, c, d, u, inputs[0]);
      StepRate(s, c, d, u, inputs[0]);
      RateRuns(t, c, d, u + 1, inputs[1..]);
      RateConcat(RateOf(s), c, StepTicks(s, c, d, u, inputs[0]), RunTicks(t, c, d, u + 1, inputs[1..]));
    }
  }

  // ----- Windows

  function Blocks(xs: seq<Tick>): nat {
    if xs == [] then 0 else Blocks(xs[..|xs| - 1]) + (if xs[|xs| - 1].Sent? then 1 else 0)
  }

  function Naks(xs: seq<Tick>): nat {
    if xs == [] then 0 else Naks(xs[..|xs| - 1]) + (if xs[|xs| - 1] == Answer(true) then 1 else 0)
  }

  /** A whole window: it ends with the first answer at which exactly the window's number of
      blocks has been sent. */
  ghost predicate Window(c: Config, xs: seq<Tick>) {
    && xs != [] && xs[|xs| - 1].Answer? && Blocks(xs) == c.window
    && forall k :: 0 <= k < |xs| - 1 && xs[k].Answer? ==> Blocks(xs[..k]) != c.window
  }

  lemma RateLast(r: Rate, c: Config, xs: seq<Tick>, n: nat)
    requires n < |xs|
    ensures RateAfter(r, c, xs[..n + 1]) == RateStep(RateAfter(r, c, xs[..n]), c, xs[n])
  {
    assert xs[..n + 1] == xs[..n] + [xs[n]];
    RateConcat(r, c, xs[..n], [xs[n]]);
  }

  lemma CountLast(xs: seq<Tick>, n: nat)
    requires n < |xs|
    ensures Blocks(xs[..n + 1]) == Blocks(xs[..n]) + (if xs[n].Sent? then 1 else 0)
    ensures Naks(xs[..n + 1]) == Naks(xs[..n]) + (if xs[n] == Answer(true) then 1 else 0)
  {
    assert xs[..n + 1][..n] == xs[..n];
  }

  /** Within a window blocks and NAKs are counted, and the offset stays until the threshold is
      passed. */
  lemma {:induction false} InWindow(c: Config, xs: seq<Tick>, offset: int, n: nat)
    requires Window(c, xs) && n < |xs| && -1 <= offset <= 1
    ensures var r := RateAfter(Rate(0, 0, offset), c, xs[..n]);
      && r.blocks == Blocks(xs[..n]) && r.naks == Naks(xs[..n]) && -1 <= r.offset <= 1
      && (Naks(xs[..n]) <= c.threshold ==> r.offset == offset)
  {
    if n > 0 {
      InWindow(c, xs, offset, n - 1);
      RateLast(Rate(0, 0, offset), c, xs, n - 1);
      CountLast(xs, n - 1);
    }
  }

  /** What a whole window does, from any offset: with fewer than two first-round NAKs within
      the threshold the offset goes up by one, with two it stays, with more it ends at -1.
      Counting starts afresh. */
  lemma WindowLaw(c: Config, xs: seq<Tick>, offset: int)
    requires Window(c, xs) && -1 <= offset <= 1
    ensures var r := RateAfter(Rate(0, 0, offset), c, xs);
      && r.naks == 0 && r.blocks == 0 && -1 <= r.offset <= 1
      && (Naks(xs) < 2 && Naks(xs) <= c.threshold ==> r.offset == Raised(offset))
      && (Naks(xs) == 2 && Naks(xs) <= c.threshold ==> r.offset == offset)
      && (Naks(xs) > 2 ==> r.offset == -1)
  {
    var n := |xs| - 1;
    InWindow(c, xs, offset, n);
    RateLast(Rate(0, 0, offset), c, xs, n);
    CountLast(xs, n);
    assert xs[..n + 1] == xs;
    AdaptedExactly(RateAfter(Rate(0, 0, offset), c, xs[..n]).offset, Naks(xs), c);
  }

  /** From any offset, two clean windows in a row end at the top. */
  lemma TwoCleanWindows(c: Config, xs: seq<Tick>, ys: seq<Tick>, offset: int)
    requires Window(c, xs) && Window(c, ys) && -1 <= offset <= 1
    requires Naks(xs) < 2 && Naks(ys) < 2 && Naks(xs) <= c.threshold && Naks(ys) <= c.threshold
    ensures RateAfter(Rate(0, 0, offset), c, xs + ys) == Rate(0, 0, 1)
  {
    WindowLaw(c, xs, offset);
    WindowLaw(c, ys, Raised(offset));
    RateConcat(Rate(0, 0, offset), c, xs, ys);
  }

  /** The same for the UE: a run from the start of a window that makes up two clean windows
      leaves the offset at 1. */
  lemma CleanRun(s: Ue, c: Config, d: Duplex, u: nat, inputs: seq<Input>, xs: seq<Tick>, ys: seq<Tick>)
    requires Valid(s, c) && (forall i :: i in inputs ==> GrantOk(i.grant))
    requires s.firstNaks == 0 && s.slide == 0 && -1 <= s.mcsOffset <= 1
    requires RunTicks(s, c, d, u, inputs) == xs + ys && Window(c, xs) && Window(c, ys)
    requires Naks(xs) < 2 && Naks(ys) < 2 && Naks(xs) <= c.threshold && Naks(ys) <= c.threshold
    ensures After(s, c, d, u, inputs).mcsOffset == 1
  {
    RateRuns(s, c, d, u, inputs);
    TwoCleanWindows(c, xs, ys, s.mcsOffset);
  }

  // ----- The window that is missed

  /** The end of a window is tested for equality: once more blocks than the window holds have
      been sent, no window ever ends and the offset never rises again, however clean the
      answers are. */
  lemma {:induction false} Missed(r: Rate, c: Config, xs: seq<Tick>)
    requires r.blocks > c.window && -1 <= r.offset <= 1
    ensures var r' := RateAfter(r, c, xs); r'.blocks > c.window && -1 <= r'.offset <= r.offset
    decreases |xs|
  {
    if xs != [] {
      Missed(RateStep(r, c, xs[0]), c, xs[1..]);
    }
  }

  /** Some window ends in the ticks ys. */
  ghost predicate EndsIn(r: Rate, c: Config, ys: seq<Tick>) {
    exists k :: 0 <= k < |ys| && ys[k].Answer? && RateAfter(r, c, ys[..k]).blocks == c.window
  }

  function Sends(n: nat): (xs: seq<Tick>)
    ensures |xs| == n
  {
    if n == 0 then [] else [Sent] + Sends(n - 1)
  }

  lemma {:induction false} SendsCount(r: Rate, c: Config, n: nat)
    ensures RateAfter(r, c, Sends(n)).blocks == r.blocks + n
    decreases n
  {
    if n > 0 {
      assert Sends(n)[1..] == Sends(n - 1);
      SendsCount(RateStep(r, c, Sent), c, n - 1);
    }
  }

  /** A window can still end exactly if no more blocks than it holds have been sent. */
  lemma MissedExactly(r: Rate, c: Config)
    requires -1 <= r.offset <= 1
    ensures (exists ys :: EndsIn(r, c, ys)) <==> r.blocks <= c.window
  {
    if r.blocks <= c.window {
      var n := c.window - r.blocks;
      SendsCount(r, c, n);
      var ys := Sends(n) + [Answer(false)];
      assert ys[..n] == Sends(n) && ys[n].Answer?;
      assert EndsIn(r, c, ys);
    } else {
      forall ys ensures !EndsIn(r, c, ys) {
        forall k | 0 <= k < |ys| ensures RateAfter(r, c, ys[..k]).blocks != c.window {
          Missed(r, c, ys[..k]);
        }
      }
    }
  }
}
