/** Subframe timing: which uplink subframe acknowledges which downlink subframe, when
    table entries and HARQ processes are reused, when a UE may send a scheduling
    request, and where Msg3 is expected.

    Time is the absolute subframe number t.  The code only ever sees the subframe
    t % 10 and the frame (t / 10) % 1024.
 */
module FrameTiming {
  import opened Arith

  datatype Duplex = FDD | TDD(config: nat)
  datatype Direction = Downlink | Uplink | Special | Unsupported

  const FRAMES: nat := 1024

  function Frame(t: nat): nat {
    (t / 10) % FRAMES
  }

  function Subframe(t: nat): nat {
    t % 10
  }

  // ----- Tables of phy_procedures_lte_common.c

  /** subframe_select. */
  function Select(d: Duplex, sf: nat): Direction {
    match d
    case FDD => Downlink
    case TDD(c) =>
      if c == 1 then
        if sf == 0 || sf == 4 || sf == 5 || sf == 9 then Downlink
        else if sf == 2 || sf == 3 || sf == 7 || sf == 8 then Uplink
        else Special
      else if c == 3 then
        if sf < 1 || sf >= 5 then Downlink else if sf > 1 then Uplink else Special
      else Unsupported
  }

  /** ul_ACK_subframe2_M: downlink subframes acknowledged in an uplink subframe. */
  function AckCount(d: Duplex, sf: nat): nat {
    match d
    case FDD => 1
    case TDD(c) =>
      if c == 3 && 2 <= sf <= 4 then 2
      else if c == 1 && (sf == 2 || sf == 7) then 2
      else if c == 1 && (sf == 3 || sf == 8) then 1
      else 0
  }

  /** ul_ACK_subframe2_dl_subframe. */
  function AckSource(d: Duplex, sf: nat, m: nat): nat {
    match d
    case FDD => if sf < 4 then sf + 6 else sf - 4
    case TDD(c) =>
      if c == 3 then
        if sf == 2 then (if m == 2 then 1 else 5 + m)
        else if sf == 3 then 7 + m
        else if sf == 4 then (9 + m) % 10
        else 0
      else if c == 1 then
        if sf == 2 then 5 + m else if sf == 3 then 9 else if sf == 7 then m else if sf == 8 then 4 else 0
      else 0
  }

  // ----- Acknowledgement timing over unbounded time

  predicate Supported(d: Duplex) {
    d == FDD || d == TDD(1) || d == TDD(3)
  }

  /** A transmission can happen: downlink or special subframe. */
  predicate Transmits(d: Duplex, t: nat) {
    Select(d, Subframe(t)) == Downlink || Select(d, Subframe(t)) == Special
  }

  predicate Receives(d: Duplex, u: nat) {
    d == FDD || Select(d, Subframe(u)) == Uplink
  }

  /** One step receives subframe u after transmitting subframe u + LEAD; a special
      subframe is transmitted after the reception of the same step. */
  const LEAD: nat := 2

  /** The latest subframe with number sf whose transmission precedes reception u: the
      one that the ten-entry tables describe at that moment. */
  function LatestEntry(u: nat, sf: nat): int
    requires sf < 10
  {
    u + LEAD - (u + LEAD - sf) % 10
  }

  /** Reception u looks at the table entry that transmission t wrote. */
  ghost predicate Acknowledges(d: Duplex, u: nat, t: nat) {
    Receives(d, u) && LatestEntry(u, Subframe(t)) == t &&
    exists m :: 0 <= m < AckCount(d, Subframe(u)) && AckSource(d, Subframe(u), m) == Subframe(t)
  }

  /** The only transmission without an acknowledgement opportunity. */
  predicate Uncovered(d: Duplex, t: nat) {
    d == TDD(3) && Subframe(t) == 1
  }

  /** Distance to the acknowledging uplink subframe. */
  function AckDelay(d: Duplex, sf: nat): nat {
    match d
    case FDD => 4
    case TDD(c) =>
      if c == 1 then
        (if sf == 0 || sf == 5 then 7 else if sf == 1 || sf == 6 then 6 else 4)
      else
        (if sf == 5 then 7 else if sf == 6 || sf == 7 then 6 else if sf == 8 || sf == 9 then 5 else 4)
  }

  /** Every transmission is acknowledged by exactly one reception, 4 to 7 subframes
      later; the special subframe of configuration 3 by none. */
  lemma AcknowledgedOnce(d: Duplex, t: nat, u: nat)
    requires Supported(d) && Transmits(d, t)
    ensures 4 <= AckDelay(d, Subframe(t)) <= 7
    ensures Acknowledges(d, u, t) <==> !Uncovered(d, t) && u == t + AckDelay(d, Subframe(t))
  {
    var a := t + AckDelay(d, Subframe(t));
    if u == a && !Uncovered(d, t) {
      AckExists(d, t);
    } else if t <= u + LEAD < t + 10 {
      NoOtherAck(d, t, u);
    }
  }

  /** Within ten subframes of a transmission its table entry is the latest. */
  lemma EntryIsLatest(t: nat, u: nat)
    requires t <= u + LEAD < t + 10
    ensures LatestEntry(u, Subframe(t)) == t
  {
    var x := u + LEAD - Subframe(t);
    DivModUnique(x, 10, t / 10, u + LEAD - t);
  }

  lemma AckExists(d: Duplex, t: nat)
    requires Supported(d) && Transmits(d, t) && !Uncovered(d, t)
    ensures Acknowledges(d, t + AckDelay(d, Subframe(t)), t)
  {
    var delay := AckDelay(d, Subframe(t));
    EntryIsLatest(t, t + delay);
    assert Subframe(t + delay) == (Subframe(t) + delay) % 10;
    SourceExists(d, Subframe(t));
  }

  lemma SourceExists(d: Duplex, sf: nat)
    requires sf < 10 && Supported(d) && Transmits(d, sf) && !Uncovered(d, sf)
    ensures var u := (sf + AckDelay(d, sf)) % 10;
      Receives(d, u) && exists m :: 0 <= m < AckCount(d, u) && AckSource(d, u, m) == sf
  {
    var u := (sf + AckDelay(d, sf)) % 10;
    var m :=
      if d == TDD(1) then (if sf == 1 || sf == 6 then 1 else 0)
      else if d == TDD(3) then (if sf == 6 || sf == 8 || sf == 0 then 1 else 0)
      else 0;
    assert 0 <= m < AckCount(d, u) && AckSource(d, u, m) == sf;
  }

  lemma NoOtherAck(d: Duplex, t: nat, u: nat)
    requires Supported(d) && Transmits(d, t) && t <= u + LEAD < t + 10
    requires Uncovered(d, t) || u != t + AckDelay(d, Subframe(t))
    ensures !Acknowledges(d, u, t)
  {
    forall m | 0 <= m < AckCount(d, Subframe(u)) && Receives(d, u) ensures AckSource(d, Subframe(u), m) != Subframe(t) {
      assert m == 0 || m == 1;
    }
  }

  /** When transmission t + 8, which uses the same process (t + 8) % 8, is made before
      the acknowledgement of t is read. */
  predicate ProcessReusedEarly(d: Duplex, t: nat) {
    && Transmits(d, t + 8)
    && var u := t + AckDelay(d, Subframe(t));
       t + 8 < u + LEAD || (t + 8 == u + LEAD && Select(d, Subframe(t + 8)) == Downlink)
  }

  /** The table entry outlives the wait for its acknowledgement in every configuration.
      The HARQ process does too in FDD; in TDD it is reused too early exactly after the
      special subframes of configuration 1 and after subframe 7 of configuration 3. */
  lemma ReuseAfterAck(d: Duplex, t: nat)
    requires Supported(d) && Transmits(d, t) && !Uncovered(d, t)
    ensures t + AckDelay(d, Subframe(t)) + LEAD < t + 10
    ensures ProcessReusedEarly(d, t) <==>
      (d == TDD(1) && (Subframe(t) == 1 || Subframe(t) == 6)) || (d == TDD(3) && Subframe(t) == 7)
  {
  }

  // ----- HARQ process numbers survive the frame wrap

  /** Downlink process of get_ue_active_harq_pid, from frame and subframe. */
  function DownlinkPid(frame: nat, sf: nat): nat {
    (frame * 10 + sf) % 8
  }

  /** Uplink process of subframe2harq_pid in FDD. */
  function UplinkPid(frame: nat, sf: nat): nat {
    (2 * frame + sf) % 8
  }

  /** Absolute time from the wrapped frame counter. */
  lemma TimeFromFrame(t: nat)
    ensures t == 10240 * (t / 10 / FRAMES) + 10 * Frame(t) + Subframe(t)
  {
  }

  lemma PidsFollowTime(t: nat)
    ensures DownlinkPid(Frame(t), Subframe(t)) == t % 8
    ensures UplinkPid(Frame(t), Subframe(t)) == t % 8
  {
    TimeFromFrame(t);
    var w, f, sf := t / 10 / FRAMES, Frame(t), Subframe(t);
    var x := 2 * f + sf;
    DivModUnique(10 * f + sf, 8, f + x / 8, x % 8);
    DivModUnique(t, 8, 1280 * w + f + x / 8, x % 8);
  }

  // ----- Scheduling request opportunities

  /** is_SR_subframe. */
  predicate IsSrSubframe(index: nat, frame: nat, sf: nat) {
    if index <= 4 then sf % 5 == index
    else if index <= 14 then sf == index - 5
    else if index <= 34 then 10 * (frame % 2) + sf == index - 15
    else if index <= 74 then 10 * (frame % 4) + sf == index - 35
    else if index <= 154 then 10 * (frame % 8) + sf == index - 75
    else false
  }

  function SrPeriod(index: nat): nat {
    if index <= 4 then 5 else if index <= 14 then 10 else if index <= 34 then 20 else if index <= 74 then 40 else 80
  }

  function SrOffset(index: nat): nat
    requires index <= 154
  {
    if index <= 4 then index else if index <= 14 then index - 5 else if index <= 34 then index - 15
    else if index <= 74 then index - 35 else index - 75
  }

  /** A phase of k frames, k dividing 1024, is a phase of absolute time. */
  lemma PhaseOfTime(t: nat, k: nat)
    requires k == 2 || k == 4 || k == 8
    ensures 10 * (Frame(t) % k) + Subframe(t) == t % (10 * k)
  {
    TimeFromFrame(t);
    var w, f, sf := t / 10 / FRAMES, Frame(t), Subframe(t);
    assert f == k * (f / k) + f % k;
    if k == 2 {
      DivModUnique(t, 20, 512 * w + f / 2, 10 * (f % 2) + sf);
    } else if k == 4 {
      DivModUnique(t, 40, 256 * w + f / 4, 10 * (f % 4) + sf);
    } else {
      DivModUnique(t, 80, 128 * w + f / 8, 10 * (f % 8) + sf);
    }
  }

  lemma SrPhase(index: nat, t: nat)
    requires index <= 154
    ensures IsSrSubframe(index, Frame(t), Subframe(t)) <==> t % SrPeriod(index) == SrOffset(index)
  {
    if 15 <= index <= 34 {
      PhaseOfTime(t, 2);
    } else if 35 <= index <= 74 {
      PhaseOfTime(t, 4);
    } else if index >= 75 {
      PhaseOfTime(t, 8);
    } else if index <= 4 {
      DivModUnique(t, 5, 2 * (t / 10) + Subframe(t) / 5, Subframe(t) % 5);
    }
  }

  /** Every window of one period, wherever it starts and also across the frame wrap,
      has exactly one scheduling request opportunity. */
  lemma OneSrPerPeriod(index: nat, start: nat) returns (t: nat)
    requires index <= 154
    ensures start <= t < start + SrPeriod(index) && IsSrSubframe(index, Frame(t), Subframe(t))
    ensures forall x: nat :: start <= x < start + SrPeriod(index) && IsSrSubframe(index, Frame(x), Subframe(x)) ==> x == t
  {
    var p := SrPeriod(index);
    t := OneResidue(start, p, SrOffset(index));
    SrPhase(index, t);
    forall x: nat | start <= x < start + p && IsSrSubframe(index, Frame(x), Subframe(x)) ensures x == t {
      SrPhase(index, x);
      assert x % p == SrOffset(index);
    }
  }

  // ----- Msg3 in FDD

  /** get_Msg3_alloc and get_Msg3_alloc_ret: frame and subframe of the expected Msg3
      after a random access response, and after a failed Msg3. */
  function Msg3After(frame: nat, sf: nat, distance: nat): (r: (nat, nat)) {
    if sf + distance > 9 then ((frame + 1) % FRAMES, sf + distance - 10) else (frame, sf + distance)
  }

  const MSG3_FIRST: nat := 6
  const MSG3_AGAIN: nat := 8

  /** get_Msg3_harq_pid in FDD. */
  function Msg3Pid(frame: nat, sf: nat): nat {
    UplinkPid(if sf > 3 then (frame + 1) % FRAMES else frame, if sf > 3 then sf - 4 else sf + 6)
  }

  lemma Msg3Time(t: nat, distance: nat)
    requires distance <= 10
    ensures Msg3After(Frame(t), Subframe(t), distance) == (Frame(t + distance), Subframe(t + distance))
  {
    if Subframe(t) + distance > 9 {
      assert (t + distance) / 10 == t / 10 + 1;
    }
  }

  /** The process prepared with the response is the one in use when Msg3 arrives. */
  lemma Msg3Process(t: nat)
    ensures Msg3Pid(Frame(t), Subframe(t)) == UplinkPid(Frame(t + MSG3_FIRST), Subframe(t + MSG3_FIRST)) == (t + 6) % 8
  {
    Msg3Time(t, MSG3_FIRST);
    PidsFollowTime(t + MSG3_FIRST);
  }

  /** Equal frame and subframe mean equal time within any window of 1024 frames. */
  lemma SameTime(t: nat, u: nat)
    requires Frame(t) == Frame(u) && Subframe(t) == Subframe(u) && t <= u < t + 10 * FRAMES
    ensures t == u
  {
    TimeFromFrame(t);
    TimeFromFrame(u);
  }
}
