/** The master information block: packed into three bytes in every fourth frame and
    repeated in the three frames after it.  At any frame the stored bytes and the
    repetition phase determine the frame number and the cell configuration
    (section 6.2.2 of TS 36.331, section 6.6 of TS 36.211).
 */
module Mib {
  import opened Options
  import opened FrameTiming

  /** nRb: downlink bandwidth in resource blocks; duration: 0 normal, 1 extended;
      resource: 0 one sixth, 1 half, 2 one, 3 two. */
  datatype Cell = Cell(nRb: nat, duration: nat, resource: nat)

  predicate CellOk(c: Cell) {
    c.duration <= 1 && c.resource <= 3
  }

  predicate Standard(nRb: nat) {
    nRb == 6 || nRb == 15 || nRb == 25 || nRb == 50 || nRb == 75 || nRb == 100
  }

  function BandwidthCode(nRb: nat): nat {
    if nRb == 6 then 0 else if nRb == 15 then 1 else if nRb == 25 then 2
    else if nRb == 50 then 3 else if nRb == 75 then 4 else if nRb == 100 then 5 else 2
  }

  datatype Pdu = Pdu(b0: nat, b1: nat, b2: nat)

  // The masks of the packing code: x & 0x1f, x & 0xef, x & 0xf3 and x & 0xfc.  The bits
  // set next are clear after the mask, so the code's "or" is an addition.

  function Mask1F(x: nat): nat { x % 32 }
  function MaskEF(x: nat): nat { x / 32 * 32 + x % 16 }
  function MaskF3(x: nat): nat { x / 16 * 16 + x % 4 }
  function MaskFC(x: nat): nat { x / 4 * 4 }

  /** Packing in frame f, field by field. */
  function Pack(c: Cell, f: nat): (p: Pdu) {
    var x1 := Mask1F(0) + 32 * BandwidthCode(c.nRb);
    var x2 := MaskEF(x1) + 16 * (c.duration % 2);
    var x3 := MaskF3(x2) + 4 * (c.resource % 4);
    var x4 := MaskFC(x3) + (f / 256) % 4;
    Pdu(0, MaskFC(f % 256), x4)
  }

  datatype Decoded = Decoded(frame: nat, cell: Cell)

  /** The UE's reading: eight frame bits from the block, two from the repetition phase it
      found when it decoded the broadcast channel.  Unknown bandwidth codes fail. */
  function Unpack(p: Pdu, phase: nat): (d: Option<Decoded>) {
    var code := (p.b2 / 32) % 8;
    if code > 5 then None
    else
      var nRb := if code == 0 then 6 else if code == 1 then 15 else if code == 2 then 25
                 else if code == 3 then 50 else if code == 4 then 75 else 100;
      Some(Decoded(256 * (p.b2 % 4) + p.b1 + phase, Cell(nRb, (p.b2 / 16) % 2, (p.b2 / 4) % 4)))
  }

  lemma PackedByte(c: Cell, f: nat)
    requires CellOk(c)
    ensures Pack(c, f).b2 == 32 * BandwidthCode(c.nRb) + 16 * c.duration + 4 * c.resource + (f / 256) % 4
  {
    var x1 := 32 * BandwidthCode(c.nRb);
    assert MaskEF(x1) == x1;
    var x2 := x1 + 16 * c.duration;
    assert MaskF3(x2) == x2;
    var x3 := x2 + 4 * c.resource;
    assert MaskFC(x3) == x3;
  }

  lemma Fields(code: nat, duration: nat, resource: nat, top: nat)
    requires code < 8 && duration <= 1 && resource <= 3 && top <= 3
    ensures var x := 32 * code + 16 * duration + 4 * resource + top;
      (x / 32) % 8 == code && (x / 16) % 2 == duration && (x / 4) % 4 == resource && x % 4 == top
  {
    var x := 32 * code + 16 * duration + 4 * resource + top;
    assert x / 32 == code;
    assert x / 16 == 2 * code + duration;
    assert x / 4 == 4 * (2 * code + duration) + resource;
  }

  lemma FrameSplit(f: nat)
    requires f < FRAMES && f % 4 == 0
    ensures 256 * ((f / 256) % 4) + MaskFC(f % 256) == f
  {
    assert f / 256 < 4;
    assert f % 256 == f - 256 * (f / 256);
  }

  /** A block packed in a frame divisible by four reads back in each of the four frames
      of its repetition period; the bandwidth is right if and only if it is one of the six
      standard ones (any other is announced as 25). */
  lemma PackUnpack(c: Cell, f: nat, phase: nat)
    requires CellOk(c) && f < FRAMES && f % 4 == 0 && phase < 4
    ensures Unpack(Pack(c, f), phase) ==
      Some(Decoded(f + phase, if Standard(c.nRb) then c else c.(nRb := 25)))
  {
    PackedByte(c, f);
    Fields(BandwidthCode(c.nRb), c.duration, c.resource, (f / 256) % 4);
    FrameSplit(f);
  }

  // ----- Runs

  /** Subframe t is transmitted: in subframe 0 of a frame divisible by four the block is
      rebuilt; otherwise the stored bytes stay. */
  function Store(c: Cell, p: Pdu, t: nat): (r: Pdu)
  {
    if Subframe(t) == 0 && Frame(t) % 4 == 0 then Pack(c, Frame(t)) else p
  }

  function StoreRun(c: Cell, p: Pdu, t: nat, n: nat): (r: Pdu)
    decreases n
  {
    if n == 0 then p else StoreRun(c, Store(c, p, t), t + 1, n - 1)
  }

  /** The stored block belongs to the current repetition period. */
  predicate Current(c: Cell, p: Pdu, t: nat)
  {
    p == Pack(c, Frame(t) / 4 * 4)
  }

  lemma StoreCurrent(c: Cell, p: Pdu, t: nat)
    requires Current(c, p, t) || (Subframe(t) == 0 && Frame(t) % 4 == 0)
    ensures Current(c, Store(c, p, t), t)
  {
  }

  /** From one subframe to the next the period changes only where the block is rebuilt,
      also at the wrap from frame 1023 to frame 0. */
  lemma NextPeriod(t: nat)
    ensures Frame(t + 1) / 4 * 4 == Frame(t) / 4 * 4 || (Subframe(t + 1) == 0 && Frame(t + 1) % 4 == 0)
  {
    NextTenth(t);
    if Subframe(t) == 9 {
      NextFrame(t / 10);
    }
  }

  lemma NextTenth(t: nat)
    ensures if t % 10 == 9 then (t + 1) % 10 == 0 && (t + 1) / 10 == t / 10 + 1 else (t + 1) / 10 == t / 10
  {
  }

  lemma NextFrame(k: nat)
    ensures (k + 1) % FRAMES / 4 * 4 == k % FRAMES / 4 * 4 || (k + 1) % FRAMES % 4 == 0
  {
    var f := k % FRAMES;
    assert (k + 1) % FRAMES == if f == FRAMES - 1 then 0 else f + 1;
    SamePeriod(f);
  }

  lemma SamePeriod(f: nat)
    ensures (f + 1) / 4 == f / 4 || (f + 1) % 4 == 0
  {
  }

  lemma {:induction false} RunCurrent(c: Cell, p: Pdu, t: nat, n: nat)
    requires n > 0 && (Current(c, p, t) || (Subframe(t) == 0 && Frame(t) % 4 == 0))
    ensures Current(c, StoreRun(c, p, t, n), t + n - 1)
    decreases n
  {
    StoreCurrent(c, p, t);
    if n > 1 {
      NextPeriod(t);
      RunCurrent(c, Store(c, p, t), t + 1, n - 1);
    }
  }

  lemma CurrentReads(c: Cell, p: Pdu, t: nat)
    requires CellOk(c) && Current(c, p, t)
    ensures Unpack(p, Frame(t) % 4) == Some(Decoded(Frame(t), if Standard(c.nRb) then c else c.(nRb := 25)))
  {
    var f := Frame(t);
    PackUnpack(c, f / 4 * 4, f % 4);
  }

  /** Every run that starts in the first subframe of a frame divisible by four, whatever
      bytes were stored before: after each transmitted subframe the block with the phase
      of the current frame decodes to the current frame number and the configuration,
      through any number of wraps. */
  lemma MibRuns(c: Cell, p: Pdu, t: nat, n: nat)
    requires CellOk(c) && n > 0 && Subframe(t) == 0 && Frame(t) % 4 == 0
    ensures var now := Frame(t + n - 1);
      Unpack(StoreRun(c, p, t, n), now % 4) ==
        Some(Decoded(now, if Standard(c.nRb) then c else c.(nRb := 25)))
  {
    RunCurrent(c, p, t, n);
    CurrentReads(c, StoreRun(c, p, t, n), t + n - 1);
  }

  // ----- In place

  class Broadcast {
    const cell: Cell
    var pdu: Pdu

    constructor (cell: Cell)
      ensures this.cell == cell
    {
      this.cell := cell;
      pdu := Pdu(0, 0, 0);
    }

    /** The packing part of phy_procedures_eNB_TX. */
    method TransmitSubframe(t: nat)
      modifies this`pdu
      ensures pdu == Store(cell, old(pdu), t)
    {
      if Subframe(t) == 0 && Frame(t) % 4 == 0 {
        var b2 := Mask1F(0) + 32 * BandwidthCode(cell.nRb);
        b2 := MaskEF(b2) + 16 * (cell.duration % 2);
        b2 := MaskF3(b2) + 4 * (cell.resource % 4);
        b2 := MaskFC(b2) + (Frame(t) / 256) % 4;
        pdu := Pdu(0, MaskFC(Frame(t) % 256), b2);
      }
    }
  }
}
