/** Integers from ASN.1 bit strings: bytes, most significant first, with some unused bits
    at the end of the last byte.
 */
module BitString {
  import opened Options
  import opened Arith

  type Byte = x: int | 0 <= x < 256

  // ----- Shifts and "or" on numbers of any width

  function Shl(a: nat, k: nat): (r: nat)
    ensures r >= a
    ensures a == 0 ==> r == 0
  {
    if k == 0 then a else 2 * Shl(a, k - 1)
  }

  function Shr(a: nat, k: nat): nat {
    if k == 0 then a else Shr(a / 2, k - 1)
  }

  function BitOr(a: nat, b: nat): nat
    decreases a + b
  {
    if a == 0 then b
    else if b == 0 then a
    else 2 * BitOr(a / 2, b / 2) + (if a % 2 == 1 || b % 2 == 1 then 1 else 0)
  }

  lemma {:induction false} ShlSum(a: nat, b: nat, k: nat)
    ensures Shl(a + b, k) == Shl(a, k) + Shl(b, k)
  {
    if k > 0 {
      ShlSum(a, b, k - 1);
    }
  }

  lemma {:induction false} ShlTwice(a: nat, i: nat, j: nat)
    ensures Shl(Shl(a, i), j) == Shl(a, i + j)
  {
    if j > 0 {
      ShlTwice(a, i, j - 1);
    }
  }

  lemma ShlByte(a: nat)
    ensures Shl(a, 8) == 256 * a
  {
    assert Shl(a, 1) == 2 * a;
    assert Shl(a, 2) == 2 * Shl(a, 1);
    assert Shl(a, 4) == 4 * Shl(a, 2);
    assert Shl(a, 6) == 4 * Shl(a, 4);
    assert Shl(a, 8) == 4 * Shl(a, 6);
  }

  lemma {:induction false} ShlMonotone(a: nat, b: nat, k: nat)
    requires a < b
    ensures Shl(a, k) + Shl(1, k) <= Shl(b, k)
  {
    if k > 0 {
      ShlMonotone(a, b, k - 1);
    }
  }

  /** The "or" of numbers without common bits is their sum. */
  lemma {:induction false} OrIsSum(a: nat, b: nat, k: nat)
    requires b < Shl(1, k)
    ensures BitOr(Shl(a, k), b) == Shl(a, k) + b
  {
    if k > 0 && a != 0 && b != 0 {
      OrIsSum(a, b / 2, k - 1);
    }
  }

  /** A right shift drops low bits and keeps the others apart. */
  lemma {:induction false} ShrSum(a: nat, b: nat, k: nat, u: nat)
    requires u <= k && b < Shl(1, k)
    ensures Shr(Shl(a, k) + b, u) == Shl(a, k - u) + Shr(b, u)
    ensures Shr(b, u) < Shl(1, k - u)
    decreases u
  {
    if u > 0 {
      assert (Shl(a, k) + b) / 2 == Shl(a, k - 1) + b / 2;
      ShrSum(a, b / 2, k - 1, u - 1);
    }
  }

  // ----- What a bit string denotes

  /** The number written by a leading digit c of any size and the bytes after it. */
  function Number(c: nat, bytes: seq<Byte>): nat {
    if bytes == [] then c else 256 * Number(c, bytes[..|bytes| - 1]) + bytes[|bytes| - 1]
  }

  /** The number written by all bits but the last unused ones. */
  function Value(bytes: seq<Byte>, unused: nat): nat {
    Shr(Number(0, bytes), unused)
  }

  lemma NumberStep(c: nat, bytes: seq<Byte>, i: nat)
    requires i < |bytes|
    ensures Number(c, bytes[..i + 1]) == 256 * Number(c, bytes[..i]) + bytes[i]
  {
    assert bytes[..i + 1][..i] == bytes[..i];
  }

  lemma {:induction false} NumberBound(bytes: seq<Byte>)
    ensures Number(0, bytes) < Shl(1, 8 * |bytes|)
  {
    if bytes != [] {
      var n := |bytes| - 1;
      NumberBound(bytes[..n]);
      ShlTwice(1, 8 * n, 8);
      ShlByte(Shl(1, 8 * n));
    }
  }

  lemma {:induction false} NumberSplit(c: nat, bytes: seq<Byte>)
    ensures Number(c, bytes) == Shl(c, 8 * |bytes|) + Number(0, bytes)
  {
    if bytes != [] {
      var n := |bytes| - 1;
      NumberSplit(c, bytes[..n]);
      ShlTwice(c, 8 * n, 8);
      ShlByte(Shl(c, 8 * n));
    }
  }

  lemma {:induction false} NumberShift(b: Byte, bytes: seq<Byte>)
    ensures Number(0, [b] + bytes) == Number(b, bytes)
  {
    var all := [b] + bytes;
    if bytes == [] {
      assert all[..0] == [];
    } else {
      var n := |bytes| - 1;
      assert all[..|all| - 1] == [b] + bytes[..n];
      NumberShift(b, bytes[..n]);
    }
  }

  // ----- Writing a number as a bit string

  function ToBytes(v: nat, n: nat): (bytes: seq<Byte>)
    ensures |bytes| == n
  {
    if n == 0 then [] else ToBytes(v / 256, n - 1) + [v % 256]
  }

  lemma {:induction false} ToBytesBack(v: nat, n: nat)
    requires v < Shl(1, 8 * n)
    ensures Number(0, ToBytes(v, n)) == v
    decreases n
  {
    if n > 0 {
      ShlTwice(1, 8 * (n - 1), 8);
      ShlByte(Shl(1, 8 * (n - 1)));
      ToBytesBack(v / 256, n - 1);
      assert ToBytes(v, n)[..n - 1] == ToBytes(v / 256, n - 1);
    }
  }

  /** Round trip: a number of 8 n - unused bits, stored left-aligned in n bytes. */
  lemma ValueBack(v: nat, n: nat, unused: nat)
    requires unused < 8 && unused <= 8 * n && v < Shl(1, 8 * n - unused)
    ensures Value(ToBytes(Shl(v, unused), n), unused) == v
  {
    ShlMonotone(v, Shl(1, 8 * n - unused), unused);
    ShlTwice(1, 8 * n - unused, unused);
    ToBytesBack(Shl(v, unused), n);
    ShrSum(v, 0, unused, unused);
    ShrZero(unused);
  }

  lemma {:induction false} ShrZero(k: nat)
    ensures Shr(0, k) == 0
  {
    if k > 0 {
      ShrZero(k - 1);
    }
  }

  // ----- The conversion functions

  /** One step of the loops: the bits of the next byte are free in what was gathered. */
  lemma Gather(a: nat, b: Byte, k: nat)
    ensures BitOr(Shl(a, k + 8), Shl(b, k)) == Shl(256 * a + b, k)
    ensures Shl(b, k) < Shl(1, k + 8)
  {
    ShlByte(1);
    ShlMonotone(b, 256, k);
    ShlTwice(1, 8, k);
    OrIsSum(a, Shl(b, k), k + 8);
    ShlByte(a);
    ShlTwice(a, 8, k);
    ShlSum(256 * a, b, k);
  }

  /** The step after the loops. */
  lemma Finish(a: nat, b: Byte, unused: nat)
    requires unused < 8
    ensures BitOr(Shl(a, 8 - unused), Shr(b, unused)) == Shr(256 * a + b, unused)
  {
    ShlByte(1);
    ShlByte(a);
    ShrSum(a, b, 8, unused);
    OrIsSum(a, Shr(b, unused), 8 - unused);
  }

  /** BIT_STRING_to_uint8.  None: the size check stops the program. */
  method ToUint8(bytes: seq<Byte>, unused: nat) returns (r: Option<nat>)
    requires unused < 8
    ensures r == if |bytes| == 1 then Some(Value(bytes, unused)) else None
  {
    if |bytes| != 1 {
      return None;
    }
    assert bytes == [] + [bytes[0]];
    assert Number(0, bytes) == bytes[0];
    return Some(Shr(bytes[0], unused));
  }

  /** BIT_STRING_to_uint16, with its fall-through from two bytes to one. */
  method ToUint16(bytes: seq<Byte>, unused: nat) returns (r: Option<nat>)
    requires unused < 8
    ensures r == if 1 <= |bytes| <= 2 then Some(Value(bytes, unused)) else None
  {
    if |bytes| < 1 || |bytes| > 2 {
      return None;
    }
    var result, index := 0, 0;
    if |bytes| == 2 {
      result := BitOr(result, Shl(bytes[index], 8 - unused));
      index := index + 1;
      NumberStep(0, bytes, 0);
    }
    NumberStep(0, bytes, index);
    assert bytes[..index + 1] == bytes;
    Finish(Number(0, bytes[..index]), bytes[index], unused);
    result := BitOr(result, Shr(bytes[index], unused));
    return Some(result);
  }

  /** The loop that the 32-bit and the 64-bit conversion share, on numbers of any width. */
  method GatherBytes(bytes: seq<Byte>, unused: nat) returns (result: nat)
    requires unused < 8 && bytes != []
    ensures result == Value(bytes, unused)
  {
    var n := |bytes|;
    result := 0;
    var shift: int := (n - 1) * 8 - unused;
    var index := 0;
    while index < n - 1
      invariant 0 <= index <= n - 1
      invariant shift == 8 * (n - 1 - index) - unused
      invariant result == Shl(Number(0, bytes[..index]), shift + 8)
    {
      Gather(Number(0, bytes[..index]), bytes[index], shift);
      NumberStep(0, bytes, index);
      result := BitOr(result, Shl(bytes[index], shift));
      shift := shift - 8;
      index := index + 1;
    }
    Finish(Number(0, bytes[..index]), bytes[index], unused);
    NumberStep(0, bytes, index);
    assert bytes[..n] == bytes;
    result := BitOr(result, Shr(bytes[index], unused));
  }

  /** The value has 8 n - unused bits. */
  lemma ValueBound(bytes: seq<Byte>, unused: nat)
    requires unused < 8 && bytes != []
    ensures Value(bytes, unused) < Shl(1, 8 * |bytes| - unused)
  {
    NumberBound(bytes);
    ShrSum(0, Number(0, bytes), 8 * |bytes|, unused);
  }

  /** BIT_STRING_to_uint32.  The result fits 32 bits, so nothing is lost. */
  method ToUint32(bytes: seq<Byte>, unused: nat) returns (r: Option<nat>)
    requires unused < 8
    ensures r == if 1 <= |bytes| <= 4 then Some(Value(bytes, unused)) else None
    ensures r.Some? ==> r.value < 0x1_0000_0000
  {
    if |bytes| < 1 || |bytes| > 4 {
      return None;
    }
    var result := GatherBytes(bytes, unused);
    ValueBound(bytes, unused);
    WordBounds();
    ShlTwice(1, 8 * |bytes| - unused, 32 - (8 * |bytes| - unused));
    return Some(result);
  }

  /** BIT_STRING_to_uint64 as documented: every shifted byte widened to 64 bits first. */
  method ToUint64Wide(bytes: seq<Byte>, unused: nat) returns (r: Option<nat>)
    requires unused < 8
    ensures r == if 1 <= |bytes| <= 8 then Some(Value(bytes, unused)) else None
  {
    if |bytes| < 1 || |bytes| > 8 {
      return None;
    }
    var result := GatherBytes(bytes, unused);
    return Some(result);
  }

  /** The 28-bit cell identity read by the measurement reports. */
  lemma CellIdentity(b: seq<Byte>)
    requires |b| == 4
    ensures Shl(b[0], 20) + Shl(b[1], 12) + Shl(b[2], 4) + Shr(b[3], 4) == Value(b, 4)
  {
    var b0: nat, b1: nat, b2: nat := b[0], b[1], b[2];
    NumberStep(0, b, 0);
    NumberStep(0, b, 1);
    NumberStep(0, b, 2);
    NumberStep(0, b, 3);
    assert b[..4] == b;
    var x: nat := 65536 * b0 + 256 * b1 + b2;
    assert Number(0, b) == 256 * x + b[3];
    ShlByte(1);
    ShlByte(x);
    ShrSum(x, b[3], 8, 4);
    ShiftSum(b0, b1, b2);
  }

  lemma ShiftSum(b0: nat, b1: nat, b2: nat)
    ensures Shl(65536 * b0 + 256 * b1 + b2, 4) == Shl(b0, 20) + Shl(b1, 12) + Shl(b2, 4)
  {
    ShlByte(b0);
    ShlByte(256 * b0);
    ShlByte(b1);
    ShlTwice(b0, 8, 8);
    ShlTwice(b0, 16, 4);
    ShlTwice(b1, 8, 4);
    ShlSum(65536 * b0 + 256 * b1, b2, 4);
    ShlSum(65536 * b0, 256 * b1, 4);
  }

  /** The feature group indicators: at most four bytes, none of their bits dropped. */
  method FeatureGroups(bytes: seq<Byte>) returns (fgi: nat)
    ensures |bytes| <= 4 ==> fgi == Value(bytes, 0)
    ensures |bytes| > 4 ==> fgi == Value(bytes[..4], 0)
    ensures fgi < 0x1_0000_0000
  {
    fgi := 0;
    var size := if |bytes| > 4 then 4 else |bytes|;
    for i := 0 to size
      invariant fgi == Number(0, bytes[..i])
    {
      ShlByte(fgi);
      NumberStep(0, bytes, i);
      fgi := Shl(fgi, 8);
      fgi := fgi + bytes[i];
    }
    assert |bytes| <= 4 ==> bytes[..size] == bytes;
    NumberBound(bytes[..size]);
    WordBounds();
    if size < 4 {
      ShlTwice(1, 8 * size, 32 - 8 * size);
    }
  }

  lemma WordBounds()
    ensures Shl(1, 31) == 0x8000_0000 && Shl(1, 32) == 0x1_0000_0000
  {
    ShlByte(1);
    ShlByte(256);
    ShlTwice(1, 8, 8);
    ShlByte(65536);
    ShlTwice(1, 16, 8);
    ShlByte(16777216);
    ShlTwice(1, 24, 8);
  }

  // ----- The 64-bit conversion

  const INT_SIGN: nat := 0x8000_0000
  const INT_RANGE: nat := 0x1_0000_0000
  const LONG_RANGE: nat := 0x1_0000_0000_0000_0000

  /** A byte shifted left as a 32-bit int and converted to 64 unsigned bits: bits above
      the int are lost and its sign is extended. */
  function IntShl(b: Byte, k: nat): (r: nat) {
    var low := Shl(b, k) % INT_RANGE;
    if low < INT_SIGN then low else LONG_RANGE - INT_RANGE + low
  }

  lemma {:induction false} ModShl(a: nat, m: nat, k: nat)
    requires m > 0
    ensures Shl(a, k) % Shl(m, k) == Shl(a % m, k)
  {
    if k > 0 {
      ModShl(a, m, k - 1);
      ModDouble(Shl(a, k - 1), Shl(m, k - 1));
    }
  }

  lemma ModDouble(a: nat, m: nat)
    requires m > 0
    ensures (2 * a) % (2 * m) == 2 * (a % m)
  {
    var q := a / m;
    assert a == m * q + a % m;
    assert 2 * a == (2 * m) * q + 2 * (a % m);
    DivModUnique(2 * a, 2 * m, q, 2 * (a % m));
  }

  /** IntShl yields a multiple of 2^k, and the shifted byte itself exactly when that fits a
      non-negative int. */
  lemma IntShlMultiple(b: Byte, k: nat) returns (c: nat)
    requires k < 32
    ensures IntShl(b, k) == Shl(c, k)
    ensures IntShl(b, k) == Shl(b, k) <==> Shl(b, k) < INT_SIGN
  {
    ByteShiftBound(b, k);
    var low := LowBits(b, k);
    if Shl(low, k) < INT_SIGN {
      c := low;
    } else {
      var high := Shl(INT_RANGE - 1, 32 - k);
      assert Shl(high, k) == LONG_RANGE - INT_RANGE by {
        ShlTwice(INT_RANGE - 1, 32 - k, k);
        HighWord();
      }
      c := high + low;
      ShlSum(high, low, k);
    }
  }

  /** The 32-bit part of a shifted byte is a multiple of 2^k. */
  lemma LowBits(b: Byte, k: nat) returns (low: nat)
    requires k < 32
    ensures Shl(b, k) % INT_RANGE == Shl(low, k)
  {
    WordBounds();
    var m := Shl(1, 32 - k);
    ShlTwice(1, 32 - k, k);
    ModShl(b, m, k);
    low := b % m;
  }

  lemma ByteShiftBound(b: Byte, k: nat)
    requires k < 32
    ensures Shl(b, k) < LONG_RANGE - INT_RANGE
  {
    WordBounds();
    if k < 31 {
      ShlTwice(b, k, 31 - k);
    }
    ShlByte(1);
    ShlMonotone(b, 256, 31);
    ShlTwice(1, 8, 31);
    ShlTwice(1, 31, 8);
    ShlByte(INT_SIGN);
  }

  lemma HighWord()
    ensures Shl(INT_RANGE - 1, 32) == LONG_RANGE - INT_RANGE
  {
    var x := INT_RANGE - 1;
    ShlByte(x);
    ShlByte(256 * x);
    ShlTwice(x, 8, 8);
    ShlByte(65536 * x);
    ShlTwice(x, 16, 8);
    ShlByte(16777216 * x);
    ShlTwice(x, 24, 8);
  }

  /** BIT_STRING_to_uint64 as written, where no shift count reaches the width of an int (C leaves
      larger ones undefined).  It is right exactly for values below 2^31. */
  method ToUint64(bytes: seq<Byte>, unused: nat) returns (r: Option<nat>)
    requires unused < 8
    requires |bytes| <= 8 ==> 8 * (|bytes| - 1) - unused < 32
    ensures 1 <= |bytes| <= 8 <==> r.Some?
    ensures r.Some? ==> (r.value == Value(bytes, unused) <==> Value(bytes, unused) < INT_SIGN)
  {
    if |bytes| < 1 || |bytes| > 8 {
      return None;
    }
    var n := |bytes|;
    var result := 0;
    var shift: int := (n - 1) * 8 - unused;
    var index := 0;
    ghost var tail := bytes[1..];
    assert bytes == [bytes[0]] + tail;
    ghost var c: nat := bytes[0];
    if n > 1 {
      c := IntShlMultiple(bytes[0], shift);
    }
    while index < n - 1
      invariant 0 <= index <= n - 1
      invariant shift == 8 * (n - 1 - index) - unused
      invariant result == Gathered(c, tail, index, shift + 8)
    {
      if index == 0 {
        assert IntShl(bytes[index], shift) == Gathered(c, tail, 1, shift);
      } else {
        GatherInt(c, tail, index, shift);
      }
      result := BitOr(result, IntShl(bytes[index], shift));
      shift := shift - 8;
      index := index + 1;
    }
    if n == 1 {
      OneByte(bytes[0], unused);
    } else {
      FinishFirst(bytes[0], tail, unused, c);
    }
    result := BitOr(result, Shr(bytes[index], unused));
    return Some(result);
  }

  /** What the 64-bit loop has gathered from the first i bytes: c stands for the first. */
  function Gathered(c: nat, tail: seq<Byte>, i: nat, k: nat): nat
    requires i <= |tail| + 1
  {
    if i == 0 then 0 else Shl(Number(c, tail[..i - 1]), k)
  }

  /** One step of the loop after the first: the shifted byte is exact. */
  lemma GatherInt(c: nat, tail: seq<Byte>, i: nat, k: nat)
    requires 1 <= i <= |tail| && k < 24
    ensures BitOr(Gathered(c, tail, i, k + 8), IntShl(tail[i - 1], k)) == Gathered(c, tail, i + 1, k)
  {
    SmallShift(tail[i - 1], k);
    Gather(Number(c, tail[..i - 1]), tail[i - 1], k);
    NumberStep(c, tail, i - 1);
  }

  lemma SmallShift(b: Byte, k: nat)
    requires k < 24
    ensures IntShl(b, k) == Shl(b, k)
  {
    WordBounds();
    ShlByte(1);
    ShlTwice(1, 8, 23 - k);
    var m := Shl(1, 31 - k);
    ShlTwice(1, 31 - k, k);
    ShlMonotone(b, m, k);
  }

  /** The value is the first byte's part and the rest; only the first part can be wrong. */
  lemma DecideFirst(b: Byte, tail: seq<Byte>, unused: nat, c: nat)
    requires unused < 8 && tail != [] && 8 * |tail| - unused < 32
    requires var k := 8 * |tail| - unused; Shl(c, k) == Shl(b, k) <==> Shl(b, k) < INT_SIGN
    ensures Shr(Number(c, tail), unused) == Value([b] + tail, unused) <==> Value([b] + tail, unused) < INT_SIGN
  {
    var n := 8 * |tail|;
    var rest := Shr(Number(0, tail), unused);
    NumberShift(b, tail);
    NumberBound(tail);
    assert Shr(Number(c, tail), unused) == Shl(c, n - unused) + rest && rest < Shl(1, n - unused) by {
      NumberSplit(c, tail);
      ShrSum(c, Number(0, tail), n, unused);
    }
    assert Value([b] + tail, unused) == Shl(b, n - unused) + rest by {
      NumberSplit(b, tail);
      ShrSum(b, Number(0, tail), n, unused);
    }
    TopByte(b, rest, n - unused);
  }

  lemma FinishFirst(b: Byte, tail: seq<Byte>, unused: nat, c: nat)
    requires unused < 8 && tail != [] && 8 * |tail| - unused < 32
    requires var k := 8 * |tail| - unused; Shl(c, k) == Shl(b, k) <==> Shl(b, k) < INT_SIGN
    ensures var last := |tail| - 1;
      BitOr(Gathered(c, tail, |tail|, 8 - unused), Shr(tail[last], unused)) == Value([b] + tail, unused)
      <==> Value([b] + tail, unused) < INT_SIGN
  {
    var last := |tail| - 1;
    Finish(Number(c, tail[..last]), tail[last], unused);
    DecideFirst(b, tail, unused, c);
  }

  lemma OneByte(b: Byte, unused: nat)
    requires unused < 8
    ensures Value([b], unused) == Shr(b, unused) < INT_SIGN
  {
    assert [b][..0] == [];
    assert Number(0, [b]) == b;
    ShlByte(1);
    ShrSum(0, b, 8, unused);
    if unused > 0 {
      ShlTwice(1, 8 - unused, unused);
    }
  }

  lemma TopByte(b: Byte, rest: nat, k: nat)
    requires k < 32 && rest < Shl(1, k)
    ensures Shl(b, k) + rest < INT_SIGN <==> Shl(b, k) < INT_SIGN
  {
    WordBounds();
    var m := Shl(1, 31 - k);
    ShlTwice(1, 31 - k, k);
    if b < m {
      ShlMonotone(b, m, k);
    } else if b > m {
      ShlMonotone(m, b, k);
    }
  }
}
