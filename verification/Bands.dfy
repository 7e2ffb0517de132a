/** Carrier numbering of the measurement manager: the E-UTRA band tables and the
    physical frequency that an EARFCN denotes.

    Frequencies are integers in units of 0.1 MHz.  Every table entry and the
    100 kHz raster are exact in that unit.
 */
module Bands {

  /** number: band number; low/high: channel number range; base: lowest downlink
      frequency; width: total bandwidth. */
  datatype Band = Band(number: nat, low: nat, high: nat, base: nat, width: nat)

  const TDD_BANDS: seq<Band> := [
    Band(33, 36000, 36199, 19000, 200), Band(34, 36200, 36349, 20100, 150),
    Band(35, 36350, 36949, 18500, 600), Band(36, 36950, 37549, 19300, 600),
    Band(37, 37550, 37749, 19100, 200), Band(38, 37750, 38249, 25700, 500),
    Band(39, 38250, 38649, 18800, 400), Band(40, 38650, 39649, 23000, 1000),
    Band(41, 39650, 41589, 24960, 1940), Band(42, 41590, 43589, 34000, 2000),
    Band(43, 43590, 45589, 36000, 2000), Band(44, 45590, 46589, 7030, 1000),
    Band(45, 46590, 46789, 14470, 200), Band(46, 46590, 54339, 51500, 7750)]

  const FDD_BANDS: seq<Band> := [
    Band(1, 0, 599, 21100, 600), Band(2, 600, 1199, 19300, 600),
    Band(3, 1200, 1949, 18050, 750), Band(4, 1950, 2399, 21100, 450),
    Band(5, 2400, 2649, 8690, 250), Band(6, 2650, 2749, 8750, 100),
    Band(7, 2750, 3449, 26200, 700), Band(8, 3450, 3799, 9250, 350),
    Band(9, 3800, 4149, 18449, 350), Band(10, 4150, 4749, 21100, 600),
    Band(11, 4750, 4949, 14759, 200), Band(12, 5010, 5179, 7290, 170),
    Band(13, 5180, 5279, 7460, 100), Band(14, 5280, 5379, 7580, 100),
    Band(17, 5730, 5849, 7340, 120), Band(18, 5850, 5999, 8600, 150),
    Band(19, 6000, 6149, 8750, 150), Band(20, 6150, 6449, 7910, 300),
    Band(21, 6450, 6599, 14959, 150), Band(22, 6600, 7399, 35100, 800),
    Band(23, 7500, 7699, 21800, 200), Band(24, 7700, 8039, 15250, 340),
    Band(25, 8040, 8689, 19300, 650), Band(26, 8690, 9039, 8590, 350),
    Band(27, 9040, 9209, 8520, 170), Band(28, 9210, 9659, 7580, 450),
    Band(29, 9660, 9769, 7170, 110), Band(30, 9770, 9869, 23500, 100),
    Band(31, 9870, 9919, 4625, 50), Band(32, 9920, 10359, 14520, 440),
    Band(65, 65536, 66435, 21100, 900), Band(66, 66436, 67335, 21100, 700),
    Band(67, 67336, 67535, 7380, 200), Band(68, 67536, 67835, 7530, 300),
    Band(69, 67386, 68335, 25700, 950), Band(70, 68336, 68585, 19950, 150),
    Band(252, 255144, 256143, 51500, 1000), Band(255, 260894, 262143, 57250, 1250)]

  /** Strictly inside the channel range: both end points are excluded. */
  predicate Covers(b: Band, earfcn: nat) {
    b.low < earfcn < b.high
  }

  /** The first band at or after position i that covers the channel, or -1. */
  function BandIndexFrom(bands: seq<Band>, earfcn: nat, i: nat): (k: int)
    requires i <= |bands|
    ensures -1 <= k < |bands|
    ensures k == -1 ==> forall j :: i <= j < |bands| ==> !Covers(bands[j], earfcn)
    ensures k != -1 ==> i <= k && Covers(bands[k], earfcn)
    ensures k != -1 ==> forall j :: i <= j < k ==> !Covers(bands[j], earfcn)
    decreases |bands| - i
  {
    if i == |bands| then -1
    else if Covers(bands[i], earfcn) then i
    else BandIndexFrom(bands, earfcn, i + 1)
  }

  function BandIndex(bands: seq<Band>, earfcn: nat): (k: int)
    ensures -1 <= k < |bands|
    ensures k != -1 ==> Covers(bands[k], earfcn)
  {
    BandIndexFrom(bands, earfcn, 0)
  }

  /** The table scan as the loop it is. */
  method FindBandIndex(bands: seq<Band>, earfcn: nat) returns (k: int)
    ensures k == BandIndex(bands, earfcn)
  {
    for i := 0 to |bands|
      invariant BandIndex(bands, earfcn) == BandIndexFrom(bands, earfcn, i)
    {
      if Covers(bands[i], earfcn) {
        return i;
      }
    }
    return -1;
  }

  function BandFrequency(b: Band, earfcn: nat): int {
    b.base + (earfcn - b.low)
  }

  /** Physical frequency of a channel number: a downlink FDD band wins over a TDD
      band, and a channel in no band has frequency 0. */
  function Frequency(earfcn: nat): (f: int) {
    var fdd := BandIndex(FDD_BANDS, earfcn);
    var tdd := BandIndex(TDD_BANDS, earfcn);
    if fdd != -1 then BandFrequency(FDD_BANDS[fdd], earfcn)
    else if tdd != -1 then BandFrequency(TDD_BANDS[tdd], earfcn)
    else 0
  }

  /** 1: the same carrier; -1: the same physical frequency under another channel
      number, which is an invalid request; 0: different frequencies.  The frequency
      assignment is a parameter: nothing about the comparison depends on the tables. */
  function CompareCarriers(freq: nat -> int, requested: nat, stored: nat): (c: int)
    ensures c == 1 <==> requested == stored
    ensures c != 0 <==> freq(requested) == freq(stored)
    ensures -1 <= c <= 1
  {
    if freq(requested) == freq(stored) then
      if requested == stored then 1 else -1
    else 0
  }
}
