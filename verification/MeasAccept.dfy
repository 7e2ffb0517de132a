/** Exactly which requests are accepted, said about the request, the UE and the stored
    triggers as a set rather than through the scans and searches of the code, and what a
    request that is not accepted leaves unchanged.
 */
module MeasAccept {
  import opened Options
  import opened MeasTypes
  import opened MeasEnb
  import opened MeasTriggers
  import opened Bands

  // ----- The carrier

  /** Frequency g, in 0.1 MHz, lies in a channel of width bw centred on f. */
  predicate InChannel(g: real, f: int, bw: nat) {
    f as real - bw as real / 2.0 <= g <= f as real + bw as real / 2.0
  }

  predicate InBand(g: real, b: Band) {
    b.base as real <= g <= (b.base + b.width) as real
  }

  /** The band of a channel number: the first TDD band that covers it, else the first FDD one. */
  predicate BandOf(b: Band, carrier: nat) {
    || FirstCovering(TDD_BANDS, b, carrier)
    || (FirstCovering(FDD_BANDS, b, carrier) && forall i :: 0 <= i < |TDD_BANDS| ==> !Covers(TDD_BANDS[i], carrier))
  }

  predicate FirstCovering(bands: seq<Band>, b: Band, carrier: nat) {
    exists k :: 0 <= k < |bands| && bands[k] == b && Covers(b, carrier) && forall j :: 0 <= j < k ==> !Covers(bands[j], carrier)
  }

  lemma ChannelInBand(b: Band, f: int, bw: nat)
    ensures (forall g: real :: InChannel(g, f, bw) ==> InBand(g, b)) <==>
      2 * f + bw <= 2 * (b.base + b.width) && 2 * b.base <= 2 * f - bw
  {
    var low, high := f as real - bw as real / 2.0, f as real + bw as real / 2.0;
    assert InChannel(low, f, bw) && InChannel(high, f, bw);
  }

  lemma FirstIsIndex(bands: seq<Band>, b: Band, carrier: nat)
    ensures FirstCovering(bands, b, carrier) <==> BandIndex(bands, carrier) != -1 && bands[BandIndex(bands, carrier)] == b
    ensures BandIndex(bands, carrier) == -1 <==> forall i :: 0 <= i < |bands| ==> !Covers(bands[i], carrier)
  {
    var k := BandIndexFrom(bands, carrier, 0);
    if FirstCovering(bands, b, carrier) {
      var j :| 0 <= j < |bands| && bands[j] == b && Covers(b, carrier) && forall i :: 0 <= i < j ==> !Covers(bands[i], carrier);
      assert j == k;
    }
  }

  lemma TddChannels(i: nat)
    requires i < |TDD_BANDS|
    ensures 36000 <= TDD_BANDS[i].low && TDD_BANDS[i].high <= 54339
  {
  }

  lemma FddChannels(i: nat)
    requires i < |FDD_BANDS|
    ensures FDD_BANDS[i].high <= 10359 || 65536 <= FDD_BANDS[i].low
  {
  }

  /** Channels are 0.1 MHz apart, so a band is as wide as its channel range is long: exactly so
      for every band of the tables but 66 and 70, whose entries are narrower. */
  lemma WidthExactly(i: nat)
    ensures i < |TDD_BANDS| ==> TDD_BANDS[i].width == TDD_BANDS[i].high - TDD_BANDS[i].low + 1
    ensures i < |FDD_BANDS| ==>
      var b := FDD_BANDS[i];
      (b.width == b.high - b.low + 1 <==> b.number != 66 && b.number != 70) && b.width <= b.high - b.low + 1
  {
  }

  /** TDD and FDD bands number their channels apart. */
  lemma BandsApart(carrier: nat, t: nat, f: nat)
    requires t < |TDD_BANDS| && f < |FDD_BANDS|
    ensures !(Covers(TDD_BANDS[t], carrier) && Covers(FDD_BANDS[f], carrier))
  {
    TddChannels(t);
    FddChannels(f);
  }

  /** The UE supports the band of the carrier, and the whole channel of the requested bandwidth
      lies in it. */
  ghost predicate Usable(env: Env, o: ObjectRequest, b: Band) {
    && BandOf(b, o.carrier) && b.number in env.bands
    && forall g: real :: InChannel(g, BandFrequency(b, o.carrier), BandwidthOf(o.bandwidth)) ==> InBand(g, b)
  }

  lemma UsableBand(env: Env, o: ObjectRequest, b: Band, tdd: int, fdd: int)
    requires tdd == BandIndex(TDD_BANDS, o.carrier) && fdd == BandIndex(FDD_BANDS, o.carrier)
    requires tdd != -1 || fdd != -1
    requires b == if tdd != -1 then TDD_BANDS[tdd] else FDD_BANDS[fdd]
    ensures CarrierUsable(env, o) <==> Usable(env, o, b)
  {
    FirstIsIndex(TDD_BANDS, b, o.carrier);
    FirstIsIndex(FDD_BANDS, b, o.carrier);
    if tdd != -1 && fdd != -1 {
      BandsApart(o.carrier, tdd, fdd);
    }
    ChannelInBand(b, BandFrequency(b, o.carrier), BandwidthOf(o.bandwidth));
  }

  lemma UsableExactly(env: Env, o: ObjectRequest)
    ensures CarrierUsable(env, o) <==> exists b :: Usable(env, o, b)
  {
    var tdd, fdd := BandIndex(TDD_BANDS, o.carrier), BandIndex(FDD_BANDS, o.carrier);
    if tdd != -1 || fdd != -1 {
      UsableBand(env, o, if tdd != -1 then TDD_BANDS[tdd] else FDD_BANDS[fdd], tdd, fdd);
    }
    forall b | Usable(env, o, b) ensures CarrierUsable(env, o) {
      FirstIsIndex(TDD_BANDS, b, o.carrier);
      FirstIsIndex(FDD_BANDS, b, o.carrier);
      UsableBand(env, o, b, tdd, fdd);
    }
  }

  // ----- Stored triggers

  /** No stored trigger names the frequency by another channel number. */
  predicate NoOtherName(s: seq<Trigger>, carrier: nat) {
    forall x :: x in s && Frequency(x.obj.carrier) == Frequency(carrier) ==> x.obj.carrier == carrier
  }

  /** Identity k is that of a stored object on the carrier. */
  predicate Stored(s: seq<Trigger>, carrier: nat, k: int) {
    exists x :: x in s && x.obj.carrier == carrier && x.objectId == k
  }

  /** The object scan, for triggers that agree on frequencies and objects. */
  lemma ObjectScan(s: seq<Trigger>, carrier: nat)
    requires Consistent(s, Frequency) && forall x :: x in s ==> TriggerInRange(x)
    ensures var r := ScanObjects(s, carrier, Frequency);
      && r >= -1 && (r != -1 <==> NoOtherName(s, carrier))
      && (r > 0 ==> Stored(s, carrier, r))
      && (r == 0 ==> forall x :: x in s ==> x.obj.carrier != carrier)
  {
    var r := ScanObjects(s, carrier, Frequency);
    ScanFrom(s, carrier, Frequency);
    forall x | x in s && Frequency(x.obj.carrier) == Frequency(carrier)
      ensures r == if x.obj.carrier == carrier then x.objectId else -1
    {
      ScanDetermined(s, carrier, x, Frequency);
      assert TriggerInRange(x);
    }
    if forall x :: x in s ==> Frequency(x.obj.carrier) != Frequency(carrier) {
      ScanMisses(s, carrier, Frequency);
    }
  }

  /** The report scan: a CGI request only with nothing stored; otherwise the first trigger whose
      report configuration is taken for the same. */
  lemma {:induction false} ReportScan(s: seq<Trigger>, r: ReportRequest)
    requires forall x :: x in s ==> TriggerInRange(x)
    ensures var k := ScanReports(s, r);
      && k >= -1 && (k == -1 <==> IsCgi(r) && s != [])
      && (k > 0 ==> exists x :: x in s && SameReport(r, x.report) && x.reportId == k)
      && (k == 0 ==> forall x :: x in s ==> !SameReport(r, x.report))
  {
    if s != [] {
      assert s[0] in s && TriggerInRange(s[0]);
      assert forall x :: x in s[1..] ==> x in s;
      if !IsCgi(r) && !SameReport(r, s[0].report) {
        ReportScan(s[1..], r);
        assert forall x :: x in s <==> x == s[0] || x in s[1..];
      }
    }
  }

  predicate Room<T>(entries: seq<Option<T>>) {
    exists i :: 0 <= i < |entries| && entries[i].None?
  }

  lemma RoomIsFree<T>(entries: seq<Option<T>>)
    ensures Room(entries) <==> FirstFree(entries) != 0
  {
  }

  // ----- Accepted requests

  /** The object part: complete, usable, within the limits, and named as before. */
  ghost predicate ObjectFine(m: Manager, env: Env, o: ObjectRequest) {
    && o.eutra && o.hasBandwidth && o.hasCarrier && |o.cells| <= 32 && |o.black| <= 32
    && (exists b :: Usable(env, o, b)) && NoOtherName(m.triggers, o.carrier)
  }

  /** The report part: events A1 and A2 on the serving frequency only, values in range, events
      A4, A5 and periodical reports only if the UE supports them, and a CGI request only with
      nothing stored.  The serving band is compared with the number 0. */
  predicate ReportFine(m: Manager, env: Env, carrier: nat, r: ReportRequest) {
    && r.eutra
    && (r.kind.A1? || r.kind.A2? ==> Frequency(carrier) == env.servingFrequency != 0)
    && (r.hysteresis.has ==> 0 <= r.hysteresis.value <= 30) && (r.maxCells.has ==> 0 <= r.maxCells.value <= 8)
    && (r.kind.A4? || r.kind.A5? ==> env.eventsA4A5)
    && (r.kind.Periodical? && env.servingBand == 0 ==> env.intraPeriodic)
    && (r.kind.Periodical? && env.servingBand != 0 ==> env.interPeriodic)
    && (IsCgi(r) ==> m.triggers == [])
  }

  /** There is room for it: a free measurement identity, and for object and report a stored one
      to share or a free one. */
  predicate HasRoom(t: Tables, s: seq<Trigger>, q: Request) {
    Room(t.ids) && (Room(t.objects) || SharesObject(s, q.obj.carrier)) && (Room(t.reports) || SharesReport(s, q.report))
  }

  predicate SharesObject(s: seq<Trigger>, carrier: nat) {
    exists x :: x in s && x.obj.carrier == carrier
  }

  predicate SharesReport(s: seq<Trigger>, r: ReportRequest) {
    exists x :: x in s && SameReport(r, x.report)
  }

  lemma ObjectVerdict(m: Manager, env: Env, o: ObjectRequest)
    requires ManagerInRange(m) && Consistent(m.triggers, Frequency) && o.eutra
    ensures ValidateObject(m, env, o) != -1 <==> ObjectFine(m, env, o)
    ensures ObjectFine(m, env, o) ==>
      (ValidateObject(m, env, o) > 0 <==> SharesObject(m.triggers, o.carrier))
  {
    UsableExactly(env, o);
    ObjectScan(m.triggers, o.carrier);
  }

  lemma ReportVerdict(m: Manager, env: Env, carrier: nat, r: ReportRequest)
    requires ManagerInRange(m) && r.eutra
    ensures ValidateReport(m, env, carrier, r) != -1 <==> ReportFine(m, env, carrier, r)
    ensures ReportFine(m, env, carrier, r) ==>
      (ValidateReport(m, env, carrier, r) > 0 <==> SharesReport(m.triggers, r))
  {
    ReportScan(m.triggers, r);
  }

  /** A request is answered by a message to the UE exactly if both parts are fine, a report
      type is set and there is room. */
  lemma AcceptedExactly(m: Manager, env: Env, q: Request)
    requires ManagerInRange(m) && Consistent(m.triggers, Frequency) && q.rnti in m.contexts
    ensures HandleRequest(m, env, q).sent.Some? <==>
      ObjectFine(m, env, q.obj) && ReportFine(m, env, q.obj.carrier, q.report) && !q.report.kind.NotSet?
      && HasRoom(m.contexts[q.rnti], m.triggers, q)
  {
    var t, v := m.contexts[q.rnti], Judge(m, env, q);
    JudgeSound(m, env, q);
    SentIfConfigured(t, v, q, env.siAcquisition);
    assert HandleRequest(m, env, q).sent == TablesAfter(t, v, q, env.siAcquisition).sent;
    if q.obj.eutra && q.report.eutra {
      Verdicts(m, env, q);
      ConfiguredIfRoom(t, v, q, SharesObject(m.triggers, q.obj.carrier), SharesReport(m.triggers, q.report));
    }
  }

  lemma Verdicts(m: Manager, env: Env, q: Request)
    requires ManagerInRange(m) && Consistent(m.triggers, Frequency) && q.obj.eutra && q.report.eutra
    ensures var v, o, r := Judge(m, env, q), ObjectFine(m, env, q.obj), ReportFine(m, env, q.obj.carrier, q.report);
      && (v.obj != -1 <==> o) && (v.report != -1 <==> r)
      && (o && r ==> (v.obj > 0 <==> SharesObject(m.triggers, q.obj.carrier)) && (v.report > 0 <==> SharesReport(m.triggers, q.report)))
  {
    ObjectVerdict(m, env, q.obj);
    ReportVerdict(m, env, q.obj.carrier, q.report);
  }

  lemma ConfiguredIfRoom(t: Tables, v: Verdict, q: Request, shareObject: bool, shareReport: bool)
    requires q.obj.eutra && q.report.eutra && v.obj >= -1 && v.report >= -1
    requires v.obj != -1 && v.report != -1 ==> (v.obj > 0 <==> shareObject) && (v.report > 0 <==> shareReport)
    ensures MeasEnb.Configured(t, v, q) <==>
      v.obj != -1 && v.report != -1 && Room(t.ids) && (Room(t.objects) || shareObject) && (Room(t.reports) || shareReport)
  {
    RoomIsFree(t.ids);
    RoomIsFree(t.objects);
    RoomIsFree(t.reports);
  }

  lemma SentIfConfigured(t: Tables, v: Verdict, q: Request, si: bool)
    requires InRange(t) && Sound(v, q)
    ensures TablesAfter(t, v, q, si).sent.Some? <==> MeasEnb.Configured(t, v, q) && !q.report.kind.NotSet?
  {
  }

  /** A request that is not accepted, and does not lack a report type, changes no table of any
      UE and no trigger but for bandwidth and cell lists. */
  lemma RefusedExactly(m: Manager, env: Env, q: Request)
    requires ManagerInRange(m) && q.rnti in m.contexts && !q.report.kind.NotSet?
    requires HandleRequest(m, env, q).sent.None?
    ensures var m' := HandleRequest(m, env, q).manager;
      && m'.contexts == m.contexts && |m'.triggers| == |m.triggers|
      && forall i :: 0 <= i < |m.triggers| ==> Alike(m'.triggers[i], m.triggers[i])
  {
    var t, v := m.contexts[q.rnti], Judge(m, env, q);
    JudgeSound(m, env, q);
    SentIfConfigured(t, v, q, env.siAcquisition);
    assert m.contexts[q.rnti := t] == m.contexts;
  }

  // ----- Report configurations taken for the same

  /** The value a stored field is compared as: given, or the default of the code. */
  function InEffect(f: Field, default: int): int {
    if f.has then f.value else default
  }

  predicate Agrees(asked: Field, stored: int) {
    asked.has ==> asked.value == stored
  }

  /** Levels agree; thresholds on different scales are not told apart. */
  predicate LevelsAgree(a: Threshold, b: Threshold) {
    a.level == b.level || a.Rsrp? != b.Rsrp?
  }

  predicate KindsAgree(q: Kind, s: Kind) {
    match q
    case Periodical(p) => s == Periodical(p)
    case A1(a) => s.A1? && LevelsAgree(a, s.limit)
    case A2(a) => s.A2? && LevelsAgree(a, s.limit)
    case A3(x, l) => s.A3? && s.offset == x && s.leave.value == l.value
    case A4(a) => s.A4? && LevelsAgree(a, s.limit)
    case A5(a, b) => s.A5? && LevelsAgree(a, s.limit1) && LevelsAgree(b, s.limit2)
    case NotSet => s.NotSet?
  }

  /** A request shares the report configuration of a stored one exactly if the kinds agree and
      every field it gives has the value that the stored request gave or, where that one gave
      none, the default: hysteresis 0, trigger quantity RSRP (0), report quantity both (1), two
      cells, interval ms5120 (6), amount infinity (7). */
  lemma SharedExactly(q: ReportRequest, s: ReportRequest)
    ensures SameReport(q, WithDefaults(s)) <==>
      && KindsAgree(q.kind, s.kind)
      && Agrees(q.hysteresis, InEffect(s.hysteresis, 0)) && Agrees(q.timeToTrigger, s.timeToTrigger.value)
      && Agrees(q.triggerQuantity, InEffect(s.triggerQuantity, 0)) && Agrees(q.reportQuantity, InEffect(s.reportQuantity, 1))
      && Agrees(q.maxCells, InEffect(s.maxCells, 2)) && Agrees(q.interval, InEffect(s.interval, 6))
      && Agrees(q.amount, InEffect(s.amount, 7))
  {
  }
}
