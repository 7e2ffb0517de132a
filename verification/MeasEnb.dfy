/** The eNB's side of RRC measurements: the three tables kept per UE, the tree of
    controller triggers, and what each operation does to them and sends to the UE.
    These functions specify the methods of class MeasManager.
 */
module MeasEnb {
  import opened Options
  import opened MeasTypes
  import opened Bands

  // ----- State

  /** Nullable table entries; entry i holds identity i + 1. */
  datatype Tables = Tables(
    ids: seq<Option<IdRecord>>, objects: seq<Option<ObjectRecord>>, reports: seq<Option<ReportRecord>>)

  predicate Sized(t: Tables) {
    |t.ids| == MAX_MEAS && |t.objects| == MAX_MEAS && |t.reports| == MAX_MEAS
  }

  const NO_MEASUREMENTS := Tables(
    [None, None, None, None, None, None, None],
    [None, None, None, None, None, None, None],
    [None, None, None, None, None, None, None])

  datatype Trigger = Trigger(
    tid: nat, rnti: Rnti, measId: nat,
    objectId: nat, obj: ObjectRequest, reportId: nat, report: ReportRequest)

  /** triggers is the iteration order of the tree: increasing transaction id. */
  datatype Manager = Manager(contexts: map<Rnti, Tables>, triggers: seq<Trigger>)

  /** What the code asks of the radio side about a UE and its serving cell. */
  datatype Env = Env(
    bands: seq<nat>, eventsA4A5: bool, intraPeriodic: bool, interPeriodic: bool,
    siAcquisition: bool, servingFrequency: int, servingBand: nat)

  datatype Request = Request(tid: nat, rnti: Rnti, obj: ObjectRequest, report: ReportRequest)

  // ----- Building records from a request

  /** The full list of cell indices 1..32. */
  function AllIndices(n: nat): (s: seq<nat>)
    ensures |s| == n && forall i :: 0 <= i < n ==> s[i] == i + 1
  {
    seq(n, i requires 0 <= i < n => i + 1)
  }

  function CellsToAdd(cells: seq<CellRequest>): (s: seq<(nat, Cell)>)
    ensures |s| == |cells|
  {
    seq(|cells|, i requires 0 <= i < |cells| =>
      (i + 1, Cell(cells[i].pci, if cells[i].offset.has then cells[i].offset.value else OFFSET_DB0)))
  }

  function BlackToAdd(black: seq<BlackRequest>): (s: seq<(nat, BlackCell)>)
    ensures |s| == |black|
  {
    seq(|black|, i requires 0 <= i < |black| =>
      (i + 1, BlackCell(black[i].start, if black[i].range.has then black[i].range.value else RANGE_N4)))
  }

  /** Enumeration values of Q-OffsetRange dB0 and PhysCellIdRange n4 (section 6.3 of TS 36.331). */
  const OFFSET_DB0: int := 15
  const RANGE_N4: int := 0

  /** A non-empty cell list is sent as "remove 1..32, then add 1..n"; an empty one
      sends nothing at all. */
  function BuildObject(o: ObjectRequest, cgi: bool): (b: ObjectBody) {
    ObjectBody(o.carrier, o.bandwidth,
      if |o.cells| > 0 && cgi then Some(o.cells[0].pci) else None,
      if |o.cells| > 0 then AllIndices(MAX_CELLS) else [], CellsToAdd(o.cells),
      if |o.black| > 0 then AllIndices(MAX_CELLS) else [], BlackToAdd(o.black))
  }

  function Given(f: Field): int {
    if f.has then f.value else 0
  }

  function BuildReport(r: ReportRequest, siAcquisition: bool): (b: ReportBody) {
    var event := !r.kind.Periodical?;
    ReportBody(
      match r.kind
        case A3(offset, leave) => A3(offset, Field(true, if leave.has then 1 else 0))
        case k => k,
      IsCgi(r) && siAcquisition,
      if event then Given(r.hysteresis) else 0,
      if event then Given(r.timeToTrigger) else 0,
      Given(r.triggerQuantity), Given(r.reportQuantity), Given(r.maxCells),
      Given(r.interval), Given(r.amount))
  }

  // ----- emoai_RRC_meas_reconf

  predicate Holds(r: Option<IdRecord>, obj: nat) {
    r.Some? && r.value.objectId == obj
  }

  predicate Reports(r: Option<IdRecord>, report: nat) {
    r.Some? && r.value.reportId == report
  }

  function RefsToObject(ids: seq<Option<IdRecord>>, obj: nat): (n: nat)
    ensures n == 0 <==> forall i :: 0 <= i < |ids| ==> !Holds(ids[i], obj)
  {
    if ids == [] then 0
    else
      var last := |ids| - 1;
      assert forall i :: 0 <= i < last ==> ids[..last][i] == ids[i];
      RefsToObject(ids[..last], obj) + (if Holds(ids[last], obj) then 1 else 0)
  }

  function RefsToReport(ids: seq<Option<IdRecord>>, report: nat): (n: nat)
    ensures n == 0 <==> forall i :: 0 <= i < |ids| ==> !Reports(ids[i], report)
  {
    if ids == [] then 0
    else
      var last := |ids| - 1;
      assert forall i :: 0 <= i < last ==> ids[..last][i] == ids[i];
      RefsToReport(ids[..last], report) + (if Reports(ids[last], report) then 1 else 0)
  }

  /** Identities in a table are in range: the code indexes with them unchecked. */
  predicate InRange(t: Tables) {
    && Sized(t)
    && forall i :: 0 <= i < MAX_MEAS && t.ids[i].Some? ==>
         1 <= t.ids[i].value.objectId <= MAX_MEAS && 1 <= t.ids[i].value.reportId <= MAX_MEAS
  }

  datatype Outcome = Outcome(tables: Tables, sent: Option<Delta>)

  /** Removing a measurement: the MeasId goes, and its object and report
      configuration go too when no other MeasId refers to them. */
  function Release(t: Tables, measId: nat): (r: Outcome)
    requires InRange(t) && 1 <= measId <= MAX_MEAS
    ensures InRange(r.tables)
  {
    if t.ids[measId - 1].None? then Outcome(t, None)
    else
      var rec := t.ids[measId - 1].value;
      var ids := t.ids[measId - 1 := None];
      var dropObject := RefsToObject(ids, rec.objectId) == 0;
      var dropReport := RefsToReport(ids, rec.reportId) == 0;
      Outcome(
        Tables(ids,
          if dropObject then t.objects[rec.objectId - 1 := None] else t.objects,
          if dropReport then t.reports[rec.reportId - 1 := None] else t.reports),
        Some(Delta(
          if dropObject then [rec.objectId] else [], [],
          if dropReport then [rec.reportId] else [], [],
          [measId], [])))
  }

  /** Adding a measurement.  With no report type set, the MeasId and the object are
      already stored when the code gives up, and nothing is sent. */
  function Configure(t: Tables, id: IdRecord, o: ObjectRequest, r: ReportRequest, siAcquisition: bool): (out: Outcome)
    requires InRange(t)
    requires 1 <= id.measId <= MAX_MEAS && 1 <= id.objectId <= MAX_MEAS && 1 <= id.reportId <= MAX_MEAS
    ensures InRange(out.tables)
  {
    var mo := ObjectRecord(id.objectId, BuildObject(o, IsCgi(r)));
    var t1 := t.(ids := t.ids[id.measId - 1 := Some(id)], objects := t.objects[id.objectId - 1 := Some(mo)]);
    if r.kind.NotSet? then Outcome(t1, None)
    else
      var rc := ReportRecord(id.reportId, BuildReport(r, siAcquisition));
      Outcome(t1.(reports := t1.reports[id.reportId - 1 := Some(rc)]),
        Some(Delta([], [mo], [], [rc], [], [id])))
  }

  // ----- Validation of a request against the stored triggers

  /** Measurement bandwidth in 0.1 MHz: 1.4, 3, 5, 10, 15, 20 MHz. */
  function BandwidthOf(index: nat): nat {
    if index == 0 then 14 else if index == 1 then 30 else if index == 2 then 50
    else if index == 3 then 100 else if index == 4 then 150 else 200
  }

  /** The carrier lies in a band the UE supports, with room for the bandwidth. */
  predicate CarrierUsable(env: Env, o: ObjectRequest) {
    var tdd := BandIndex(TDD_BANDS, o.carrier);
    var fdd := BandIndex(FDD_BANDS, o.carrier);
    && (tdd != -1 || fdd != -1)
    && var band := if tdd != -1 then TDD_BANDS[tdd] else FDD_BANDS[fdd];
       var f := BandFrequency(band, o.carrier);
       var bw := BandwidthOf(o.bandwidth);
       && ((tdd != -1 && TDD_BANDS[tdd].number in env.bands) || (fdd != -1 && FDD_BANDS[fdd].number in env.bands))
       && bw <= band.width
       && 2 * f + bw <= 2 * (band.base + band.width)
       && 2 * band.base <= 2 * f - bw
  }

  predicate ObjectValid(env: Env, o: ObjectRequest) {
    o.hasBandwidth && o.hasCarrier && CarrierUsable(env, o) && |o.cells| <= MAX_CELLS && |o.black| <= MAX_CELLS
  }

  /** First trigger on the same physical frequency decides: the id of its object, or
      -1 if it uses another channel number; 0 if there is none. */
  function ScanObjects(triggers: seq<Trigger>, carrier: nat, freq: nat -> int): (r: int) {
    if triggers == [] then 0
    else
      var c := CompareCarriers(freq, carrier, triggers[0].obj.carrier);
      if c > 0 then triggers[0].objectId
      else if c == -1 then -1
      else ScanObjects(triggers[1..], carrier, freq)
  }

  function ValidateObject(m: Manager, env: Env, o: ObjectRequest): (r: int) {
    if !o.eutra then 0
    else if !ObjectValid(env, o) then -1
    else ScanObjects(m.triggers, o.carrier, Frequency)
  }

  /** Two thresholds clash only if both are of the same kind and differ. */
  predicate Clash(a: Threshold, b: Threshold) {
    (a.Rsrp? <==> b.Rsrp?) && a.level != b.level
  }

  predicate Differs(requested: Field, stored: Field) {
    requested.has && requested.value != stored.value
  }

  /** The code's notion of "the same report configuration". */
  predicate SameReport(q: ReportRequest, s: ReportRequest) {
    && !Differs(q.hysteresis, s.hysteresis) && !Differs(q.timeToTrigger, s.timeToTrigger)
    && !Differs(q.triggerQuantity, s.triggerQuantity) && !Differs(q.reportQuantity, s.reportQuantity)
    && !Differs(q.maxCells, s.maxCells) && !Differs(q.interval, s.interval) && !Differs(q.amount, s.amount)
    && match (q.kind, s.kind)
         case (Periodical(p), Periodical(p')) => p == p'
         case (A1(a), A1(b)) => !Clash(a, b)
         case (A2(a), A2(b)) => !Clash(a, b)
         case (A3(x, l), A3(x', l')) => x == x' && l.value == l'.value
         case (A4(a), A4(b)) => !Clash(a, b)
         case (A5(a, a2), A5(b, b2)) => !Clash(a, b) && !Clash(a2, b2)
         case (NotSet, NotSet) => true
         case _ => false
  }

  /** A report-CGI request is refused at the first stored trigger it meets. */
  function ScanReports(triggers: seq<Trigger>, r: ReportRequest): (k: int) {
    if triggers == [] then 0
    else if IsCgi(r) then -1
    else if SameReport(r, triggers[0].report) then triggers[0].reportId
    else ScanReports(triggers[1..], r)
  }

  /** The band number is only looked up for A1 and A2, so a periodical request is
      always checked as an inter-frequency one unless the serving band is 0. */
  predicate ReportValid(env: Env, carrier: nat, r: ReportRequest) {
    && (r.kind.A1? || r.kind.A2? ==> Frequency(carrier) != 0 && Frequency(carrier) == env.servingFrequency)
    && (r.hysteresis.has ==> 0 <= r.hysteresis.value <= 30)
    && (r.maxCells.has ==> 0 <= r.maxCells.value <= 8)
    && (r.kind.A4? || r.kind.A5? ==> env.eventsA4A5)
    && (r.kind.Periodical? ==> if env.servingBand == 0 then env.intraPeriodic else env.interPeriodic)
  }

  function ValidateReport(m: Manager, env: Env, carrier: nat, r: ReportRequest): (k: int) {
    if !r.eutra then 0
    else if !ReportValid(env, carrier, r) then -1
    else ScanReports(m.triggers, r)
  }

  // ----- The trigger tree

  function FirstFree<T>(s: seq<Option<T>>): (k: nat)
    ensures k <= |s|
    ensures k == 0 ==> forall i :: 0 <= i < |s| ==> s[i].Some?
    ensures k > 0 ==> s[k - 1].None? && forall i :: 0 <= i < k - 1 ==> s[i].Some?
  {
    if s == [] then 0
    else if s[0].None? then 1
    else
      var k := FirstFree(s[1..]);
      if k == 0 then 0 else k + 1
  }

  /** A second trigger under a stored transaction id is not inserted. */
  function Insert(triggers: seq<Trigger>, t: Trigger): (r: seq<Trigger>)
    ensures forall x :: x in triggers ==> x in r
    ensures forall x :: x in r ==> x == t || x in triggers
  {
    if triggers == [] then [t]
    else if t.tid < triggers[0].tid then [t] + triggers
    else if t.tid == triggers[0].tid then triggers
    else [triggers[0]] + Insert(triggers[1..], t)
  }

  /** Equal but for bandwidth and cell lists. */
  predicate Alike(a: Trigger, b: Trigger) {
    a == b.(obj := b.obj.(bandwidth := a.obj.bandwidth, cells := a.obj.cells, black := a.obj.black))
  }

  /** The first stored trigger of an object takes over the new cell lists. */
  function UpdateObject(triggers: seq<Trigger>, objectId: nat, o: ObjectRequest): (r: seq<Trigger>)
    ensures |r| == |triggers|
    ensures forall i :: 0 <= i < |r| ==> Alike(r[i], triggers[i])
  {
    if triggers == [] then []
    else if triggers[0].objectId == objectId then
      var t := triggers[0];
      [t.(obj := t.obj.(bandwidth := o.bandwidth, cells := o.cells, black := o.black))] + triggers[1..]
    else [triggers[0]] + UpdateObject(triggers[1..], objectId, o)
  }

  function Lookup(triggers: seq<Trigger>, rnti: Rnti, measId: nat): (r: Option<Trigger>)
    ensures r.Some? ==> r.value in triggers && r.value.rnti == rnti && r.value.measId == measId
    ensures r.None? ==> forall x :: x in triggers ==> !(x.rnti == rnti && x.measId == measId)
  {
    if triggers == [] then None
    else if triggers[0].rnti == rnti && triggers[0].measId == measId then Some(triggers[0])
    else Lookup(triggers[1..], rnti, measId)
  }

  function Without(triggers: seq<Trigger>, rnti: Rnti, measId: nat): (r: seq<Trigger>)
    ensures forall x :: x in r ==> x in triggers
    ensures forall x :: x in triggers && !(x.rnti == rnti && x.measId == measId) ==> x in r
  {
    if triggers == [] then []
    else if triggers[0].rnti == rnti && triggers[0].measId == measId then triggers[1..]
    else [triggers[0]] + Without(triggers[1..], rnti, measId)
  }

  function WithoutUe(triggers: seq<Trigger>, rnti: Rnti): seq<Trigger> {
    if triggers == [] then []
    else (if triggers[0].rnti == rnti then [] else [triggers[0]]) + WithoutUe(triggers[1..], rnti)
  }

  lemma {:induction false} WithoutUeExact(triggers: seq<Trigger>, rnti: Rnti)
    ensures forall x :: x in WithoutUe(triggers, rnti) <==> x in triggers && x.rnti != rnti
  {
    if triggers != [] {
      WithoutUeExact(triggers[1..], rnti);
    }
  }

  // ----- emoai_RRC_measurements

  /** Report-configuration defaults, loaded without touching the presence flags. */
  function WithDefaults(r: ReportRequest): ReportRequest {
    r.(hysteresis := Default(r.hysteresis, 0), triggerQuantity := Default(r.triggerQuantity, TRIGGER_RSRP),
       reportQuantity := Default(r.reportQuantity, QUANTITY_BOTH), maxCells := Default(r.maxCells, 2),
       interval := Default(r.interval, INTERVAL_MS5120), amount := Default(r.amount, AMOUNT_INFINITY))
  }

  function Default(f: Field, value: int): Field {
    if f.has then f else Field(false, value)
  }

  const TRIGGER_RSRP: int := 0
  const QUANTITY_BOTH: int := 1
  const INTERVAL_MS5120: int := 6
  const AMOUNT_INFINITY: int := 7

  /** Outcome of validating a request: per part -1 to refuse, 0 for a new entry, or
      the identity of the stored entry to reuse. */
  datatype Verdict = Verdict(obj: int, report: int)

  function Judge(m: Manager, env: Env, q: Request): (v: Verdict) {
    Verdict(ValidateObject(m, env, q.obj), ValidateReport(m, env, q.obj.carrier, q.report))
  }

  /** Stored identities are usable as table indices. */
  predicate ManagerInRange(m: Manager) {
    && (forall u :: u in m.contexts ==> InRange(m.contexts[u]))
    && (forall x :: x in m.triggers ==> TriggerInRange(x))
  }

  predicate TriggerInRange(x: Trigger) {
    1 <= x.measId <= MAX_MEAS && 1 <= x.objectId <= MAX_MEAS && 1 <= x.reportId <= MAX_MEAS
  }

  /** What every verdict guarantees about a request that it does not refuse. */
  predicate Sound(v: Verdict, q: Request) {
    && -1 <= v.obj <= MAX_MEAS && -1 <= v.report <= MAX_MEAS
    && (q.obj.eutra && v.obj != -1 ==> |q.obj.cells| <= MAX_CELLS && |q.obj.black| <= MAX_CELLS)
  }

  lemma {:induction false} ScansInRange(triggers: seq<Trigger>, carrier: nat, freq: nat -> int, r: ReportRequest)
    requires forall x :: x in triggers ==> TriggerInRange(x)
    ensures -1 <= ScanObjects(triggers, carrier, freq) <= MAX_MEAS
    ensures -1 <= ScanReports(triggers, r) <= MAX_MEAS
  {
    if triggers != [] {
      assert TriggerInRange(triggers[0]);
      ScansInRange(triggers[1..], carrier, freq, r);
    }
  }

  lemma JudgeSound(m: Manager, env: Env, q: Request)
    requires ManagerInRange(m)
    ensures Sound(Judge(m, env, q), q)
  {
    ScansInRange(m.triggers, q.obj.carrier, Frequency, q.report);
  }

  /** Not refused, and a measurement identity is free. */
  predicate Admitted(t: Tables, v: Verdict, q: Request) {
    q.obj.eutra && v.obj != -1 && v.report != -1 && FirstFree(t.ids) != 0
  }

  /** The identities given out: reused ones, else the first free slots; 0 is none. */
  function ObjectIdFor(t: Tables, v: Verdict): int {
    if v.obj == 0 then FirstFree(t.objects) else v.obj
  }

  function ReportIdFor(t: Tables, v: Verdict): int {
    if v.report == 0 then FirstFree(t.reports) else v.report
  }

  /** It also gets an object and a report configuration, so the UE is reconfigured. */
  predicate Configured(t: Tables, v: Verdict, q: Request) {
    Admitted(t, v, q) && ObjectIdFor(t, v) != 0 && ReportIdFor(t, v) != 0 && q.report.eutra
  }

  /** The record a configured request stores under its MeasId. */
  function RecordOf(t: Tables, v: Verdict, q: Request): (id: IdRecord)
    requires Sized(t) && Sound(v, q) && Configured(t, v, q)
    ensures 1 <= id.measId <= MAX_MEAS && 1 <= id.objectId <= MAX_MEAS && 1 <= id.reportId <= MAX_MEAS
    ensures t.ids[id.measId - 1].None?
    ensures v.obj > 0 ==> id.objectId == v.obj
    ensures v.obj == 0 ==> t.objects[id.objectId - 1].None?
    ensures v.report > 0 ==> id.reportId == v.report
    ensures v.report == 0 ==> t.reports[id.reportId - 1].None?
  {
    IdRecord(FirstFree(t.ids), ObjectIdFor(t, v), ReportIdFor(t, v))
  }

  function ConfigureFor(t: Tables, v: Verdict, q: Request, si: bool): (out: Outcome)
    requires InRange(t) && Sound(v, q) && Configured(t, v, q)
    ensures InRange(out.tables)
    ensures out.sent.Some? <==> !q.report.kind.NotSet?
  {
    Configure(t, RecordOf(t, v, q), q.obj, WithDefaults(q.report), si)
  }

  function TriggerOf(t: Tables, v: Verdict, q: Request): (x: Trigger)
    requires Sized(t) && Sound(v, q) && Configured(t, v, q)
    ensures TriggerInRange(x)
  {
    var id := RecordOf(t, v, q);
    Trigger(q.tid, q.rnti, id.measId, id.objectId, q.obj, id.reportId, WithDefaults(q.report))
  }

  /** The tables of the requesting UE after a judged request, and what is sent. */
  function TablesAfter(t: Tables, v: Verdict, q: Request, si: bool): (out: Outcome)
    requires InRange(t) && Sound(v, q)
    ensures InRange(out.tables)
  {
    if Configured(t, v, q) then ConfigureFor(t, v, q, si) else Outcome(t, None)
  }

  /** The trigger tree after a judged request. */
  function TriggersAfter(triggers: seq<Trigger>, t: Tables, v: Verdict, q: Request): (r: seq<Trigger>)
    requires Sized(t) && Sound(v, q)
  {
    var updated := if Admitted(t, v, q) && v.obj > 0 then UpdateObject(triggers, v.obj, q.obj) else triggers;
    if Configured(t, v, q) && !q.report.kind.NotSet? then Insert(updated, TriggerOf(t, v, q)) else updated
  }

  /** One message at most, to one UE. */
  datatype Step = Step(manager: Manager, sent: Option<Delta>)

  function HandleJudged(m: Manager, v: Verdict, q: Request, si: bool): (s: Step)
    requires ManagerInRange(m) && q.rnti in m.contexts && Sound(v, q)
    ensures ManagerInRange(s.manager)
  {
    var t := m.contexts[q.rnti];
    var out := TablesAfter(t, v, q, si);
    assert forall x :: x in TriggersAfter(m.triggers, t, v, q) ==> TriggerInRange(x) by {
      TriggersAfterInRange(m.triggers, t, v, q);
    }
    Step(Manager(m.contexts[q.rnti := out.tables], TriggersAfter(m.triggers, t, v, q)), out.sent)
  }

  lemma TriggersAfterInRange(triggers: seq<Trigger>, t: Tables, v: Verdict, q: Request)
    requires Sized(t) && Sound(v, q)
    requires forall x :: x in triggers ==> TriggerInRange(x)
    ensures forall x :: x in TriggersAfter(triggers, t, v, q) ==> TriggerInRange(x)
  {
    var updated := UpdateObject(triggers, if v.obj > 0 then v.obj else 0, q.obj);
    forall x | x in updated ensures TriggerInRange(x) {
      var i :| 0 <= i < |updated| && updated[i] == x;
      assert Alike(updated[i], triggers[i]) && triggers[i] in triggers;
    }
  }

  function HandleRequest(m: Manager, env: Env, q: Request): (s: Step)
    requires ManagerInRange(m) && q.rnti in m.contexts
    ensures ManagerInRange(s.manager)
  {
    JudgeSound(m, env, q);
    HandleJudged(m, Judge(m, env, q), q, env.siAcquisition)
  }

  /** A measurement report from the UE: a measurement the controller no longer wants
      is removed, together with its trigger. */
  function HandleReport(m: Manager, rnti: Rnti, measId: nat, agentKnows: bool): (s: Step)
    requires ManagerInRange(m) && 1 <= measId <= MAX_MEAS
    ensures ManagerInRange(s.manager)
  {
    var known := Lookup(m.triggers, rnti, measId);
    if known.Some? && agentKnows then Step(m, None)
    else
      var m1 := if known.Some? then m.(triggers := Without(m.triggers, rnti, measId)) else m;
      if rnti !in m.contexts then Step(m1, None)
      else
        var out := Release(m.contexts[rnti], measId);
        Step(m1.(contexts := m1.contexts[rnti := out.tables]), out.sent)
  }

  datatype Event =
    | Ask(env: Env, request: Request)
    | Report(rnti: Rnti, measId: nat, agentKnows: bool)
    | UeUp(rnti: Rnti)
    | UeDown(rnti: Rnti)

  /** The UE an event concerns. */
  function Ue(e: Event): Rnti {
    match e
    case Ask(_, q) => q.rnti
    case Report(u, _, _) => u
    case UeUp(u) => u
    case UeDown(u) => u
  }

  predicate Enabled(m: Manager, e: Event) {
    match e
    case Ask(_, q) => q.rnti in m.contexts
    case Report(u, k, _) => 1 <= k <= MAX_MEAS
    case UeUp(u) => u !in m.contexts
    case UeDown(u) => true
  }

  function Next(m: Manager, e: Event): (s: Step)
    requires ManagerInRange(m) && Enabled(m, e)
    ensures ManagerInRange(s.manager)
  {
    match e
    case Ask(env, q) => HandleRequest(m, env, q)
    case Report(u, k, knows) => HandleReport(m, u, k, knows)
    case UeUp(u) => Step(m.(contexts := m.contexts[u := NO_MEASUREMENTS]), None)
    case UeDown(u) =>
      WithoutUeExact(m.triggers, u);
      Step(Manager(m.contexts - {u}, WithoutUe(m.triggers, u)), None)
  }

  // ----- Runs

  ghost predicate ValidRun(m: Manager, es: seq<Event>)
    requires ManagerInRange(m)
    decreases |es|
  {
    es != [] ==> Enabled(m, es[0]) && ValidRun(Next(m, es[0]).manager, es[1..])
  }

  /** The state a run ends in; each prefix of a run is itself a run. */
  ghost function After(m: Manager, es: seq<Event>): (r: Manager)
    requires ManagerInRange(m) && ValidRun(m, es)
    ensures ManagerInRange(r)
    decreases |es|
  {
    if es == [] then m else After(Next(m, es[0]).manager, es[1..])
  }
}
