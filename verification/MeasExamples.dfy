/** Short runs in which the properties of the measurement manager fail, one for each
    condition that the theorems about all runs put on requests.
 */
module MeasExamples {
  import opened Options
  import opened MeasTypes
  import opened Bands
  import opened MeasEnb
  import opened MeasUe
  import opened MeasReplica
  import opened MeasIntegrity
  import opened MeasTriggers
  import opened MeasReports

  const UNSET := Field(false, 0)
  const ENV := Env([1], true, true, true, true, 0, 1)
  const CELL := CellRequest(7, UNSET)
  const PERIODIC := Periodical(OtherPurpose(0))
  const NEIGHBOUR := A3(0, UNSET)

  /** A request for a carrier of band 1, valid in ENV. */
  function Wants(tid: nat, u: Rnti, carrier: nat, cells: seq<CellRequest>, report: ReportRequest): Request {
    Request(tid, u, ObjectRequest(true, true, 2, true, carrier, cells, []), report)
  }

  function Reporting(kind: Kind, amount: Field): ReportRequest {
    ReportRequest(true, UNSET, UNSET, UNSET, UNSET, UNSET, UNSET, amount, kind)
  }

  function Asks(tid: nat, u: Rnti, carrier: nat, cells: seq<CellRequest>, kind: Kind): Request {
    Wants(tid, u, carrier, cells, Reporting(kind, UNSET))
  }

  predicate Example(q: Request) {
    && q == Wants(q.tid, q.rnti, q.obj.carrier, q.obj.cells, Reporting(q.report.kind, q.report.amount))
    && (q.obj.carrier == 100 || q.obj.carrier == 110) && |q.obj.cells| <= 1
    && (q.report.kind == PERIODIC || q.report.kind == NEIGHBOUR || q.report.kind == NotSet)
  }

  lemma Band1(carrier: nat)
    requires carrier == 100 || carrier == 110
    ensures BandIndex(FDD_BANDS, carrier) == 0 && BandIndex(TDD_BANDS, carrier) == -1
    ensures Frequency(carrier) == 21100 + carrier
  {
    assert forall i :: 0 <= i < |TDD_BANDS| ==> TDD_BANDS[i].low >= 36000;
    assert Covers(FDD_BANDS[0], carrier);
  }

  lemma Judged(m: Manager, q: Request)
    requires Example(q)
    ensures Judge(m, ENV, q) == Verdict(ScanObjects(m.triggers, q.obj.carrier, Frequency), ScanReports(m.triggers, q.report))
  {
    Band1(q.obj.carrier);
  }

  lemma FirstConfigured(v: Verdict, q: Request)
    requires Example(q) && v.obj == 0 && v.report >= 0
    ensures FirstFree(NO_MEASUREMENTS.ids) == FirstFree(NO_MEASUREMENTS.objects) == FirstFree(NO_MEASUREMENTS.reports) == 1
    ensures Configured(NO_MEASUREMENTS, v, q)
  {
  }

  /** The trigger of a request that was given measurement, object and report 1. */
  function FirstTrigger(q: Request): Trigger {
    Trigger(q.tid, q.rnti, 1, 1, q.obj, 1, WithDefaults(q.report))
  }

  /** The tables of a UE without measurements after such a request. */
  lemma FirstTables(v: Verdict, q: Request, si: bool)
    requires Sound(v, q) && Example(q) && v.obj == 0 && 0 <= v.report <= 1 && !q.report.kind.NotSet?
    ensures TriggerOf(NO_MEASUREMENTS, v, q) == FirstTrigger(q)
    ensures var t := TablesAfter(NO_MEASUREMENTS, v, q, si).tables;
      t.ids[1].None? && t.objects[0] == Some(ObjectRecord(1, BuildObject(q.obj, false)))
  {
    FirstConfigured(v, q);
  }

  /** A request of a UE without measurements that reuses no object, and at most report 1,
      becomes its measurement 1. */
  lemma FirstOfUe(m: Manager, q: Request)
    requires ManagerInRange(m) && q.rnti in m.contexts && m.contexts[q.rnti] == NO_MEASUREMENTS && Example(q)
    requires ScanObjects(m.triggers, q.obj.carrier, Frequency) == 0 && 0 <= ScanReports(m.triggers, q.report) <= 1
    ensures var v := Judge(m, ENV, q); Configured(NO_MEASUREMENTS, v, q) && v.obj == 0 && v.report <= 1
    ensures !q.report.kind.NotSet? ==>
      var m' := HandleRequest(m, ENV, q).manager;
      && m'.triggers == Insert(m.triggers, FirstTrigger(q))
      && m'.contexts == m.contexts[q.rnti := m'.contexts[q.rnti]]
      && m'.contexts[q.rnti].ids[1].None?
      && m'.contexts[q.rnti].objects[0] == Some(ObjectRecord(1, BuildObject(q.obj, false)))
  {
    Judged(m, q);
    JudgeSound(m, ENV, q);
    var v := Judge(m, ENV, q);
    FirstConfigured(v, q);
    if !q.report.kind.NotSet? {
      FirstTables(v, q, ENV.siAcquisition);
    }
  }

  function OneUeStart(): Manager {
    Manager(map[1 := NO_MEASUREMENTS], [])
  }

  lemma EmptyTables()
    ensures InRange(NO_MEASUREMENTS) && Tidy(NO_MEASUREMENTS) && CellsListed(NO_MEASUREMENTS)
  {
    AllFree(NO_MEASUREMENTS.ids);
    AllFree(NO_MEASUREMENTS.objects);
    AllFree(NO_MEASUREMENTS.reports);
  }

  lemma AllFree<T>(s: seq<Option<T>>)
    requires s == [None, None, None, None, None, None, None]
    ensures |s| == MAX_MEAS && forall i :: 0 <= i < |s| ==> s[i].None?
  {
  }

  lemma Starts(m: Manager)
    requires m.triggers == [] && forall u :: u in m.contexts ==> m.contexts[u] == NO_MEASUREMENTS
    ensures Kept(m) && AllListed(m)
    ensures CarriersKept(m, Frequency) && ReportsKept(m)
  {
    EmptyTables();
    assert forall i :: 0 <= i < |NO_MEASUREMENTS.ids| ==> NO_MEASUREMENTS.ids[i].None?;
    assert Matched(m);
  }

  /** The UEs' copies when all of them are in sync. */
  ghost function Copies(m: Manager): (ues: map<Rnti, VarMeas>)
    ensures InSync(m, ues)
  {
    map u | u in m.contexts :: Denote(m.contexts[u])
  }

  /** Without a report type the tables are half written and the UE is not told. */
  lemma NoReportType()
    ensures
      var m, e := OneUeStart(), Ask(ENV, Asks(1, 1, 100, [], NotSet));
      && Kept(m) && Enabled(m, e)
      && var s := Next(m, e); !AllTidy(s.manager) && !InSync(s.manager, Deliver(Copies(m), e, s))
  {
    var m := OneUeStart();
    var q := Asks(1, 1, 100, [], NotSet);
    Starts(m);
    FirstOfUe(m, q);
    Untyped(m, q);
  }

  lemma Untyped(m: Manager, q: Request)
    requires Kept(m) && AllListed(m) && q.rnti in m.contexts && q.report.kind.NotSet?
    requires Configured(m.contexts[q.rnti], Judge(m, ENV, q), q)
    ensures var e := Ask(ENV, q); var s := Next(m, e);
      !AllTidy(s.manager) && !InSync(s.manager, Deliver(Copies(m), e, s))
  {
    StepTidy(m, Ask(ENV, q));
    JudgeSound(m, ENV, q);
    StepInSync(m, Copies(m), Ask(ENV, q));
  }

  /** A request for the carrier and report of the first trigger reuses its object and its
      report configuration, and is configured if its UE has an identity left. */
  lemma Again(m: Manager, q1: Request, q: Request)
    requires ManagerInRange(m) && q.rnti in m.contexts && Example(q)
    requires m.triggers != [] && m.triggers[0] == FirstTrigger(q1) && m.contexts[q.rnti].ids[1].None?
    requires q.obj.carrier == q1.obj.carrier && SameReport(q.report, WithDefaults(q1.report))
    ensures var v := Judge(m, ENV, q);
      v == Verdict(1, 1) && Configured(m.contexts[q.rnti], v, q)
  {
    Judged(m, q);
    JudgeSound(m, ENV, q);
  }

  /** A UE measures carrier 100 with one cell listed; a second request for that carrier
      lists no cell.  The eNB records an empty list, the UE keeps the old one. */
  lemma StaleCells()
    ensures
      var m, e1, e2 :=
        OneUeStart(), Ask(ENV, Asks(1, 1, 100, [CELL], PERIODIC)), Ask(ENV, Asks(2, 1, 100, [], PERIODIC));
      && Kept(m) && Enabled(m, e1)
      && var m1 := Next(m, e1).manager;
         Enabled(m1, e2) && !InSync(Next(m1, e2).manager, Deliver(Copies(m1), e2, Next(m1, e2)))
  {
    var m := OneUeStart();
    var q1, q2 := Asks(1, 1, 100, [CELL], PERIODIC), Asks(2, 1, 100, [], PERIODIC);
    Starts(m);
    FirstOfUe(m, q1);
    NextListed(m, Ask(ENV, q1));
    var m1 := Next(m, Ask(ENV, q1)).manager;
    Again(m1, q1, q2);
    assert |m1.contexts[1].objects[0].value.body.cellsToAdd| == 1;
    Emptied(m1, q2);
  }

  lemma Emptied(m: Manager, q: Request)
    requires ManagerInRange(m) && AllListed(m) && q.rnti in m.contexts && q.obj.cells == []
    requires var t, v := m.contexts[q.rnti], Judge(m, ENV, q);
      Configured(t, v, q) && v.obj == 1 && t.objects[0].Some? && t.objects[0].value.body.cellsToAdd != []
    ensures var e := Ask(ENV, q);
      !InSync(Next(m, e).manager, Deliver(Copies(m), e, Next(m, e)))
  {
    JudgeSound(m, ENV, q);
    EmptiedUnsafe(m.contexts[q.rnti], Judge(m, ENV, q), q);
    assert !Safe(m, Ask(ENV, q));
    StepInSync(m, Copies(m), Ask(ENV, q));
  }

  lemma EmptiedUnsafe(t: Tables, v: Verdict, q: Request)
    requires InRange(t) && Sound(v, q) && Configured(t, v, q) && v.obj == 1 && q.obj.cells == []
    requires t.objects[0].Some? && t.objects[0].value.body.cellsToAdd != []
    ensures !SafeJudged(t, v, q)
  {
    assert BuildObject(q.obj, IsCgi(WithDefaults(q.report))).cellsToAdd == [];
  }

  /** The first request of a UE keeps everything. */
  lemma StepAll(m: Manager, q: Request)
    requires Kept(m) && CarriersKept(m, Frequency) && ReportsKept(m)
    requires q.rnti in m.contexts && m.contexts[q.rnti] == NO_MEASUREMENTS
    requires Fresh(m.triggers, q.tid) && !q.report.kind.NotSet?
    requires Judge(m, ENV, q).obj == 0 && Judge(m, ENV, q).report <= 1
    ensures var m' := Next(m, Ask(ENV, q)).manager;
      Kept(m') && CarriersKept(m', Frequency) && ReportsKept(m')
  {
    FirstSafe(m, q);
    StepKept(m, Ask(ENV, q));
    StepCarriers(m, Ask(ENV, q));
    StepReports(m, Ask(ENV, q));
  }

  lemma FirstSafe(m: Manager, q: Request)
    requires ManagerInRange(m) && q.rnti in m.contexts && m.contexts[q.rnti] == NO_MEASUREMENTS
    requires Fresh(m.triggers, q.tid) && !q.report.kind.NotSet?
    requires Judge(m, ENV, q).obj == 0 && Judge(m, ENV, q).report <= 1
    ensures var e := Ask(ENV, q); WellBehaved(m, e) && CarrierSafe(m, e) && ReportSafe(m, e)
  {
    JudgeSound(m, ENV, q);
  }

  /** UE 1 has a first measurement; further UEs have none. */
  ghost function FirstAsk(m: Manager, q: Request): (m': Manager)
    requires m.triggers == [] && forall u :: u in m.contexts ==> m.contexts[u] == NO_MEASUREMENTS
    requires q.rnti in m.contexts && Example(q) && !q.report.kind.NotSet?
    ensures m' == Next(m, Ask(ENV, q)).manager
    ensures Kept(m') && CarriersKept(m', Frequency) && ReportsKept(m')
    ensures m'.triggers == [FirstTrigger(q)] && m'.contexts == m.contexts[q.rnti := m'.contexts[q.rnti]]
    ensures m'.contexts[q.rnti].ids[1].None?
  {
    Starts(m);
    FirstOfUe(m, q);
    StepAll(m, q);
    Next(m, Ask(ENV, q)).manager
  }

  /** A second request under a stored transaction id is configured but gets no trigger. */
  lemma SameTransaction()
    ensures
      var m, e1, e2 :=
        OneUeStart(), Ask(ENV, Asks(1, 1, 100, [], PERIODIC)), Ask(ENV, Asks(1, 1, 100, [CELL], PERIODIC));
      && Kept(m) && Enabled(m, e1)
      && var m1 := Next(m, e1).manager;
         Kept(m1) && Enabled(m1, e2) && !Matched(Next(m1, e2).manager)
  {
    var q1, q2 := Asks(1, 1, 100, [], PERIODIC), Asks(1, 1, 100, [CELL], PERIODIC);
    Starts(OneUeStart());
    var m1 := FirstAsk(OneUeStart(), q1);
    Again(m1, q1, q2);
    assert m1.triggers[0] in m1.triggers;
    AskKept(m1, ENV, q2);
  }

  /** A UE has a periodical report with the amount given; a second request leaves the amount
      open.  The code takes the two for the same and overwrites the first. */
  lemma OneUeShares()
    ensures
      var m, e1, e2 :=
        OneUeStart(), Ask(ENV, Wants(1, 1, 100, [], Reporting(PERIODIC, Field(true, 3)))),
        Ask(ENV, Asks(2, 1, 100, [], PERIODIC));
      && Kept(m) && Enabled(m, e1)
      && var m1 := Next(m, e1).manager;
         Kept(m1) && ReportsKept(m1) && Enabled(m1, e2) &&
         Kept(Next(m1, e2).manager) && !ReportsKept(Next(m1, e2).manager)
  {
    var q1, q2 := Wants(1, 1, 100, [], Reporting(PERIODIC, Field(true, 3))), Asks(2, 1, 100, [], PERIODIC);
    Starts(OneUeStart());
    var m1 := FirstAsk(OneUeStart(), q1);
    Again(m1, q1, q2);
    StepKept(m1, Ask(ENV, q2));
    StepReports(m1, Ask(ENV, q2));
    SharedUnlike(m1, q1, q2);
  }

  lemma SharedUnlike(m: Manager, q1: Request, q: Request)
    requires ManagerInRange(m) && ReportsKept(m) && m.triggers == [FirstTrigger(q1)]
    requires q.rnti == q1.rnti && q.rnti in m.contexts
    requires Configured(m.contexts[q.rnti], Judge(m, ENV, q), q) && Judge(m, ENV, q).report > 0
    requires SameReport(q.report, WithDefaults(q1.report)) && !ReportsAlike(q.report, WithDefaults(q1.report))
    ensures !ReportSafe(m, Ask(ENV, q))
  {
    assert m.triggers[0].report == WithDefaults(q1.report);
    StepOneUeReports(m, Ask(ENV, q), q.rnti);
  }

  // ----- Two UEs

  const BOTH := Manager(map[1 := NO_MEASUREMENTS, 2 := NO_MEASUREMENTS], [])

  /** UE 1 measures carrier 100 periodically, then UE 2 carrier 110 with a report of its
      own kind: each as its own measurement, object and report 1. */
  ghost function TwoUesAsk(kind: Kind): (m: Manager)
    requires kind == PERIODIC || kind == NEIGHBOUR
    ensures Kept(m) && CarriersKept(m, Frequency) && ReportsKept(m)
    ensures m.triggers == [FirstTrigger(Asks(1, 1, 100, [], PERIODIC)), FirstTrigger(Asks(2, 2, 110, [], kind))]
    ensures 2 in m.contexts && m.contexts[2].ids[1].None?
  {
    var q1, q2 := Asks(1, 1, 100, [], PERIODIC), Asks(2, 2, 110, [], kind);
    var m := FirstAsk(BOTH, q1);
    OtherCarrier(FirstTrigger(q1), q2);
    SecondAsk(m, FirstTrigger(q1), q2);
    Next(m, Ask(ENV, q2)).manager
  }

  lemma SecondAsk(m: Manager, x: Trigger, q: Request)
    requires Kept(m) && CarriersKept(m, Frequency) && ReportsKept(m) && m.triggers == [x] && x.tid < q.tid
    requires q.rnti in m.contexts && m.contexts[q.rnti] == NO_MEASUREMENTS && Example(q) && !q.report.kind.NotSet?
    requires ScanObjects([x], q.obj.carrier, Frequency) == 0 && 0 <= ScanReports([x], q.report) <= 1
    ensures var m' := Next(m, Ask(ENV, q)).manager;
      && Kept(m') && CarriersKept(m', Frequency) && ReportsKept(m')
      && m'.triggers == [x, FirstTrigger(q)] && q.rnti in m'.contexts && m'.contexts[q.rnti].ids[1].None?
  {
    SecondStored(m, x, q);
    StepAll(m, q);
  }

  lemma SecondStored(m: Manager, x: Trigger, q: Request)
    requires ManagerInRange(m) && m.triggers == [x] && x.tid < q.tid
    requires q.rnti in m.contexts && m.contexts[q.rnti] == NO_MEASUREMENTS && Example(q) && !q.report.kind.NotSet?
    requires ScanObjects([x], q.obj.carrier, Frequency) == 0 && 0 <= ScanReports([x], q.report) <= 1
    ensures Judge(m, ENV, q).obj == 0 && Judge(m, ENV, q).report <= 1
    ensures var m' := HandleRequest(m, ENV, q).manager;
      m'.triggers == [x, FirstTrigger(q)] && q.rnti in m'.contexts && m'.contexts[q.rnti].ids[1].None?
  {
    FirstOfUe(m, q);
    Appended(x, FirstTrigger(q));
  }

  lemma Appended(x: Trigger, y: Trigger)
    requires x.tid < y.tid
    ensures Insert([x], y) == [x, y]
  {
    assert [x][1..] == [];
  }

  lemma OtherCarrier(x: Trigger, q: Request)
    requires x == FirstTrigger(Asks(1, 1, 100, [], PERIODIC)) && q.obj.carrier == 110 && !IsCgi(q.report)
    ensures ScanObjects([x], q.obj.carrier, Frequency) == 0 && 0 <= ScanReports([x], q.report) <= 1
  {
    Band1(100);
    Band1(110);
    assert [x][1..] == [];
  }

  /** When UE 2 is to measure carrier 100 as well, the scan finds the trigger of UE 1 and
      takes over object 1, so that UE 2 no longer measures carrier 110. */
  lemma TwoUes()
    ensures
      var m, e := TwoUesAsk(PERIODIC), Ask(ENV, Asks(3, 2, 100, [], PERIODIC));
      Kept(m) && CarriersKept(m, Frequency) && Enabled(m, e) &&
      Kept(Next(m, e).manager) && !CarriersKept(Next(m, e).manager, Frequency)
  {
    var m, q := TwoUesAsk(PERIODIC), Asks(3, 2, 100, [], PERIODIC);
    Again(m, Asks(1, 1, 100, [], PERIODIC), q);
    TakesObject(m, q, m.triggers[1]);
  }

  /** A request takes over object 1 while its own UE measures another carrier as object 1. */
  lemma TakesObject(m: Manager, q: Request, x: Trigger)
    requires Kept(m) && CarriersKept(m, Frequency) && q.rnti in m.contexts
    requires Judge(m, ENV, q).obj == 1 && Configured(m.contexts[q.rnti], Judge(m, ENV, q), q)
    requires Fresh(m.triggers, q.tid) && !q.report.kind.NotSet?
    requires x in m.triggers && x.rnti == q.rnti && x.objectId == 1 && x.obj.carrier != q.obj.carrier
    ensures var m' := Next(m, Ask(ENV, q)).manager;
      Kept(m') && !CarriersKept(m', Frequency)
  {
    assert OnCarrier(m.contexts, x);
    JudgeSound(m, ENV, q);
    StepKept(m, Ask(ENV, q));
    StepCarriers(m, Ask(ENV, q));
  }

  /** UE 2 has an A3 report as its own report 1.  When it is to report carrier 110
      periodically as well, the scan finds the periodical report of UE 1 and takes over
      report 1: the A3 configuration of UE 2 is overwritten under its live measurement,
      although the two periodical requests are equal and every object stays on its carrier. */
  lemma TwoUesShare()
    ensures
      var m, e := TwoUesAsk(NEIGHBOUR), Ask(ENV, Asks(3, 2, 110, [], PERIODIC));
      && Kept(m) && ReportsKept(m) && Enabled(m, e) && SharesAlike(m, e)
      && Kept(Next(m, e).manager) && CarriersKept(Next(m, e).manager, Frequency)
      && !ReportsKept(Next(m, e).manager)
  {
    var m, q := TwoUesAsk(NEIGHBOUR), Asks(3, 2, 110, [], PERIODIC);
    ThirdJudged(m, q);
    SharedBySame(m, Ask(ENV, q));
    TakesOver(m, q, m.triggers[1]);
  }

  lemma SharedBySame(m: Manager, e: Event)
    requires ManagerInRange(m) && Enabled(m, e) && e.Ask? && m.triggers != []
    requires m.triggers[0].report == WithDefaults(e.request.report) && e.request.report == Reporting(PERIODIC, UNSET)
    ensures SharesAlike(m, e)
  {
  }

  /** A periodical request takes over identities 1 from wherever the scan found them, while
      its own UE measures the carrier as object 1 and reports an event as report 1. */
  lemma TakesOver(m: Manager, q: Request, x: Trigger)
    requires Kept(m) && CarriersKept(m, Frequency) && ReportsKept(m) && q.rnti in m.contexts
    requires Judge(m, ENV, q) == Verdict(1, 1) && Configured(m.contexts[q.rnti], Verdict(1, 1), q)
    requires Fresh(m.triggers, q.tid) && q.report.kind.Periodical?
    requires x in m.triggers && x.rnti == q.rnti && x.objectId == x.reportId == 1
    requires x.obj.carrier == q.obj.carrier && x.report.kind.A3?
    ensures var m' := Next(m, Ask(ENV, q)).manager;
      Kept(m') && CarriersKept(m', Frequency) && !ReportsKept(m')
  {
    assert OnCarrier(m.contexts, x) && AsAsked(m.contexts, x);
    JudgeSound(m, ENV, q);
    StepKept(m, Ask(ENV, q));
    StepCarriers(m, Ask(ENV, q));
    StepReports(m, Ask(ENV, q));
  }

  lemma ThirdJudged(m: Manager, q: Request)
    requires m.triggers == [FirstTrigger(Asks(1, 1, 100, [], PERIODIC)), FirstTrigger(Asks(2, 2, 110, [], NEIGHBOUR))]
    requires ManagerInRange(m) && 2 in m.contexts && m.contexts[2].ids[1].None? && q == Asks(3, 2, 110, [], PERIODIC)
    ensures Judge(m, ENV, q) == Verdict(1, 1) && Configured(m.contexts[2], Verdict(1, 1), q)
  {
    ScansThird(m.triggers, q);
    Judged(m, q);
  }

  lemma ScansThird(s: seq<Trigger>, q: Request)
    requires s == [FirstTrigger(Asks(1, 1, 100, [], PERIODIC)), FirstTrigger(Asks(2, 2, 110, [], NEIGHBOUR))]
    requires q == Asks(3, 2, 110, [], PERIODIC)
    ensures ScanObjects(s, 110, Frequency) == 1 && ScanReports(s, q.report) == 1
  {
    Band1(100);
    Band1(110);
    assert s[1..][0] == s[1];
  }
}
