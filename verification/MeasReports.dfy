/** Shared report configurations over whole runs: what each measurement reports stays what
    its trigger asked for, exactly as long as no request reuses a report identity under
    which its UE reports something else.
 */
module MeasReports {
  import opened Options
  import opened MeasTypes
  import opened MeasEnb
  import opened MeasIntegrity
  import opened MeasTriggers

  /** Both are sent with the same value; a field that is not given is sent as 0. */
  predicate SentAlike(q: Field, s: Field) {
    q.has == s.has || (if q.has then q.value else s.value) == 0
  }

  predicate SameScale(a: Threshold, b: Threshold) {
    a.Rsrp? <==> b.Rsrp?
  }

  /** Thresholds on the same scale; for A3, report-on-leave given in both or in neither. */
  predicate KindsAlike(q: Kind, s: Kind) {
    match (q, s)
    case (A1(a), A1(b)) => SameScale(a, b)
    case (A2(a), A2(b)) => SameScale(a, b)
    case (A3(_, l), A3(_, l')) => l.has == l'.has
    case (A4(a), A4(b)) => SameScale(a, b)
    case (A5(a, a2), A5(b, b2)) => SameScale(a, b) && SameScale(a2, b2)
    case _ => true
  }

  predicate ReportsAlike(q: ReportRequest, s: ReportRequest) {
    && KindsAlike(q.kind, s.kind)
    && (!q.kind.Periodical? ==> SentAlike(q.hysteresis, s.hysteresis) && SentAlike(q.timeToTrigger, s.timeToTrigger))
    && SentAlike(q.triggerQuantity, s.triggerQuantity) && SentAlike(q.reportQuantity, s.reportQuantity)
    && SentAlike(q.maxCells, s.maxCells) && SentAlike(q.interval, s.interval) && SentAlike(q.amount, s.amount)
  }

  /** The code takes two report configurations for the same on weaker grounds than that they
      are sent alike. */
  lemma SentTheSame(q: ReportRequest, s: ReportRequest, si: bool)
    requires SameReport(q, s)
    ensures BuildReport(WithDefaults(q), si) == BuildReport(s, si) <==> ReportsAlike(q, s)
  {
    var a, b := BuildReport(WithDefaults(q), si), BuildReport(s, si);
    assert a.kind == b.kind <==> KindsAlike(q.kind, s.kind);
    assert a.triggerQuantity == b.triggerQuantity <==> SentAlike(q.triggerQuantity, s.triggerQuantity);
  }

  // ----- What a measurement reports is what its trigger asked for

  /** The stored record rc was built from request r for report identity k. */
  predicate Built(rc: Option<ReportRecord>, k: nat, r: ReportRequest) {
    rc.Some? && rc.value == ReportRecord(k, BuildReport(r, rc.value.body.siRequestForHO))
  }

  /** The trigger's report configuration, as stored for its UE, was built from the
      trigger's own request. */
  predicate AsAsked(contexts: map<Rnti, Tables>, x: Trigger) {
    Backed(contexts, x) && Built(contexts[x.rnti].reports[x.reportId - 1], x.reportId, x.report)
  }

  predicate ReportsKept(m: Manager) {
    forall x :: x in m.triggers ==> AsAsked(m.contexts, x)
  }

  lemma UpdateReports(m: Manager, k: nat, o: ObjectRequest)
    requires ReportsKept(m)
    ensures ReportsKept(m.(triggers := UpdateObject(m.triggers, k, o)))
  {
    forall x | x in UpdateObject(m.triggers, k, o) ensures AsAsked(m.contexts, x) {
      var i := UpdatedFrom(m.triggers, k, o, x);
      assert AsAsked(m.contexts, m.triggers[i]);
    }
  }

  /** t' is t with the measurement of trigger x stored, its report configuration being rc. */
  predicate StoresReport(t: Tables, t': Tables, x: Trigger, rc: ReportRecord) {
    && Sized(t) && Sized(t') && TriggerInRange(x)
    && t.ids[x.measId - 1].None? && Built(Some(rc), x.reportId, x.report)
    && t'.ids == t.ids[x.measId - 1 := Some(IdRecord(x.measId, x.objectId, x.reportId))]
    && t'.reports == t.reports[x.reportId - 1 := Some(rc)]
  }

  predicate FreeOr(stored: Option<ReportRecord>, rc: ReportRecord) {
    stored.None? || stored.value == rc
  }

  lemma KeepsReports(m: Manager, t': Tables, x: Trigger, rc: ReportRecord)
    requires ReportsKept(m) && x.rnti in m.contexts && StoresReport(m.contexts[x.rnti], t', x, rc)
    requires FreeOr(m.contexts[x.rnti].reports[x.reportId - 1], rc)
    ensures ReportsKept(Manager(m.contexts[x.rnti := t'], Insert(m.triggers, x)))
  {
    var contexts := m.contexts[x.rnti := t'];
    forall y | y in m.triggers ensures AsAsked(contexts, y) {
      assert AsAsked(m.contexts, y);
    }
    assert AsAsked(contexts, x);
  }

  /** A stored report configuration is in use by the measurement of some trigger. */
  lemma ReporterOf(m: Manager, u: Rnti, i: nat) returns (y: Trigger)
    requires Matched(m) && u in m.contexts && Sized(m.contexts[u]) && ReportsUsed(m.contexts[u])
    requires i < MAX_MEAS && m.contexts[u].reports[i].Some?
    ensures y in m.triggers && y.rnti == u && y.reportId == i + 1
  {
    var t := m.contexts[u];
    assert ReportUsed(t.ids, i + 1);
    var k :| 0 <= k < |t.ids| && Reports(t.ids[k], i + 1);
    LiveIsOwned(m, u, k + 1);
    y :| y in m.triggers && y.rnti == u && y.measId == k + 1;
    assert Backed(m.contexts, y);
  }

  /** Two requests behind one record: neither is a CGI request unless both are, so what
      else the record depends on does not matter. */
  lemma BuiltTwice(was: ReportRecord, rc: ReportRecord, k: nat, x: ReportRequest, y: ReportRequest)
    requires Built(Some(rc), k, x) && !IsCgi(x) && Built(Some(was), k, y) && Built(Some(rc), k, y)
    ensures was == rc
  {
    assert IsCgi(x) == IsCgi(y);
  }

  lemma BreaksReports(m: Manager, t': Tables, x: Trigger, rc: ReportRecord)
    requires Matched(m) && ReportsKept(m) && x.rnti in m.contexts && StoresReport(m.contexts[x.rnti], t', x, rc)
    requires ReportsUsed(m.contexts[x.rnti]) && !IsCgi(x.report)
    requires !FreeOr(m.contexts[x.rnti].reports[x.reportId - 1], rc)
    ensures !ReportsKept(Manager(m.contexts[x.rnti := t'], Insert(m.triggers, x)))
  {
    var y := ReporterOf(m, x.rnti, x.reportId - 1);
    var was := m.contexts[x.rnti].reports[x.reportId - 1];
    assert y in Insert(m.triggers, x) && AsAsked(m.contexts, y);
    if AsAsked(m.contexts[x.rnti := t'], y) {
      BuiltTwice(was.value, rc, x.reportId, x.report, y.report);
    }
  }

  /** The record that a configured request stores and sends. */
  function RecordSent(t: Tables, v: Verdict, q: Request, si: bool): ReportRecord
    requires Sized(t) && Sound(v, q) && Configured(t, v, q)
  {
    ReportRecord(RecordOf(t, v, q).reportId, BuildReport(WithDefaults(q.report), si))
  }

  /** A report identity taken over from a trigger is, in the requesting UE's own table,
      free or holds what is about to be sent. */
  predicate ReusesReport(t: Tables, v: Verdict, q: Request, si: bool)
    requires Sized(t) && Sound(v, q)
  {
    v.report > 0 ==>
      FreeOr(t.reports[v.report - 1], ReportRecord(v.report, BuildReport(WithDefaults(q.report), si)))
  }

  lemma ConfigureStoresReport(t: Tables, v: Verdict, q: Request, si: bool)
    requires InRange(t) && Sound(v, q) && Configured(t, v, q) && !q.report.kind.NotSet?
    ensures var x, rc := TriggerOf(t, v, q), RecordSent(t, v, q, si);
      && x.rnti == q.rnti && (IsCgi(x.report) <==> IsCgi(q.report))
      && StoresReport(t, ConfigureFor(t, v, q, si).tables, x, rc)
      && (FreeOr(t.reports[x.reportId - 1], rc) <==> ReusesReport(t, v, q, si))
  {
  }

  lemma ConfigureJudgedReports(m: Manager, v: Verdict, q: Request, si: bool)
    requires Matched(m) && ReportsKept(m) && q.rnti in m.contexts
    requires InRange(m.contexts[q.rnti]) && ReportsUsed(m.contexts[q.rnti])
    requires Sound(v, q) && Configured(m.contexts[q.rnti], v, q) && !q.report.kind.NotSet?
    requires v.report > 0 ==> !IsCgi(q.report)
    ensures var t := m.contexts[q.rnti];
      ReportsKept(Manager(m.contexts[q.rnti := ConfigureFor(t, v, q, si).tables], Insert(m.triggers, TriggerOf(t, v, q))))
      <==> ReusesReport(t, v, q, si)
  {
    var t := m.contexts[q.rnti];
    var t', x, rc := ConfigureFor(t, v, q, si).tables, TriggerOf(t, v, q), RecordSent(t, v, q, si);
    ConfigureStoresReport(t, v, q, si);
    if ReusesReport(t, v, q, si) {
      KeepsReports(m, t', x, rc);
    } else {
      BreaksReports(m, t', x, rc);
    }
  }

  lemma JudgedReports(m: Manager, v: Verdict, q: Request, si: bool)
    requires ManagerInRange(m) && Matched(m) && AllTidy(m) && ReportsKept(m)
    requires q.rnti in m.contexts && Sound(v, q) && (q.report.eutra && v.report > 0 ==> !IsCgi(q.report))
    requires Configured(m.contexts[q.rnti], v, q) ==> !q.report.kind.NotSet?
    ensures ReportsKept(HandleJudged(m, v, q, si).manager) <==>
      (Configured(m.contexts[q.rnti], v, q) ==> ReusesReport(m.contexts[q.rnti], v, q, si))
  {
    var t := m.contexts[q.rnti];
    var reuse := Admitted(t, v, q) && v.obj > 0;
    var m1 := m.(triggers := if reuse then UpdateObject(m.triggers, v.obj, q.obj) else m.triggers);
    if reuse {
      UpdateReports(m, v.obj, q.obj);
      UpdateMatched(m, v.obj, q.obj);
    }
    if Configured(t, v, q) {
      assert Tidy(t);
      ConfigureJudgedReports(m1, v, q, si);
    } else {
      assert m.contexts[q.rnti := t] == m.contexts;
    }
  }

  /** A release keeps the report configuration of every other measurement. */
  lemma ReleaseAsAsked(contexts: map<Rnti, Tables>, u: Rnti, k: nat, x: Trigger)
    requires u in contexts && Integral(contexts[u]) && 1 <= k <= MAX_MEAS && AsAsked(contexts, x)
    requires Backed(contexts[u := Release(contexts[u], k).tables], x)
    ensures AsAsked(contexts[u := Release(contexts[u], k).tables], x)
  {
    var t := contexts[u];
    if x.rnti == u && t.ids[k - 1].Some? {
      StillReferred(t, k, x.measId - 1);
    }
  }

  lemma ReportReports(m: Manager, u: Rnti, k: nat, knows: bool)
    requires ManagerInRange(m) && Matched(m) && AllTidy(m) && ReportsKept(m) && 1 <= k <= MAX_MEAS
    ensures ReportsKept(HandleReport(m, u, k, knows).manager)
  {
    var m' := HandleReport(m, u, k, knows).manager;
    assert Matched(m') by {
      ReportMatched(m, u, k, knows);
    }
    if m'.contexts != m.contexts {
      assert Tidy(m.contexts[u]);
      forall x | x in m'.triggers ensures AsAsked(m'.contexts, x) {
        assert AsAsked(m.contexts, x) && Backed(m'.contexts, x);
        ReleaseAsAsked(m.contexts, u, k, x);
      }
    }
  }

  lemma UeUpReports(m: Manager, w: Rnti)
    requires ReportsKept(m) && w !in m.contexts
    ensures ReportsKept(m.(contexts := m.contexts[w := NO_MEASUREMENTS]))
  {
    forall x | x in m.triggers ensures AsAsked(m.contexts[w := NO_MEASUREMENTS], x) {
      assert AsAsked(m.contexts, x);
    }
  }

  lemma UeDownReports(m: Manager, w: Rnti)
    requires ReportsKept(m)
    ensures ReportsKept(Manager(m.contexts - {w}, WithoutUe(m.triggers, w)))
  {
    WithoutUeExact(m.triggers, w);
    forall x | x in WithoutUe(m.triggers, w) ensures AsAsked(m.contexts - {w}, x) {
      assert AsAsked(m.contexts, x);
    }
  }

  // ----- Whole runs

  /** A configured request does not take over a report identity under which its UE
      reports something else. */
  predicate ReportSafe(m: Manager, e: Event)
    requires ManagerInRange(m) && Enabled(m, e)
  {
    e.Ask? ==>
      (JudgeSound(m, e.env, e.request);
       var t, v := m.contexts[e.request.rnti], Judge(m, e.env, e.request);
       Configured(t, v, e.request) ==> ReusesReport(t, v, e.request, e.env.siAcquisition))
  }

  ghost predicate AlwaysReportSafe(m: Manager, es: seq<Event>)
    requires ManagerInRange(m) && ValidRun(m, es)
    decreases |es|
  {
    es != [] ==> ReportSafe(m, es[0]) && AlwaysReportSafe(Next(m, es[0]).manager, es[1..])
  }

  ghost predicate AlwaysAsAsked(m: Manager, es: seq<Event>)
    requires ManagerInRange(m) && ValidRun(m, es)
    decreases |es|
  {
    ReportsKept(m) && (es != [] ==> AlwaysAsAsked(Next(m, es[0]).manager, es[1..]))
  }

  lemma StepReports(m: Manager, e: Event)
    requires Kept(m) && ReportsKept(m) && Enabled(m, e) && WellBehaved(m, e)
    ensures ReportsKept(Next(m, e).manager) <==> ReportSafe(m, e)
  {
    match e {
      case Ask(env, q) =>
        JudgeSound(m, env, q);
        JudgedReports(m, Judge(m, env, q), q, env.siAcquisition);
      case Report(u, k, knows) => ReportReports(m, u, k, knows);
      case UeUp(u) => UeUpReports(m, u);
      case UeDown(u) => UeDownReports(m, u);
    }
  }

  /** Every well-behaved run, any number of UEs: each trigger's stored report configuration
      stays the one built from its own request, if and only if every configured request
      finds its report identity, in its own UE's table, free or holding what it sends. */
  lemma {:induction false} ReportRuns(m: Manager, es: seq<Event>)
    requires Kept(m) && ReportsKept(m) && ValidRun(m, es) && WellBehavedRun(m, es)
    ensures AlwaysAsAsked(m, es) <==> AlwaysReportSafe(m, es)
    decreases |es|
  {
    if es != [] {
      StepKept(m, es[0]);
      StepReports(m, es[0]);
      if ReportSafe(m, es[0]) {
        ReportRuns(Next(m, es[0]).manager, es[1..]);
      }
    }
  }

  // ----- One UE

  /** The trigger whose report configuration the scan takes for the requested one. */
  function FirstSame(triggers: seq<Trigger>, r: ReportRequest): (x: Option<Trigger>)
    ensures x.Some? ==> x.value in triggers && SameReport(r, x.value.report)
  {
    if triggers == [] then None
    else if SameReport(r, triggers[0].report) then Some(triggers[0])
    else FirstSame(triggers[1..], r)
  }

  lemma {:induction false} ScanFindsSame(triggers: seq<Trigger>, r: ReportRequest)
    requires ScanReports(triggers, r) > 0
    ensures !IsCgi(r) && FirstSame(triggers, r).Some? && FirstSame(triggers, r).value.reportId == ScanReports(triggers, r)
  {
    if !SameReport(r, triggers[0].report) {
      ScanFindsSame(triggers[1..], r);
    }
  }

  /** A request that reuses a report configuration is sent like the one it reuses. */
  predicate SharesAlike(m: Manager, e: Event)
    requires ManagerInRange(m) && Enabled(m, e)
  {
    e.Ask? && Configured(m.contexts[e.request.rnti], Judge(m, e.env, e.request), e.request)
      && Judge(m, e.env, e.request).report > 0 ==>
      var x := FirstSame(m.triggers, e.request.report);
      x.Some? && ReportsAlike(e.request.report, x.value.report)
  }

  ghost predicate AlwaysSharesAlike(m: Manager, es: seq<Event>)
    requires ManagerInRange(m) && ValidRun(m, es)
    decreases |es|
  {
    es != [] ==> SharesAlike(m, es[0]) && AlwaysSharesAlike(Next(m, es[0]).manager, es[1..])
  }

  /** With one UE, the configuration found by the scan is that UE's own. */
  lemma OwnReport(t: Tables, k: int, q: ReportRequest, s: ReportRequest, si: bool)
    requires Sized(t) && 1 <= k <= MAX_MEAS && Built(t.reports[k - 1], k, s) && SameReport(q, s) && !IsCgi(q)
    ensures FreeOr(t.reports[k - 1], ReportRecord(k, BuildReport(WithDefaults(q), si))) <==> ReportsAlike(q, s)
  {
    assert !IsCgi(s);
    assert BuildReport(s, si) == BuildReport(s, t.reports[k - 1].value.body.siRequestForHO);
    SentTheSame(q, s, si);
  }

  lemma StepOneUeReports(m: Manager, e: Event, u: Rnti)
    requires ManagerInRange(m) && ReportsKept(m) && OneUe(m, u) && Enabled(m, e) && OnlyUe(e, u)
    ensures ReportSafe(m, e) <==> SharesAlike(m, e)
  {
    if e.Ask? {
      var q, v := e.request, Judge(m, e.env, e.request);
      JudgeSound(m, e.env, q);
      if q.report.eutra && v.report > 0 {
        ScanFindsSame(m.triggers, q.report);
        var x := FirstSame(m.triggers, q.report).value;
        assert AsAsked(m.contexts, x);
        OwnReport(m.contexts[u], v.report, q.report, x.report, e.env.siAcquisition);
      }
    }
  }

  /** With requests for one UE only, each trigger's stored report configuration stays its own
      if and only if every request that shares a stored one is sent like it; the code takes
      them for the same on weaker grounds. */
  lemma {:induction false} OneUeReportRuns(m: Manager, es: seq<Event>, u: Rnti)
    requires Kept(m) && ReportsKept(m) && OneUe(m, u)
    requires ValidRun(m, es) && WellBehavedRun(m, es) && forall e :: e in es ==> OnlyUe(e, u)
    ensures AlwaysAsAsked(m, es) <==> AlwaysSharesAlike(m, es)
    decreases |es|
  {
    if es != [] {
      assert es[0] in es;
      StepKept(m, es[0]);
      StepReports(m, es[0]);
      StaysOneUe(m, es[0], u);
      StepOneUeReports(m, es[0], u);
      if ReportSafe(m, es[0]) {
        assert forall e :: e in es[1..] ==> e in es;
        OneUeReportRuns(Next(m, es[0]).manager, es[1..], u);
      }
    }
  }
}
