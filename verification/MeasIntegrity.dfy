/** What every run of the measurement manager keeps: references between the tables
    resolve, and nothing is left that no measurement refers to.
 */
module MeasIntegrity {
  import opened Options
  import opened MeasTypes
  import opened MeasEnb

  // ----- Referential integrity and garbage collection

  /** Every entry carries its own identity and every reference resolves. */
  predicate Integral(t: Tables) {
    && InRange(t)
    && (forall i :: 0 <= i < MAX_MEAS && t.ids[i].Some? ==>
          var id := t.ids[i].value;
          id.measId == i + 1 && t.objects[id.objectId - 1].Some? && t.reports[id.reportId - 1].Some?)
    && (forall i :: 0 <= i < MAX_MEAS && t.objects[i].Some? ==> t.objects[i].value.objectId == i + 1)
    && (forall i :: 0 <= i < MAX_MEAS && t.reports[i].Some? ==> t.reports[i].value.reportId == i + 1)
  }

  predicate ObjectUsed(ids: seq<Option<IdRecord>>, k: nat) {
    exists j :: 0 <= j < |ids| && Holds(ids[j], k)
  }

  predicate ReportUsed(ids: seq<Option<IdRecord>>, k: nat) {
    exists j :: 0 <= j < |ids| && Reports(ids[j], k)
  }

  /** No object and no report configuration outlives its last measurement. */
  predicate ObjectsUsed(t: Tables) {
    forall i :: 0 <= i < |t.objects| && t.objects[i].Some? ==> ObjectUsed(t.ids, i + 1)
  }

  predicate ReportsUsed(t: Tables) {
    forall i :: 0 <= i < |t.reports| && t.reports[i].Some? ==> ReportUsed(t.ids, i + 1)
  }

  predicate Tidy(t: Tables) {
    Integral(t) && ObjectsUsed(t) && ReportsUsed(t)
  }

  lemma StillUsed(ids: seq<Option<IdRecord>>, j: nat, r: Option<IdRecord>, k: nat)
    requires j < |ids|
    requires ids[j].Some? && r.None? ==> ids[j].value.objectId != k
    requires ids[j].Some? ==> r.None?
    ensures ObjectUsed(ids, k) ==> ObjectUsed(ids[j := r], k)
  {
    if ObjectUsed(ids, k) {
      var i :| 0 <= i < |ids| && Holds(ids[i], k);
      assert Holds(ids[j := r][i], k);
    }
  }

  lemma StillReported(ids: seq<Option<IdRecord>>, j: nat, r: Option<IdRecord>, k: nat)
    requires j < |ids|
    requires ids[j].Some? && r.None? ==> ids[j].value.reportId != k
    requires ids[j].Some? ==> r.None?
    ensures ReportUsed(ids, k) ==> ReportUsed(ids[j := r], k)
  {
    if ReportUsed(ids, k) {
      var i :| 0 <= i < |ids| && Reports(ids[i], k);
      assert Reports(ids[j := r][i], k);
    }
  }

  lemma ReleaseIntegral(t: Tables, measId: nat)
    requires Integral(t) && 1 <= measId <= MAX_MEAS
    ensures Integral(Release(t, measId).tables)
  {
    if t.ids[measId - 1].Some? {
      var rec, r := t.ids[measId - 1].value, Release(t, measId).tables;
      forall i | 0 <= i < MAX_MEAS && r.ids[i].Some?
        ensures r.objects[r.ids[i].value.objectId - 1].Some? && r.reports[r.ids[i].value.reportId - 1].Some?
      {
        StillReferred(t, measId, i);
      }
    }
  }

  lemma StillReferred(t: Tables, measId: nat, i: nat)
    requires Integral(t) && 1 <= measId <= MAX_MEAS && t.ids[measId - 1].Some?
    requires i < MAX_MEAS && i != measId - 1 && t.ids[i].Some?
    ensures var r, id := Release(t, measId).tables, t.ids[i].value;
      r.objects[id.objectId - 1] == t.objects[id.objectId - 1] && r.reports[id.reportId - 1] == t.reports[id.reportId - 1]
  {
    var ids := t.ids[measId - 1 := None];
    assert Holds(ids[i], ids[i].value.objectId) && Reports(ids[i], ids[i].value.reportId);
  }

  lemma ReleaseObjectsUsed(t: Tables, measId: nat)
    requires InRange(t) && ObjectsUsed(t) && 1 <= measId <= MAX_MEAS
    ensures ObjectsUsed(Release(t, measId).tables)
  {
    if t.ids[measId - 1].Some? {
      var rec := t.ids[measId - 1].value;
      var ids := t.ids[measId - 1 := None];
      var objects := Release(t, measId).tables.objects;
      forall i | 0 <= i < MAX_MEAS && objects[i].Some? ensures ObjectUsed(ids, i + 1) {
        if i + 1 != rec.objectId {
          StillUsed(t.ids, measId - 1, None, i + 1);
        }
      }
    }
  }

  lemma ReleaseReportsUsed(t: Tables, measId: nat)
    requires InRange(t) && ReportsUsed(t) && 1 <= measId <= MAX_MEAS
    ensures ReportsUsed(Release(t, measId).tables)
  {
    if t.ids[measId - 1].Some? {
      var rec := t.ids[measId - 1].value;
      var ids := t.ids[measId - 1 := None];
      var reports := Release(t, measId).tables.reports;
      forall i | 0 <= i < MAX_MEAS && reports[i].Some? ensures ReportUsed(ids, i + 1) {
        if i + 1 != rec.reportId {
          StillReported(t.ids, measId - 1, None, i + 1);
        }
      }
    }
  }

  lemma ReleaseTidy(t: Tables, measId: nat)
    requires Tidy(t) && 1 <= measId <= MAX_MEAS
    ensures Tidy(Release(t, measId).tables)
  {
    ReleaseIntegral(t, measId);
    ReleaseObjectsUsed(t, measId);
    ReleaseReportsUsed(t, measId);
  }

  lemma ConfigureUsed(t: Tables, id: IdRecord, o: ObjectRequest, r: ReportRequest, si: bool)
    requires InRange(t) && ObjectsUsed(t) && ReportsUsed(t)
    requires 1 <= id.measId <= MAX_MEAS && 1 <= id.objectId <= MAX_MEAS && 1 <= id.reportId <= MAX_MEAS
    requires t.ids[id.measId - 1].None?
    ensures var t' := Configure(t, id, o, r, si).tables; ObjectsUsed(t') && ReportsUsed(t')
  {
    var ids := t.ids[id.measId - 1 := Some(id)];
    assert Holds(ids[id.measId - 1], id.objectId) && Reports(ids[id.measId - 1], id.reportId);
    forall k: nat | 1 <= k <= MAX_MEAS ensures ObjectUsed(t.ids, k) ==> ObjectUsed(ids, k) {
      StillUsed(t.ids, id.measId - 1, Some(id), k);
    }
    forall k: nat | 1 <= k <= MAX_MEAS ensures ReportUsed(t.ids, k) ==> ReportUsed(ids, k) {
      StillReported(t.ids, id.measId - 1, Some(id), k);
    }
  }

  lemma ConfigureIntegral(t: Tables, id: IdRecord, o: ObjectRequest, r: ReportRequest, si: bool)
    requires Integral(t)
    requires 1 <= id.measId <= MAX_MEAS && 1 <= id.objectId <= MAX_MEAS && 1 <= id.reportId <= MAX_MEAS
    ensures Integral(Configure(t, id, o, r, si).tables) <==> (r.kind.NotSet? ==> t.reports[id.reportId - 1].Some?)
  {
    var t' := Configure(t, id, o, r, si).tables;
    assert t'.ids[id.measId - 1] == Some(id);
  }

  /** The half-written state of a request without a report type is the only damage an
      addition can do. */
  lemma ConfigureTidy(t: Tables, id: IdRecord, o: ObjectRequest, r: ReportRequest, si: bool)
    requires Tidy(t)
    requires 1 <= id.measId <= MAX_MEAS && 1 <= id.objectId <= MAX_MEAS && 1 <= id.reportId <= MAX_MEAS
    requires t.ids[id.measId - 1].None?
    ensures Tidy(Configure(t, id, o, r, si).tables) <==> (r.kind.NotSet? ==> t.reports[id.reportId - 1].Some?)
  {
    ConfigureUsed(t, id, o, r, si);
    ConfigureIntegral(t, id, o, r, si);
  }

  predicate AllTidy(m: Manager) {
    forall u :: u in m.contexts ==> Tidy(m.contexts[u])
  }

  /** Every stored trigger has a report type. */
  predicate AllTyped(triggers: seq<Trigger>) {
    forall x :: x in triggers ==> !x.report.kind.NotSet?
  }

  /** The event does not reconfigure a UE without a report type. */
  predicate Typed(m: Manager, e: Event)
    requires ManagerInRange(m) && Enabled(m, e)
  {
    e.Ask? && Configured(m.contexts[e.request.rnti], Judge(m, e.env, e.request), e.request) ==>
      !e.request.report.kind.NotSet?
  }

  lemma {:induction false} UntypedIsNew(triggers: seq<Trigger>, r: ReportRequest)
    requires AllTyped(triggers) && r.kind.NotSet?
    ensures ScanReports(triggers, r) == 0
  {
    if triggers != [] {
      assert triggers[0] in triggers;
      UntypedIsNew(triggers[1..], r);
    }
  }

  lemma JudgedTyped(triggers: seq<Trigger>, t: Tables, v: Verdict, q: Request)
    requires Sized(t) && Sound(v, q) && AllTyped(triggers)
    ensures AllTyped(TriggersAfter(triggers, t, v, q))
  {
    var updated := UpdateObject(triggers, if v.obj > 0 then v.obj else 0, q.obj);
    forall x | x in updated ensures !x.report.kind.NotSet? {
      var i :| 0 <= i < |updated| && updated[i] == x;
      assert Alike(updated[i], triggers[i]) && triggers[i] in triggers;
    }
  }

  lemma NextTyped(m: Manager, e: Event)
    requires ManagerInRange(m) && Enabled(m, e) && AllTyped(m.triggers)
    ensures AllTyped(Next(m, e).manager.triggers)
  {
    if e.UeDown? {
      WithoutUeExact(m.triggers, e.rnti);
    }
    if e.Ask? {
      JudgeSound(m, e.env, e.request);
      JudgedTyped(m.triggers, m.contexts[e.request.rnti], Judge(m, e.env, e.request), e.request);
    }
  }

  lemma TablesAfterTidy(t: Tables, v: Verdict, q: Request, si: bool)
    requires Tidy(t) && Sound(v, q) && (q.report.eutra && q.report.kind.NotSet? ==> v.report <= 0)
    ensures Tidy(TablesAfter(t, v, q, si).tables) <==> (Configured(t, v, q) ==> !q.report.kind.NotSet?)
  {
    if Configured(t, v, q) {
      ConfigureTidy(t, RecordOf(t, v, q), q.obj, WithDefaults(q.report), si);
    }
  }

  lemma JudgedTidy(m: Manager, v: Verdict, q: Request, si: bool)
    requires ManagerInRange(m) && AllTidy(m) && q.rnti in m.contexts && Sound(v, q)
    requires q.report.eutra && q.report.kind.NotSet? ==> v.report <= 0
    ensures AllTidy(HandleJudged(m, v, q, si).manager) <==>
      (Configured(m.contexts[q.rnti], v, q) ==> !q.report.kind.NotSet?)
  {
    var t := m.contexts[q.rnti];
    TablesAfterTidy(t, v, q, si);
    OthersTidy(m, q.rnti, TablesAfter(t, v, q, si).tables, HandleJudged(m, v, q, si).manager);
  }

  lemma OthersTidy(m: Manager, u: Rnti, t: Tables, m': Manager)
    requires AllTidy(m) && m'.contexts == m.contexts[u := t]
    ensures AllTidy(m') <==> Tidy(t)
  {
    assert m'.contexts[u] == t;
  }

  lemma StepTidy(m: Manager, e: Event)
    requires ManagerInRange(m) && Enabled(m, e) && AllTidy(m) && AllTyped(m.triggers)
    ensures AllTidy(Next(m, e).manager) <==> Typed(m, e)
  {
    match e {
      case Ask(env, q) =>
        JudgeSound(m, env, q);
        if q.report.kind.NotSet? {
          UntypedIsNew(m.triggers, q.report);
        }
        JudgedTidy(m, Judge(m, env, q), q, env.siAcquisition);
      case Report(u, k, knows) =>
        ReportTidy(m, u, k, knows);
      case UeUp(u) =>
        assert Tidy(NO_MEASUREMENTS);
      case UeDown(u) =>
    }
  }

  lemma ReportTidy(m: Manager, u: Rnti, k: nat, knows: bool)
    requires ManagerInRange(m) && AllTidy(m) && 1 <= k <= MAX_MEAS
    ensures AllTidy(HandleReport(m, u, k, knows).manager)
  {
    if u in m.contexts {
      ReleaseTidy(m.contexts[u], k);
    }
  }

  ghost predicate AlwaysTidy(m: Manager, es: seq<Event>)
    requires ManagerInRange(m) && ValidRun(m, es)
    decreases |es|
  {
    AllTidy(m) && (es != [] ==> AlwaysTidy(Next(m, es[0]).manager, es[1..]))
  }

  ghost predicate AlwaysTyped(m: Manager, es: seq<Event>)
    requires ManagerInRange(m) && ValidRun(m, es)
    decreases |es|
  {
    es != [] ==> Typed(m, es[0]) && AlwaysTyped(Next(m, es[0]).manager, es[1..])
  }

  /** Every run, any number of UEs: the tables stay tidy after every event if and only
      if no configured request lacks a report type. */
  lemma {:induction false} TidyRuns(m: Manager, es: seq<Event>)
    requires ManagerInRange(m) && ValidRun(m, es) && AllTidy(m) && AllTyped(m.triggers)
    ensures AlwaysTidy(m, es) <==> AlwaysTyped(m, es)
    decreases |es|
  {
    if es != [] {
      StepTidy(m, es[0]);
      NextTyped(m, es[0]);
      if Typed(m, es[0]) {
        TidyRuns(Next(m, es[0]).manager, es[1..]);
      }
    }
  }
}
