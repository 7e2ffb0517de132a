/** Replica agreement: the eNB stores a measurement configuration per UE and sends
    the UE only changes.  This module says what configuration the eNB's tables stand
    for, and proves exactly when every UE holds that configuration after every step
    of a run.
 */
module MeasReplica {
  import opened Options
  import opened MeasTypes
  import opened MeasEnb
  import opened MeasUe

  // ----- What the eNB's tables stand for

  /** The configuration the eNB believes the UE to have. */
  ghost function Denote(t: Tables): VarMeas {
    VarMeas(DenoteIds(t.ids), DenoteObjects(t.objects), DenoteReports(t.reports))
  }

  ghost function DenoteIds(ids: seq<Option<IdRecord>>): map<nat, (nat, nat)> {
    map i: nat | 1 <= i <= |ids| && Live(ids, i) :: (At(ids, i).objectId, At(ids, i).reportId)
  }

  ghost function DenoteObjects(objects: seq<Option<ObjectRecord>>): map<nat, UeObject> {
    map i: nat | 1 <= i <= |objects| && Live(objects, i) :: NewObject(At(objects, i).body)
  }

  ghost function DenoteReports(reports: seq<Option<ReportRecord>>): map<nat, ReportBody> {
    map i: nat | 1 <= i <= |reports| && Live(reports, i) :: At(reports, i).body
  }

  lemma DenoteId(ids: seq<Option<IdRecord>>, k: nat, id: IdRecord)
    requires 1 <= k <= |ids|
    ensures DenoteIds(ids[k - 1 := Some(id)]) == DenoteIds(ids)[k := (id.objectId, id.reportId)]
  {
  }

  lemma DenoteObject(objects: seq<Option<ObjectRecord>>, k: nat, mo: ObjectRecord)
    requires 1 <= k <= |objects|
    ensures DenoteObjects(objects[k - 1 := Some(mo)]) == DenoteObjects(objects)[k := NewObject(mo.body)]
  {
  }

  lemma DenoteReport(reports: seq<Option<ReportRecord>>, k: nat, rc: ReportRecord)
    requires 1 <= k <= |reports|
    ensures DenoteReports(reports[k - 1 := Some(rc)]) == DenoteReports(reports)[k := rc.body]
  {
  }

  lemma DropId(ids: seq<Option<IdRecord>>, k: nat)
    requires 1 <= k <= |ids|
    ensures DenoteIds(ids[k - 1 := None]) == DenoteIds(ids) - {k}
  {
  }

  lemma DropObject(objects: seq<Option<ObjectRecord>>, k: nat)
    requires 1 <= k <= |objects|
    ensures DenoteObjects(objects[k - 1 := None]) == DenoteObjects(objects) - {k}
  {
  }

  lemma DropReport(reports: seq<Option<ReportRecord>>, k: nat)
    requires 1 <= k <= |reports|
    ensures DenoteReports(reports[k - 1 := None]) == DenoteReports(reports) - {k}
  {
  }

  predicate Live<T>(s: seq<Option<T>>, i: nat) {
    1 <= i <= |s| && s[i - 1].Some?
  }

  function At<T>(s: seq<Option<T>>, i: nat): T
    requires Live(s, i)
  {
    s[i - 1].value
  }

  predicate Listed<T>(entries: seq<(nat, T)>) {
    |entries| <= MAX_CELLS && forall i :: 0 <= i < |entries| ==> entries[i].0 == i + 1
  }

  /** Stored cell lists number their cells 1, 2, ... and hold at most 32. */
  predicate CellsListed(t: Tables) {
    forall i :: 0 <= i < |t.objects| && t.objects[i].Some? ==>
      Listed(t.objects[i].value.body.cellsToAdd) && Listed(t.objects[i].value.body.blackToAdd)
  }

  lemma {:induction false} AddAllKeys<T>(m: map<nat, T>, entries: seq<(nat, T)>, k: nat)
    requires forall i :: 0 <= i < |entries| ==> 1 <= entries[i].0 <= k
    ensures forall x :: x in AddAll(m, entries) ==> x in m || 1 <= x <= k
    ensures forall x :: x in m ==> x in AddAll(m, entries)
    ensures entries != [] ==> entries[0].0 in AddAll(m, entries)
    decreases |entries|
  {
    if entries != [] {
      AddAllKeys(m[entries[0].0 := entries[0].1], entries[1..], k);
    }
  }

  // ----- One message

  /** Replacing the stored lists leaves no old cell behind: the list sent is not
      empty, or there was nothing to replace. */
  predicate Replaces<T>(stored: seq<(nat, T)>, sent: seq<(nat, T)>) {
    stored == [] || sent != []
  }

  predicate ObjectReplaced(stored: ObjectBody, sent: ObjectBody) {
    && Replaces(stored.cellsToAdd, sent.cellsToAdd)
    && Replaces(stored.blackToAdd, sent.blackToAdd)
    && (stored.cgiCell.Some? ==> sent.cgiCell.Some?)
  }

  /** "Remove 1..32, then add 1..n" gives the same list as a fresh entry exactly if
      something was sent or nothing was stored. */
  lemma ListReplaced<T>(stored: seq<(nat, T)>, sent: seq<(nat, T)>)
    requires Listed(stored)
    ensures var removed := if sent == [] then [] else AllIndices(MAX_CELLS);
      AddAll(RemoveAll(AddAll(map[], stored), removed), sent) == AddAll(map[], sent) <==> Replaces(stored, sent)
  {
    var had := AddAll<T>(map[], stored);
    AddAllKeys<T>(map[], stored, MAX_CELLS);
    if sent != [] {
      var all := AllIndices(MAX_CELLS);
      forall x | x in had ensures x in all {
        assert all[x - 1] == x;
      }
      assert RemoveAll(had, all) == map[];
    } else if stored != [] {
      assert stored[0].0 in had;
      assert had != map[];
    }
  }

  lemma ObjectReplacedExactly(stored: ObjectBody, o: ObjectRequest, cgi: bool)
    requires Listed(stored.cellsToAdd) && Listed(stored.blackToAdd)
    ensures var sent := BuildObject(o, cgi);
      ModifyObject(NewObject(stored), sent) == NewObject(sent) <==> ObjectReplaced(stored, sent)
  {
    var sent := BuildObject(o, cgi);
    ListReplaced(stored.cellsToAdd, sent.cellsToAdd);
    ListReplaced(stored.blackToAdd, sent.blackToAdd);
  }

  /** The UE's state after a release message, by the formula of ReceiveRelease. */
  ghost function AfterRelease(v: VarMeas, d: Delta): VarMeas
    requires |d.idsToRemove| == 1
  {
    var v1 := if d.objectsToRemove == [] then v else RemoveObject(v, d.objectsToRemove[0]);
    var v2 := if d.reportsToRemove == [] then v1 else RemoveReport(v1, d.reportsToRemove[0]);
    v2.(ids := v2.ids - {d.idsToRemove[0]})
  }

  lemma ReleaseDenotes(t: Tables, measId: nat)
    requires InRange(t) && Live(t.ids, measId)
    ensures var out := Release(t, measId); Denote(out.tables) == AfterRelease(Denote(t), out.sent.value)
  {
    OnlyRefGoes(t, measId);
    OnlyOwnIdGoes(Denote(t), Release(t, measId).sent.value, measId);
    ReleaseParts(t, measId);
  }

  /** The three tables after a release, one by one. */
  lemma ReleaseParts(t: Tables, measId: nat)
    requires InRange(t) && Live(t.ids, measId)
    ensures var out := Release(t, measId);
      var d := out.sent.value;
      && DenoteIds(out.tables.ids) == DenoteIds(t.ids) - {measId}
      && DenoteObjects(out.tables.objects) == Less(DenoteObjects(t.objects), d.objectsToRemove)
      && DenoteReports(out.tables.reports) == Less(DenoteReports(t.reports), d.reportsToRemove)
  {
    var rec := t.ids[measId - 1].value;
    DropId(t.ids, measId);
    DropObject(t.objects, rec.objectId);
    DropReport(t.reports, rec.reportId);
  }

  ghost function Less<T>(m: map<nat, T>, ids: seq<nat>): map<nat, T> {
    if ids == [] then m else m - {ids[0]}
  }

  /** Implied removals take no measId but the one released. */
  lemma OnlyOwnIdGoes(v: VarMeas, d: Delta, measId: nat)
    requires |d.objectsToRemove| <= 1 && |d.reportsToRemove| <= 1 && d.idsToRemove == [measId]
    requires forall i :: i in v.ids && i != measId ==> v.ids[i].0 !in d.objectsToRemove && v.ids[i].1 !in d.reportsToRemove
    ensures AfterRelease(v, d) ==
      VarMeas(v.ids - {measId}, Less(v.objects, d.objectsToRemove), Less(v.reports, d.reportsToRemove))
  {
    var v1 := if d.objectsToRemove == [] then v else RemoveObject(v, d.objectsToRemove[0]);
    assert v1.objects == Less(v.objects, d.objectsToRemove);
    assert v1.ids - {measId} == v.ids - {measId};
    var v2 := if d.reportsToRemove == [] then v1 else RemoveReport(v1, d.reportsToRemove[0]);
    assert v2.reports == Less(v.reports, d.reportsToRemove);
    assert v2.ids - {measId} == v.ids - {measId};
  }

  /** The UE releases exactly what the eNB released, whatever else is configured. */
  lemma ReleaseAgrees(t: Tables, measId: nat)
    requires InRange(t) && 1 <= measId <= MAX_MEAS
    ensures var out := Release(t, measId);
      Denote(out.tables) == if out.sent.Some? then Receive(Denote(t), out.sent.value) else Denote(t)
  {
    if Live(t.ids, measId) {
      ReleaseDenotes(t, measId);
      ReceiveRelease(Denote(t), Release(t, measId).sent.value);
    }
  }

  /** An entry is dropped only if the released MeasId was its only user. */
  lemma OnlyRefGoes(t: Tables, measId: nat)
    requires InRange(t) && Live(t.ids, measId)
    ensures var d, v := Release(t, measId).sent.value, Denote(t);
      forall i :: i in v.ids && i != measId ==> v.ids[i].0 !in d.objectsToRemove && v.ids[i].1 !in d.reportsToRemove
  {
    var ids := t.ids[measId - 1 := None];
    var v := Denote(t);
    var rec := t.ids[measId - 1].value;
    forall i | i in v.ids && i != measId
      ensures RefsToObject(ids, rec.objectId) == 0 ==> v.ids[i].0 != rec.objectId
      ensures RefsToReport(ids, rec.reportId) == 0 ==> v.ids[i].1 != rec.reportId
    {
      assert ids[i - 1] == t.ids[i - 1];
    }
  }

  /** The report type is set, and no old cell survives in a reused object. */
  predicate Harmless(t: Tables, id: IdRecord, o: ObjectRequest, r: ReportRequest)
    requires InRange(t) && 1 <= id.objectId <= MAX_MEAS
  {
    var stored := t.objects[id.objectId - 1];
    !r.kind.NotSet? && (stored.Some? ==> ObjectReplaced(stored.value.body, BuildObject(o, IsCgi(r))))
  }

  lemma ConfigureDenotes(t: Tables, id: IdRecord, o: ObjectRequest, r: ReportRequest, si: bool)
    requires InRange(t) && CellsListed(t) && !r.kind.NotSet?
    requires 1 <= id.measId <= MAX_MEAS && 1 <= id.objectId <= MAX_MEAS && 1 <= id.reportId <= MAX_MEAS
    ensures
      var mo, rc := ObjectRecord(id.objectId, BuildObject(o, IsCgi(r))), ReportRecord(id.reportId, BuildReport(r, si));
      var v := Denote(t);
      Denote(Configure(t, id, o, r, si).tables) ==
        VarMeas(v.ids[id.measId := (id.objectId, id.reportId)], AddObject(v, mo).objects, v.reports[rc.reportId := rc.body])
      <==> Harmless(t, id, o, r)
  {
    var mo, rc := ObjectRecord(id.objectId, BuildObject(o, IsCgi(r))), ReportRecord(id.reportId, BuildReport(r, si));
    var t' := Configure(t, id, o, r, si).tables;
    AddedObjectAgrees(t, mo, t', o, r);
    StoredDenotes(t, t', id, rc);
  }

  lemma StoredDenotes(t: Tables, t': Tables, id: IdRecord, rc: ReportRecord)
    requires Sized(t) && 1 <= id.measId <= MAX_MEAS && 1 <= rc.reportId <= MAX_MEAS
    requires t'.ids == t.ids[id.measId - 1 := Some(id)] && t'.reports == t.reports[rc.reportId - 1 := Some(rc)]
    ensures Denote(t').ids == Denote(t).ids[id.measId := (id.objectId, id.reportId)]
    ensures Denote(t').reports == Denote(t).reports[rc.reportId := rc.body]
  {
    DenoteId(t.ids, id.measId, id);
    DenoteReport(t.reports, rc.reportId, rc);
  }

  /** After adding a measurement the UE agrees exactly if the request was harmless. */
  lemma ConfigureAgrees(t: Tables, id: IdRecord, o: ObjectRequest, r: ReportRequest, si: bool)
    requires InRange(t) && CellsListed(t)
    requires 1 <= id.measId <= MAX_MEAS && 1 <= id.objectId <= MAX_MEAS && 1 <= id.reportId <= MAX_MEAS
    requires t.ids[id.measId - 1].None?
    ensures var out := Configure(t, id, o, r, si);
      Denote(out.tables) == (if out.sent.Some? then Receive(Denote(t), out.sent.value) else Denote(t))
      <==> Harmless(t, id, o, r)
  {
    if r.kind.NotSet? {
      DenoteId(t.ids, id.measId, id);
      assert id.measId !in DenoteIds(t.ids);
    } else {
      var mo, rc := ObjectRecord(id.objectId, BuildObject(o, IsCgi(r))), ReportRecord(id.reportId, BuildReport(r, si));
      ConfigureDenotes(t, id, o, r, si);
      ReceiveOne(Denote(t), mo, rc, id);
    }
  }

  lemma AddedObjectAgrees(t: Tables, mo: ObjectRecord, t': Tables, o: ObjectRequest, r: ReportRequest)
    requires InRange(t) && CellsListed(t) && 1 <= mo.objectId <= MAX_MEAS
    requires mo.body == BuildObject(o, IsCgi(r))
    requires t'.objects == t.objects[mo.objectId - 1 := Some(mo)]
    ensures var stored := t.objects[mo.objectId - 1];
      Denote(t').objects == AddObject(Denote(t), mo).objects
      <==> (stored.Some? ==> ObjectReplaced(stored.value.body, mo.body))
  {
    var k := mo.objectId;
    var objects := DenoteObjects(t.objects);
    assert Live(t.objects, k) <==> k in objects;
    DenoteObject(t.objects, k, mo);
    if Live(t.objects, k) {
      ObjectReplacedExactly(t.objects[k - 1].value.body, o, IsCgi(r));
      SameEntry(objects, k, NewObject(mo.body), ModifyObject(objects[k], mo.body));
    }
  }

  lemma SameEntry(m: map<nat, UeObject>, k: nat, x: UeObject, y: UeObject)
    ensures m[k := x] == m[k := y] <==> x == y
  {
    assert m[k := x][k] == x && m[k := y][k] == y;
  }

  // ----- Whole runs

  /** Every UE's copy, and how one step of the eNB changes them. */
  ghost function Deliver(ues: map<Rnti, VarMeas>, e: Event, s: Step): map<Rnti, VarMeas> {
    match e
    case UeUp(u) => ues[u := NOTHING]
    case UeDown(u) => ues - {u}
    case _ =>
      if s.sent.Some? && Ue(e) in ues then ues[Ue(e) := Receive(ues[Ue(e)], s.sent.value)] else ues
  }

  ghost predicate InSync(m: Manager, ues: map<Rnti, VarMeas>) {
    ues.Keys == m.contexts.Keys && forall u :: u in ues ==> ues[u] == Denote(m.contexts[u])
  }

  /** In sync before the run and after each of its events. */
  ghost predicate AlwaysInSync(m: Manager, ues: map<Rnti, VarMeas>, es: seq<Event>)
    requires ManagerInRange(m) && ValidRun(m, es)
    decreases |es|
  {
    && InSync(m, ues)
    && (es != [] ==> var s := Next(m, es[0]); AlwaysInSync(s.manager, Deliver(ues, es[0], s), es[1..]))
  }

  /** A judged request is safe: if the UE is reconfigured at all, harmlessly. */
  predicate SafeJudged(t: Tables, v: Verdict, q: Request)
    requires InRange(t) && Sound(v, q)
  {
    Configured(t, v, q) ==> Harmless(t, RecordOf(t, v, q), q.obj, WithDefaults(q.report))
  }

  predicate Safe(m: Manager, e: Event)
    requires ManagerInRange(m) && Enabled(m, e)
  {
    e.Ask? ==>
      (JudgeSound(m, e.env, e.request);
       SafeJudged(m.contexts[e.request.rnti], Judge(m, e.env, e.request), e.request))
  }

  ghost predicate AlwaysSafe(m: Manager, es: seq<Event>)
    requires ManagerInRange(m) && ValidRun(m, es)
    decreases |es|
  {
    es != [] ==> Safe(m, es[0]) && AlwaysSafe(Next(m, es[0]).manager, es[1..])
  }

  predicate AllListed(m: Manager) {
    forall u :: u in m.contexts ==> CellsListed(m.contexts[u])
  }

  lemma TablesAfterListed(t: Tables, v: Verdict, q: Request, si: bool)
    requires InRange(t) && Sound(v, q) && CellsListed(t)
    ensures CellsListed(TablesAfter(t, v, q, si).tables)
  {
    if Configured(t, v, q) {
      var body := BuildObject(q.obj, IsCgi(WithDefaults(q.report)));
      assert Listed(body.cellsToAdd) && Listed(body.blackToAdd);
    }
  }

  lemma NextListed(m: Manager, e: Event)
    requires ManagerInRange(m) && Enabled(m, e) && AllListed(m)
    ensures AllListed(Next(m, e).manager)
  {
    match e {
      case Ask(env, q) =>
        JudgeSound(m, env, q);
        TablesAfterListed(m.contexts[q.rnti], Judge(m, env, q), q, env.siAcquisition);
      case Report(u, k, knows) =>
      case UeUp(u) =>
      case UeDown(u) =>
    }
  }

  lemma JudgedInSync(m: Manager, ues: map<Rnti, VarMeas>, v: Verdict, q: Request, env: Env)
    requires ManagerInRange(m) && AllListed(m) && InSync(m, ues)
    requires q.rnti in m.contexts && Sound(v, q)
    ensures var s := HandleJudged(m, v, q, env.siAcquisition);
      InSync(s.manager, Deliver(ues, Ask(env, q), s)) <==> SafeJudged(m.contexts[q.rnti], v, q)
  {
    var t := m.contexts[q.rnti];
    var s := HandleJudged(m, v, q, env.siAcquisition);
    var out := TablesAfter(t, v, q, env.siAcquisition);
    TablesAgree(t, v, q, env.siAcquisition);
    var copy := if out.sent.Some? then Receive(ues[q.rnti], out.sent.value) else ues[q.rnti];
    OneUpdated(m, ues, q.rnti, out.tables, copy, s.manager);
    assert out.sent.None? ==> ues[q.rnti := copy] == ues;
  }

  lemma TablesAgree(t: Tables, v: Verdict, q: Request, si: bool)
    requires InRange(t) && CellsListed(t) && Sound(v, q)
    ensures var out := TablesAfter(t, v, q, si);
      Denote(out.tables) == (if out.sent.Some? then Receive(Denote(t), out.sent.value) else Denote(t)) <==> SafeJudged(t, v, q)
  {
    if Configured(t, v, q) {
      ConfigureAgrees(t, RecordOf(t, v, q), q.obj, WithDefaults(q.report), si);
    }
  }

  /** Changing one UE's tables and copy keeps the others in sync. */
  lemma OneUpdated(m: Manager, ues: map<Rnti, VarMeas>, u: Rnti, t: Tables, copy: VarMeas, m': Manager)
    requires InSync(m, ues) && u in m.contexts && m'.contexts == m.contexts[u := t]
    ensures InSync(m', ues[u := copy]) <==> copy == Denote(t)
  {
    assert ues[u := copy].Keys == m'.contexts.Keys;
    assert u in ues[u := copy] && m'.contexts[u] == t;
  }

  lemma ReportInSync(m: Manager, ues: map<Rnti, VarMeas>, u: Rnti, k: nat, knows: bool)
    requires ManagerInRange(m) && InSync(m, ues) && 1 <= k <= MAX_MEAS
    ensures var s := HandleReport(m, u, k, knows); InSync(s.manager, Deliver(ues, Report(u, k, knows), s))
  {
    if u in m.contexts {
      ReleaseAgrees(m.contexts[u], k);
    }
  }

  /** One step keeps the replicas in sync exactly if it is safe. */
  lemma StepInSync(m: Manager, ues: map<Rnti, VarMeas>, e: Event)
    requires ManagerInRange(m) && Enabled(m, e) && AllListed(m) && InSync(m, ues)
    ensures InSync(Next(m, e).manager, Deliver(ues, e, Next(m, e))) <==> Safe(m, e)
  {
    match e {
      case Ask(env, q) =>
        JudgeSound(m, env, q);
        JudgedInSync(m, ues, Judge(m, env, q), q, env);
      case Report(u, k, knows) =>
        ReportInSync(m, ues, u, k, knows);
      case UeUp(u) =>
        assert Denote(NO_MEASUREMENTS) == NOTHING;
      case UeDown(u) =>
    }
  }

  /** Every run: all UEs hold exactly the eNB's configuration after every message if
      and only if every configured request sets a report type and does not empty a
      cell list (or drop the CGI cell) of an object it reuses. */
  lemma {:induction false} ReplicaAgreement(m: Manager, ues: map<Rnti, VarMeas>, es: seq<Event>)
    requires ManagerInRange(m) && AllListed(m) && InSync(m, ues) && ValidRun(m, es)
    ensures AlwaysInSync(m, ues, es) <==> AlwaysSafe(m, es)
    decreases |es|
  {
    if es != [] {
      var s := Next(m, es[0]);
      StepInSync(m, ues, es[0]);
      NextListed(m, es[0]);
      if Safe(m, es[0]) {
        ReplicaAgreement(s.manager, Deliver(ues, es[0], s), es[1..]);
      }
    }
  }
}
