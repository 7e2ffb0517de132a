/** What the UEs measure and report, in terms of what was asked for: field by field, over
    whole runs, and without reference to how the eNB builds its messages.
 */
module MeasAsked {
  import opened Options
  import opened MeasTypes
  import opened MeasEnb
  import opened MeasUe
  import opened MeasReplica
  import opened MeasIntegrity
  import opened MeasTriggers
  import opened MeasReports
  import opened MeasLife
  import opened Bands

  // ----- The meaning of a request

  /** 15 is the offset dB0. */
  predicate CellAsked(c: Cell, asked: CellRequest) {
    c.pci == asked.pci && c.offset == if asked.offset.has then asked.offset.value else 15
  }

  /** 0 is the range n4. */
  predicate RangeAsked(b: BlackCell, asked: BlackRequest) {
    b.start == asked.start && b.range == if asked.range.has then asked.range.value else 0
  }

  /** Entry i + 1 of a UE's cell list is the i-th cell asked for. */
  ghost predicate CellsAsked(cells: map<nat, Cell>, asked: seq<CellRequest>) {
    && (forall k :: k in cells <==> 1 <= k <= |asked|)
    && forall i :: 0 <= i < |asked| ==> CellAsked(cells[i + 1], asked[i])
  }

  /** The same for cells not to be measured. */
  ghost predicate BlackAsked(black: map<nat, BlackCell>, asked: seq<BlackRequest>) {
    && (forall k :: k in black <==> 1 <= k <= |asked|)
    && forall i :: 0 <= i < |asked| ==> RangeAsked(black[i + 1], asked[i])
  }

  /** The UE's object measures what q asks for; cgi: the request is for a cell identity. */
  ghost predicate Measures(o: UeObject, q: ObjectRequest, cgi: bool) {
    && o.carrier == q.carrier && o.bandwidth == q.bandwidth
    && CellsAsked(o.cells, q.cells) && BlackAsked(o.black, q.black)
    && o.cgiCell == if cgi && q.cells != [] then Some(q.cells[0].pci) else None
  }

  predicate ValueOf(sent: int, asked: Field) {
    sent == if asked.has then asked.value else 0
  }

  /** The kind with its thresholds; report-on-leave is always sent, as whether it was given. */
  predicate KindAsked(sent: Kind, asked: Kind) {
    match asked
    case Periodical(p) => sent == Periodical(p)
    case A1(a) => sent == A1(a)
    case A2(a) => sent == A2(a)
    case A3(x, leave) => sent.A3? && sent.offset == x && sent.leave == Field(true, if leave.has then 1 else 0)
    case A4(a) => sent == A4(a)
    case A5(a, b) => sent == A5(a, b)
    case NotSet => sent == NotSet
  }

  /** The UE reports what r asks for: hysteresis and time to trigger for events only, every
      field that is not given as 0, autonomous gaps for a cell identity if the UE has them. */
  predicate ReportsAs(b: ReportBody, r: ReportRequest, si: bool) {
    && KindAsked(b.kind, r.kind)
    && (b.siRequestForHO <==> IsCgi(r) && si)
    && (if r.kind.Periodical? then b.hysteresis == 0 && b.timeToTrigger == 0
        else ValueOf(b.hysteresis, r.hysteresis) && ValueOf(b.timeToTrigger, r.timeToTrigger))
    && ValueOf(b.triggerQuantity, r.triggerQuantity) && ValueOf(b.reportQuantity, r.reportQuantity)
    && ValueOf(b.maxCells, r.maxCells) && ValueOf(b.interval, r.interval) && ValueOf(b.amount, r.amount)
  }

  // ----- What is built means what was asked

  lemma {:induction false} AddAllNumbered<T>(m: map<nat, T>, entries: seq<(nat, T)>, base: nat)
    requires forall i :: 0 <= i < |entries| ==> entries[i].0 == base + i + 1
    ensures var r := AddAll(m, entries);
      && (forall k :: k in r <==> k in m || base + 1 <= k <= base + |entries|)
      && (forall i :: 0 <= i < |entries| ==> r[base + i + 1] == entries[i].1)
      && (forall k :: k in m && !(base + 1 <= k <= base + |entries|) ==> r[k] == m[k])
    decreases |entries|
  {
    if entries != [] {
      var m', rest := m[entries[0].0 := entries[0].1], entries[1..];
      AddAllNumbered(m', rest, base + 1);
      var r := AddAll(m', rest);
      assert AddAll(m, entries) == r;
      forall k ensures k in r <==> k in m || base + 1 <= k <= base + |entries| {
        assert k in m' <==> k in m || k == base + 1;
      }
      forall i | 0 <= i < |entries| ensures r[base + i + 1] == entries[i].1 {
        if i > 0 {
          assert r[(base + 1) + (i - 1) + 1] == rest[i - 1].1;
        }
      }
    }
  }

  lemma BuiltMeasures(q: ObjectRequest, cgi: bool)
    ensures Measures(NewObject(BuildObject(q, cgi)), q, cgi)
  {
    BuiltCells(q.cells);
    BuiltBlack(q.black);
  }

  lemma BuiltCells(asked: seq<CellRequest>)
    ensures CellsAsked(AddAll(map[], CellsToAdd(asked)), asked)
  {
    var entries := CellsToAdd(asked);
    AddAllNumbered<Cell>(map[], entries, 0);
    forall i | 0 <= i < |asked| ensures CellAsked(AddAll(map[], entries)[i + 1], asked[i]) {
      assert AddAll(map[], entries)[0 + i + 1] == entries[i].1;
    }
  }

  lemma BuiltBlack(asked: seq<BlackRequest>)
    ensures BlackAsked(AddAll(map[], BlackToAdd(asked)), asked)
  {
    var entries := BlackToAdd(asked);
    AddAllNumbered<BlackCell>(map[], entries, 0);
    forall i | 0 <= i < |asked| ensures RangeAsked(AddAll(map[], entries)[i + 1], asked[i]) {
      assert AddAll(map[], entries)[0 + i + 1] == entries[i].1;
    }
  }

  lemma CellsUnique(a: map<nat, Cell>, b: map<nat, Cell>, asked: seq<CellRequest>)
    requires CellsAsked(a, asked) && CellsAsked(b, asked)
    ensures a == b
  {
    forall k | k in a ensures a[k] == b[k] {
      var i := k - 1;
      assert CellAsked(a[i + 1], asked[i]) && CellAsked(b[i + 1], asked[i]);
    }
  }

  lemma BlackUnique(a: map<nat, BlackCell>, b: map<nat, BlackCell>, asked: seq<BlackRequest>)
    requires BlackAsked(a, asked) && BlackAsked(b, asked)
    ensures a == b
  {
    forall k | k in a ensures a[k] == b[k] {
      var i := k - 1;
      assert RangeAsked(a[i + 1], asked[i]) && RangeAsked(b[i + 1], asked[i]);
    }
  }

  /** A request leaves no freedom: two objects that measure what it asks are equal. */
  lemma MeasuresUnique(a: UeObject, b: UeObject, q: ObjectRequest, cgi: bool)
    requires Measures(a, q, cgi) && Measures(b, q, cgi)
    ensures a == b
  {
    CellsUnique(a.cells, b.cells, q.cells);
    BlackUnique(a.black, b.black, q.black);
  }

  lemma BuiltReports(b: ReportBody, r: ReportRequest, si: bool)
    ensures ReportsAs(b, r, si) <==> b == BuildReport(r, si)
    ensures BuildReport(WithDefaults(r), si) == BuildReport(r, si)
  {
  }

  // ----- One request

  /** The message of a configured request adds one measurement: its new identity, its object
      and its report configuration. */
  lemma ConfiguredSends(m: Manager, env: Env, q: Request)
    requires ManagerInRange(m) && q.rnti in m.contexts && !q.report.kind.NotSet?
    requires MeasEnb.Configured(m.contexts[q.rnti], Judge(m, env, q), q)
    ensures Sound(Judge(m, env, q), q)
    ensures var id := RecordOf(m.contexts[q.rnti], Judge(m, env, q), q);
      HandleRequest(m, env, q).sent == Some(Delta([],
        [ObjectRecord(id.objectId, BuildObject(q.obj, IsCgi(q.report)))], [],
        [ReportRecord(id.reportId, BuildReport(q.report, env.siAcquisition))], [], [id]))
  {
    JudgeSound(m, env, q);
    BuiltReports(BuildReport(q.report, env.siAcquisition), q.report, env.siAcquisition);
  }

  /** Object k of the UE is what the table entry stands for. */
  predicate Denotes(v: VarMeas, k: nat, stored: Option<ObjectRecord>) {
    && (stored.Some? <==> k in v.objects)
    && (stored.Some? ==>
          var b := stored.value.body;
          v.objects[k] == NewObject(b) && Listed(b.cellsToAdd) && Listed(b.blackToAdd))
  }

  /** The object the UE ends up with measures what was asked exactly if the stored one is
      replaced. */
  lemma AddedMeasures(v: VarMeas, stored: Option<ObjectRecord>, k: nat, q: ObjectRequest, cgi: bool)
    requires Denotes(v, k, stored)
    ensures var mo := ObjectRecord(k, BuildObject(q, cgi));
      Measures(AddObject(v, mo).objects[k], q, cgi) <==>
        (stored.Some? ==> ObjectReplaced(stored.value.body, mo.body))
  {
    var sent := BuildObject(q, cgi);
    BuiltMeasures(q, cgi);
    if stored.Some? {
      ObjectReplacedExactly(stored.value.body, q, cgi);
      var o := ModifyObject(NewObject(stored.value.body), sent);
      if Measures(o, q, cgi) {
        MeasuresUnique(o, NewObject(sent), q, cgi);
      }
    }
  }

  /** v' is v with one measurement added: its identity is new, its report configuration is
      what r asks for, and everything else is as it was. */
  ghost predicate Gains(v: VarMeas, v': VarMeas, id: IdRecord, r: ReportRequest, si: bool) {
    && id.measId !in v.ids && v'.ids == v.ids[id.measId := (id.objectId, id.reportId)]
    && v'.objects.Keys == v.objects.Keys + {id.objectId} && v'.reports.Keys == v.reports.Keys + {id.reportId}
    && (forall k :: k in v.objects && k != id.objectId ==> v'.objects[k] == v.objects[k])
    && (forall k :: k in v.reports && k != id.reportId ==> v'.reports[k] == v.reports[k])
    && ReportsAs(v'.reports[id.reportId], r, si)
  }

  lemma ReceivedOne(v: VarMeas, id: IdRecord, o: ObjectRequest, r: ReportRequest, si: bool)
    requires id.measId !in v.ids
    ensures var mo, rc := ObjectRecord(id.objectId, BuildObject(o, IsCgi(r))), ReportRecord(id.reportId, BuildReport(r, si));
      var v' := Receive(v, Delta([], [mo], [], [rc], [], [id]));
      Gains(v, v', id, r, si) && id.objectId in v'.objects && v'.objects[id.objectId] == AddObject(v, mo).objects[id.objectId]
  {
    var mo, rc := ObjectRecord(id.objectId, BuildObject(o, IsCgi(r))), ReportRecord(id.reportId, BuildReport(r, si));
    ReceiveOne(v, mo, rc, id);
    BuiltReports(rc.body, r, si);
  }

  lemma StoredObject(t: Tables, k: nat)
    requires InRange(t) && CellsListed(t) && 1 <= k <= MAX_MEAS
    ensures Denotes(Denote(t), k, t.objects[k - 1])
  {
    assert Live(t.objects, k) <==> t.objects[k - 1].Some?;
  }

  lemma NewIdentity(t: Tables, k: nat)
    requires InRange(t) && 1 <= k <= MAX_MEAS && t.ids[k - 1].None?
    ensures k !in Denote(t).ids
  {
  }

  lemma SafeUnfolds(t: Tables, v: Verdict, q: Request)
    requires InRange(t) && Sound(v, q) && MeasEnb.Configured(t, v, q) && !q.report.kind.NotSet?
    ensures var stored := t.objects[RecordOf(t, v, q).objectId - 1];
      SafeJudged(t, v, q) <==>
        (stored.Some? ==> ObjectReplaced(stored.value.body, BuildObject(q.obj, IsCgi(q.report))))
  {
    assert IsCgi(WithDefaults(q.report)) == IsCgi(q.report);
  }

  /** The UE's copy after a configured request, from a state in sync: one measurement is
      added with the report configuration that was asked for; its object is what was asked for
      exactly if the request is safe. */
  lemma AskedExactly(m: Manager, ues: map<Rnti, VarMeas>, env: Env, q: Request)
    requires ManagerInRange(m) && AllListed(m) && InSync(m, ues) && q.rnti in m.contexts && !q.report.kind.NotSet?
    requires MeasEnb.Configured(m.contexts[q.rnti], Judge(m, env, q), q)
    ensures Sound(Judge(m, env, q), q)
    ensures var e := Ask(env, q);
      var v' := Deliver(ues, e, Next(m, e))[q.rnti];
      var id := RecordOf(m.contexts[q.rnti], Judge(m, env, q), q);
      && Gains(ues[q.rnti], v', id, q.report, env.siAcquisition)
      && (Measures(v'.objects[id.objectId], q.obj, IsCgi(q.report)) <==> Safe(m, e))
  {
    var t, judged := m.contexts[q.rnti], Judge(m, env, q);
    ConfiguredSends(m, env, q);
    AskedOfTables(t, judged, q, env.siAcquisition);
  }

  lemma AskedOfTables(t: Tables, v: Verdict, q: Request, si: bool)
    requires InRange(t) && CellsListed(t) && Sound(v, q) && MeasEnb.Configured(t, v, q) && !q.report.kind.NotSet?
    ensures var id := RecordOf(t, v, q);
      var mo := ObjectRecord(id.objectId, BuildObject(q.obj, IsCgi(q.report)));
      var rc := ReportRecord(id.reportId, BuildReport(q.report, si));
      var v' := Receive(Denote(t), Delta([], [mo], [], [rc], [], [id]));
      && Gains(Denote(t), v', id, q.report, si)
      && (Measures(v'.objects[id.objectId], q.obj, IsCgi(q.report)) <==> SafeJudged(t, v, q))
  {
    var id := RecordOf(t, v, q);
    NewIdentity(t, id.measId);
    ReceivedOne(Denote(t), id, q.obj, q.report, si);
    StoredObject(t, id.objectId);
    AddedMeasures(Denote(t), t.objects[id.objectId - 1], id.objectId, q.obj, IsCgi(q.report));
    SafeUnfolds(t, v, q);
  }

  // ----- Whole runs: what was asked for last

  datatype Wish = Wish(obj: ObjectRequest, cgi: bool)
  datatype ReportWish = ReportWish(report: ReportRequest, si: bool)

  /** Per UE and identity, the last request that a message to the UE carried. */
  datatype Wishes = Wishes(objects: map<(Rnti, nat), Wish>, reports: map<(Rnti, nat), ReportWish>)

  ghost function Noted(w: Wishes, e: Event, s: Step): Wishes {
    if !e.Ask? || s.sent.None? || s.sent.value.idsToAdd == [] then w
    else
      var q, id := e.request, s.sent.value.idsToAdd[0];
      Wishes(w.objects[(q.rnti, id.objectId) := Wish(q.obj, IsCgi(q.report))],
             w.reports[(q.rnti, id.reportId) := ReportWish(q.report, e.env.siAcquisition)])
  }

  /** Measurement k of the UE, with copy v, measures and reports what was asked for. */
  ghost predicate Granted(v: VarMeas, w: Wishes, u: Rnti, k: nat) {
    k in v.ids &&
    var o, r := v.ids[k].0, v.ids[k].1;
    && o in v.objects && (u, o) in w.objects && Measures(v.objects[o], w.objects[(u, o)].obj, w.objects[(u, o)].cgi)
    && r in v.reports && (u, r) in w.reports && ReportsAs(v.reports[r], w.reports[(u, r)].report, w.reports[(u, r)].si)
  }

  ghost predicate AllGranted(v: VarMeas, w: Wishes, u: Rnti) {
    forall k :: k in v.ids ==> Granted(v, w, u, k)
  }

  ghost predicate Fulfilled(ues: map<Rnti, VarMeas>, w: Wishes) {
    forall u :: u in ues ==> AllGranted(ues[u], w, u)
  }

  /** A measurement of another UE does not notice. */
  lemma OtherGranted(v: VarMeas, w: Wishes, w': Wishes, u: Rnti)
    requires AllGranted(v, w, u)
    requires forall x :: x in w.objects && x.0 == u ==> x in w'.objects && w'.objects[x] == w.objects[x]
    requires forall x :: x in w.reports && x.0 == u ==> x in w'.reports && w'.reports[x] == w.reports[x]
    ensures AllGranted(v, w', u)
  {
    forall k | k in v.ids ensures Granted(v, w', u, k) {
      assert Granted(v, w, u, k);
      assert (u, v.ids[k].0).0 == u && (u, v.ids[k].1).0 == u;
    }
  }

  /** The UE that gains a measurement: all its measurements are as asked for exactly if the
      new object is. */
  lemma GainGranted(v: VarMeas, v': VarMeas, id: IdRecord, w: Wishes, w': Wishes, u: Rnti, q: Request, si: bool)
    requires AllGranted(v, w, u) && Gains(v, v', id, q.report, si)
    requires w' == Wishes(w.objects[(u, id.objectId) := Wish(q.obj, IsCgi(q.report))],
                          w.reports[(u, id.reportId) := ReportWish(q.report, si)])
    ensures AllGranted(v', w', u) <==> Measures(v'.objects[id.objectId], q.obj, IsCgi(q.report))
  {
    if Measures(v'.objects[id.objectId], q.obj, IsCgi(q.report)) {
      forall k | k in v'.ids ensures Granted(v', w', u, k) {
        if k != id.measId {
          assert Granted(v, w, u, k);
          StillGranted(v, v', id, w, w', u, q, si, k);
        }
      }
    } else {
      assert !Granted(v', w', u, id.measId);
    }
  }

  lemma StillGranted(v: VarMeas, v': VarMeas, id: IdRecord, w: Wishes, w': Wishes, u: Rnti, q: Request, si: bool, k: nat)
    requires Granted(v, w, u, k) && Gains(v, v', id, q.report, si) && k != id.measId
    requires Measures(v'.objects[id.objectId], q.obj, IsCgi(q.report))
    requires w' == Wishes(w.objects[(u, id.objectId) := Wish(q.obj, IsCgi(q.report))],
                          w.reports[(u, id.reportId) := ReportWish(q.report, si)])
    ensures Granted(v', w', u, k)
  {
  }

  lemma SameGranted(v: VarMeas, v': VarMeas, w: Wishes, u: Rnti, i: nat)
    requires Granted(v, w, u, i) && i in v'.ids && v'.ids[i] == v.ids[i]
    requires v.ids[i].0 in v'.objects && v'.objects[v.ids[i].0] == v.objects[v.ids[i].0]
    requires v.ids[i].1 in v'.reports && v'.reports[v.ids[i].1] == v.reports[v.ids[i].1]
    ensures Granted(v', w, u, i)
  {
  }

  lemma IdDenoted(t: Tables, i: nat)
    requires InRange(t)
    ensures i in Denote(t).ids <==> 1 <= i <= MAX_MEAS && t.ids[i - 1].Some?
    ensures i in Denote(t).ids ==> Denote(t).ids[i] == (t.ids[i - 1].value.objectId, t.ids[i - 1].value.reportId)
  {
    assert 1 <= i <= MAX_MEAS ==> (Live(t.ids, i) <==> t.ids[i - 1].Some?);
  }

  lemma ObjectDenoted(t: Tables, o: nat)
    requires InRange(t) && 1 <= o <= MAX_MEAS
    ensures o in Denote(t).objects <==> t.objects[o - 1].Some?
    ensures t.objects[o - 1].Some? ==> Denote(t).objects[o] == NewObject(t.objects[o - 1].value.body)
  {
    assert Live(t.objects, o) <==> t.objects[o - 1].Some?;
  }

  lemma ReportDenoted(t: Tables, r: nat)
    requires InRange(t) && 1 <= r <= MAX_MEAS
    ensures r in Denote(t).reports <==> t.reports[r - 1].Some?
    ensures t.reports[r - 1].Some? ==> Denote(t).reports[r] == t.reports[r - 1].value.body
  {
    assert Live(t.reports, r) <==> t.reports[r - 1].Some?;
  }

  lemma EntriesDenoted(t: Tables, o: nat, r: nat)
    requires InRange(t) && 1 <= o <= MAX_MEAS && 1 <= r <= MAX_MEAS
    ensures var v := Denote(t);
      && (o in v.objects <==> t.objects[o - 1].Some?) && (r in v.reports <==> t.reports[r - 1].Some?)
      && (t.objects[o - 1].Some? ==> v.objects[o] == NewObject(t.objects[o - 1].value.body))
      && (t.reports[r - 1].Some? ==> v.reports[r] == t.reports[r - 1].value.body)
  {
    ObjectDenoted(t, o);
    ReportDenoted(t, r);
  }

  /** A release leaves the remaining measurements as they were. */
  lemma ReleaseGranted(t: Tables, k: nat, w: Wishes, u: Rnti)
    requires InRange(t) && 1 <= k <= MAX_MEAS && AllGranted(Denote(t), w, u)
    ensures AllGranted(Denote(Release(t, k).tables), w, u)
  {
    var t' := Release(t, k).tables;
    forall i | i in Denote(t').ids ensures Granted(Denote(t'), w, u, i) {
      RemainsGranted(t, k, w, u, i);
    }
  }

  lemma RemainsGranted(t: Tables, k: nat, w: Wishes, u: Rnti, i: nat)
    requires InRange(t) && 1 <= k <= MAX_MEAS && AllGranted(Denote(t), w, u) && i in Denote(Release(t, k).tables).ids
    ensures Granted(Denote(Release(t, k).tables), w, u, i)
  {
    var t' := Release(t, k).tables;
    IdDenoted(t', i);
    IdDenoted(t, i);
    ReleaseOnly(t, k, i);
    assert Granted(Denote(t), w, u, i);
    var id := t.ids[i - 1].value;
    EntriesDenoted(t, id.objectId, id.reportId);
    EntriesDenoted(t', id.objectId, id.reportId);
    SameGranted(Denote(t), Denote(t'), w, u, i);
  }

  /** What a configured request does to the copies and to the wishes. */
  lemma AskNoted(m: Manager, ues: map<Rnti, VarMeas>, w: Wishes, env: Env, q: Request)
    requires ManagerInRange(m) && InSync(m, ues) && q.rnti in m.contexts && !q.report.kind.NotSet?
    requires MeasEnb.Configured(m.contexts[q.rnti], Judge(m, env, q), q)
    ensures Sound(Judge(m, env, q), q)
    ensures var e := Ask(env, q); var s := Next(m, e);
      var id := RecordOf(m.contexts[q.rnti], Judge(m, env, q), q);
      var ues' := Deliver(ues, e, s);
      && q.rnti in ues' && ues' == ues[q.rnti := ues'[q.rnti]]
      && Noted(w, e, s) ==
         Wishes(w.objects[(q.rnti, id.objectId) := Wish(q.obj, IsCgi(q.report))],
                w.reports[(q.rnti, id.reportId) := ReportWish(q.report, env.siAcquisition)])
  {
    ConfiguredSends(m, env, q);
  }

  lemma AskFulfilled(m: Manager, ues: map<Rnti, VarMeas>, w: Wishes, env: Env, q: Request)
    requires ManagerInRange(m) && AllListed(m) && InSync(m, ues) && Fulfilled(ues, w)
    requires q.rnti in m.contexts && !q.report.kind.NotSet?
    requires MeasEnb.Configured(m.contexts[q.rnti], Judge(m, env, q), q)
    ensures var e := Ask(env, q); var s := Next(m, e);
      Fulfilled(Deliver(ues, e, s), Noted(w, e, s)) <==> Safe(m, e)
  {
    var e := Ask(env, q);
    var s := Next(m, e);
    AskNoted(m, ues, w, env, q);
    AskedExactly(m, ues, env, q);
    var id := RecordOf(m.contexts[q.rnti], Judge(m, env, q), q);
    AskGranted(ues, Deliver(ues, e, s), w, Noted(w, e, s), id, q, env.siAcquisition);
  }

  lemma AskGranted(ues: map<Rnti, VarMeas>, ues': map<Rnti, VarMeas>, w: Wishes, w': Wishes, id: IdRecord, q: Request, si: bool)
    requires Fulfilled(ues, w) && q.rnti in ues && q.rnti in ues' && ues' == ues[q.rnti := ues'[q.rnti]]
    requires Gains(ues[q.rnti], ues'[q.rnti], id, q.report, si)
    requires w' == Wishes(w.objects[(q.rnti, id.objectId) := Wish(q.obj, IsCgi(q.report))],
                          w.reports[(q.rnti, id.reportId) := ReportWish(q.report, si)])
    ensures Fulfilled(ues', w') <==> Measures(ues'[q.rnti].objects[id.objectId], q.obj, IsCgi(q.report))
  {
    GainGranted(ues[q.rnti], ues'[q.rnti], id, w, w', q.rnti, q, si);
    OthersFulfilled(ues, ues', w, w', q.rnti);
  }

  lemma OthersFulfilled(ues: map<Rnti, VarMeas>, ues': map<Rnti, VarMeas>, w: Wishes, w': Wishes, u: Rnti)
    requires Fulfilled(ues, w) && u in ues' && ues' == ues[u := ues'[u]]
    requires forall x :: x in w.objects && x.0 != u ==> x in w'.objects && w'.objects[x] == w.objects[x]
    requires forall x :: x in w.reports && x.0 != u ==> x in w'.reports && w'.reports[x] == w.reports[x]
    ensures Fulfilled(ues', w') <==> AllGranted(ues'[u], w', u)
  {
    forall x | x in ues' && x != u ensures AllGranted(ues'[x], w', x) {
      OtherGranted(ues[x], w, w', x);
    }
  }

  lemma ReportFulfilled(m: Manager, ues: map<Rnti, VarMeas>, w: Wishes, u: Rnti, k: nat, knows: bool)
    requires ManagerInRange(m) && InSync(m, ues) && Fulfilled(ues, w) && 1 <= k <= MAX_MEAS
    ensures Fulfilled(Deliver(ues, Report(u, k, knows), HandleReport(m, u, k, knows)), w)
  {
    var s := HandleReport(m, u, k, knows);
    ReportUnfolds(m, u, k, knows);
    if u in m.contexts && s.sent.Some? {
      ReleaseAgrees(m.contexts[u], k);
      ReleaseGranted(m.contexts[u], k, w, u);
      OthersFulfilled(ues, Deliver(ues, Report(u, k, knows), s), w, w, u);
    }
  }

  /** One event that does not lack a report type: every UE goes on measuring and reporting
      what was asked for exactly if the event is safe. */
  lemma StepFulfilled(m: Manager, ues: map<Rnti, VarMeas>, w: Wishes, e: Event)
    requires ManagerInRange(m) && Enabled(m, e) && AllListed(m) && InSync(m, ues) && Fulfilled(ues, w) && Typed(m, e)
    ensures var s := Next(m, e); Fulfilled(Deliver(ues, e, s), Noted(w, e, s)) <==> Safe(m, e)
  {
    match e {
      case Ask(env, q) =>
        JudgeSound(m, env, q);
        if MeasEnb.Configured(m.contexts[q.rnti], Judge(m, env, q), q) {
          AskFulfilled(m, ues, w, env, q);
        }
      case Report(u, k, knows) => ReportFulfilled(m, ues, w, u, k, knows);
      case UeUp(u) =>
      case UeDown(u) =>
    }
  }

  ghost predicate AlwaysFulfilled(m: Manager, ues: map<Rnti, VarMeas>, w: Wishes, es: seq<Event>)
    requires ManagerInRange(m) && ValidRun(m, es)
    decreases |es|
  {
    && Fulfilled(ues, w)
    && (es != [] ==> var s := Next(m, es[0]); AlwaysFulfilled(s.manager, Deliver(ues, es[0], s), Noted(w, es[0], s), es[1..]))
  }

  /** Every run whose configured requests have a report type, any number of UEs: after every
      event each measurement of each UE measures and reports, field by field, what was asked
      for last under its identities, if and only if every event is safe. */
  lemma {:induction false} WishRuns(m: Manager, ues: map<Rnti, VarMeas>, w: Wishes, es: seq<Event>)
    requires ManagerInRange(m) && AllListed(m) && InSync(m, ues) && Fulfilled(ues, w)
    requires ValidRun(m, es) && AlwaysTyped(m, es)
    ensures AlwaysFulfilled(m, ues, w, es) <==> AlwaysSafe(m, es)
    decreases |es|
  {
    if es != [] {
      var s := Next(m, es[0]);
      StepFulfilled(m, ues, w, es[0]);
      StepInSync(m, ues, es[0]);
      NextListed(m, es[0]);
      if Safe(m, es[0]) {
        WishRuns(s.manager, Deliver(ues, es[0], s), Noted(w, es[0], s), es[1..]);
      }
    }
  }

  // ----- Whole runs: each trigger's own request

  /** The UE of the trigger measures the trigger's carrier and reports, field by field, what
      the trigger asks for. */
  ghost predicate Served(ues: map<Rnti, VarMeas>, x: Trigger) {
    && x.rnti in ues && x.measId in ues[x.rnti].ids && ues[x.rnti].ids[x.measId] == (x.objectId, x.reportId)
    && var v := ues[x.rnti];
       && x.objectId in v.objects && v.objects[x.objectId].carrier == x.obj.carrier
       && x.reportId in v.reports && ReportsAs(v.reports[x.reportId], x.report, v.reports[x.reportId].siRequestForHO)
  }

  ghost predicate AllServed(m: Manager, ues: map<Rnti, VarMeas>) {
    forall x :: x in m.triggers ==> Served(ues, x)
  }

  /** In sync, being served is a matter of the trigger's stored object and report. */
  lemma ServedInSync(m: Manager, ues: map<Rnti, VarMeas>, x: Trigger)
    requires ManagerInRange(m) && InSync(m, ues) && AllTidy(m) && Backed(m.contexts, x)
    ensures Served(ues, x) <==> OnCarrier(m.contexts, x) && AsAsked(m.contexts, x)
  {
    assert Tidy(m.contexts[x.rnti]);
    ServedByTable(m.contexts[x.rnti], x);
  }

  lemma ServedByTable(t: Tables, x: Trigger)
    requires Integral(t) && TriggerInRange(x) && t.ids[x.measId - 1] == Some(IdRecord(x.measId, x.objectId, x.reportId))
    ensures var v := Denote(t);
      && x.measId in v.ids && v.ids[x.measId] == (x.objectId, x.reportId) && x.objectId in v.objects && x.reportId in v.reports
      && t.objects[x.objectId - 1].Some?
      && v.objects[x.objectId].carrier == t.objects[x.objectId - 1].value.body.carrier
      && (ReportsAs(v.reports[x.reportId], x.report, v.reports[x.reportId].siRequestForHO)
          <==> Built(t.reports[x.reportId - 1], x.reportId, x.report))
  {
    IdDenoted(t, x.measId);
    EntriesDenoted(t, x.objectId, x.reportId);
    BuiltReport(t.reports[x.reportId - 1].value, x.reportId, x.report);
  }

  lemma BuiltReport(rc: ReportRecord, k: nat, r: ReportRequest)
    requires rc.reportId == k
    ensures Built(Some(rc), k, r) <==> ReportsAs(rc.body, r, rc.body.siRequestForHO)
  {
    BuiltReports(rc.body, r, rc.body.siRequestForHO);
  }

  lemma AllServedInSync(m: Manager, ues: map<Rnti, VarMeas>)
    requires Kept(m) && InSync(m, ues)
    ensures AllServed(m, ues) <==> (forall x :: x in m.triggers ==> OnCarrier(m.contexts, x)) && ReportsKept(m)
  {
    forall x | x in m.triggers ensures Served(ues, x) <==> OnCarrier(m.contexts, x) && AsAsked(m.contexts, x) {
      assert Backed(m.contexts, x);
      ServedInSync(m, ues, x);
    }
  }

  ghost predicate AlwaysServed(m: Manager, ues: map<Rnti, VarMeas>, es: seq<Event>)
    requires ManagerInRange(m) && ValidRun(m, es)
    decreases |es|
  {
    && AllServed(m, ues)
    && (es != [] ==> var s := Next(m, es[0]); AlwaysServed(s.manager, Deliver(ues, es[0], s), es[1..]))
  }

  lemma UpdateConsistent(s: seq<Trigger>, k: nat, o: ObjectRequest, freq: nat -> int)
    requires Consistent(s, freq)
    ensures Consistent(UpdateObject(s, k, o), freq)
  {
    var r := UpdateObject(s, k, o);
    forall x, y | x in r && y in r && freq(x.obj.carrier) == freq(y.obj.carrier)
      ensures x.obj.carrier == y.obj.carrier && x.objectId == y.objectId
    {
      var i := UpdatedFrom(s, k, o, x);
      var j := UpdatedFrom(s, k, o, y);
      assert s[i].obj.carrier == x.obj.carrier && s[j].obj.carrier == y.obj.carrier;
    }
  }

  lemma InsertConsistent(s: seq<Trigger>, x: Trigger, freq: nat -> int)
    requires Consistent(s, freq)
    requires ScanObjects(s, x.obj.carrier, freq) == x.objectId || ScanObjects(s, x.obj.carrier, freq) == 0
    requires x.objectId > 0 && forall y :: y in s ==> y.objectId > 0
    ensures Consistent(Insert(s, x), freq)
  {
    forall y | y in s && freq(y.obj.carrier) == freq(x.obj.carrier)
      ensures y.obj.carrier == x.obj.carrier && y.objectId == x.objectId
    {
      ScanDetermined(s, x.obj.carrier, y, freq);
    }
  }

  lemma JudgedConsistent(s: seq<Trigger>, t: Tables, v: Verdict, q: Request, freq: nat -> int)
    requires Sized(t) && Sound(v, q) && Consistent(s, freq) && forall x :: x in s ==> x.objectId > 0
    requires q.obj.eutra && v.obj != -1 ==> v.obj == ScanObjects(s, q.obj.carrier, freq)
    ensures Consistent(TriggersAfter(s, t, v, q), freq)
  {
    var updated := s;
    if Admitted(t, v, q) && v.obj > 0 {
      updated := UpdateObject(s, v.obj, q.obj);
      UpdateConsistent(s, v.obj, q.obj, freq);
      forall x | x in updated ensures x.objectId > 0 {
        var i := UpdatedFrom(s, v.obj, q.obj, x);
      }
      ScanAfterUpdate(s, v.obj, q.obj, q.obj.carrier, freq);
    }
    if MeasEnb.Configured(t, v, q) {
      var x := TriggerOf(t, v, q);
      assert x.obj == q.obj && (v.obj > 0 ==> x.objectId == v.obj);
      InsertConsistent(updated, x, freq);
    }
  }

  /** One event of a well-behaved run: all triggers' objects stay on their carriers exactly if
      the event is carrier safe. */
  lemma StepOnCarriers(m: Manager, e: Event)
    requires Kept(m) && CarriersKept(m, Frequency) && Enabled(m, e) && WellBehaved(m, e)
    ensures var m' := Next(m, e).manager;
      (forall x :: x in m'.triggers ==> OnCarrier(m'.contexts, x)) <==> CarrierSafe(m, e)
  {
    StepCarriers(m, e);
    if e.Ask? && !CarrierSafe(m, e) {
      var q := e.request;
      JudgeSound(m, e.env, q);
      forall x | x in m.triggers ensures x.objectId > 0 {
        assert TriggerInRange(x);
      }
      JudgedConsistent(m.triggers, m.contexts[q.rnti], Judge(m, e.env, q), q, Frequency);
    }
  }

  /** One event: every trigger is served afterwards exactly if it takes over no identity in use
      for another carrier or another report. */
  lemma StepServed(m: Manager, ues: map<Rnti, VarMeas>, e: Event)
    requires Kept(m) && CarriersKept(m, Frequency) && ReportsKept(m) && AllListed(m) && InSync(m, ues)
    requires Enabled(m, e) && WellBehaved(m, e) && Safe(m, e)
    ensures var s := Next(m, e);
      AllServed(s.manager, Deliver(ues, e, s)) <==> CarrierSafe(m, e) && ReportSafe(m, e)
  {
    var s := Next(m, e);
    StepKept(m, e);
    StepInSync(m, ues, e);
    StepOnCarriers(m, e);
    StepReports(m, e);
    AllServedInSync(s.manager, Deliver(ues, e, s));
  }

  /** Every well-behaved and safe run, any number of UEs: after every event the UE of each
      trigger measures the trigger's carrier and reports what the trigger asks for, if and only
      if no request takes over an identity that its UE uses for another carrier or another
      report. */
  lemma {:induction false} ServedRuns(m: Manager, ues: map<Rnti, VarMeas>, es: seq<Event>)
    requires Kept(m) && CarriersKept(m, Frequency) && ReportsKept(m) && AllListed(m) && InSync(m, ues)
    requires ValidRun(m, es) && WellBehavedRun(m, es) && AlwaysSafe(m, es)
    ensures AlwaysServed(m, ues, es) <==> AlwaysCarrierSafe(m, es) && AlwaysReportSafe(m, es)
    decreases |es|
  {
    AllServedInSync(m, ues);
    if es != [] {
      StepServed(m, ues, es[0]);
      if CarrierSafe(m, es[0]) && ReportSafe(m, es[0]) {
        var s := StepAll(m, ues, es[0]);
        ServedRuns(s.manager, Deliver(ues, es[0], s), es[1..]);
      } else {
        NotServed(Next(m, es[0]).manager, Deliver(ues, es[0], Next(m, es[0])), es[1..]);
      }
    }
  }

  lemma NotServed(m: Manager, ues: map<Rnti, VarMeas>, es: seq<Event>)
    requires ManagerInRange(m) && ValidRun(m, es) && !AllServed(m, ues)
    ensures !AlwaysServed(m, ues, es)
  {
  }

  lemma StepAll(m: Manager, ues: map<Rnti, VarMeas>, e: Event) returns (s: Step)
    requires Kept(m) && CarriersKept(m, Frequency) && ReportsKept(m) && AllListed(m) && InSync(m, ues)
    requires Enabled(m, e) && WellBehaved(m, e) && Safe(m, e) && CarrierSafe(m, e) && ReportSafe(m, e)
    ensures s == Next(m, e) && Kept(s.manager) && CarriersKept(s.manager, Frequency) && ReportsKept(s.manager)
    ensures AllListed(s.manager) && InSync(s.manager, Deliver(ues, e, s))
  {
    s := Next(m, e);
    StepKept(m, e);
    StepInSync(m, ues, e);
    NextListed(m, e);
    StepCarriers(m, e);
    StepReports(m, e);
  }
}
