/** The measurement manager as the code runs it: tables and trigger tree updated in
    place, with loops over slots, references, cells and triggers.  Every method is
    proved against its function in MeasEnb.
 */
module MeasManagers {
  import opened Options
  import opened MeasTypes
  import opened MeasEnb
  import opened Bands

  method CountReferences(ids: seq<Option<IdRecord>>, objectId: nat, reportId: nat) returns (mo: nat, rc: nat)
    ensures mo == RefsToObject(ids, objectId) && rc == RefsToReport(ids, reportId)
  {
    mo, rc := 0, 0;
    for i := 0 to |ids|
      invariant mo == RefsToObject(ids[..i], objectId) && rc == RefsToReport(ids[..i], reportId)
    {
      assert ids[..i + 1][..i] == ids[..i];
      if ids[i].Some? {
        if ids[i].value.objectId == objectId {
          mo := mo + 1;
        }
        if ids[i].value.reportId == reportId {
          rc := rc + 1;
        }
      }
    }
    assert ids[..|ids|] == ids;
  }

  method FindFree<T>(s: seq<Option<T>>) returns (k: nat)
    ensures k == FirstFree(s)
  {
    k := 0;
    for i := 0 to |s|
      invariant forall j :: 0 <= j < i ==> s[j].Some?
    {
      if s[i].None? {
        return i + 1;
      }
    }
  }

  method BuildCells(cells: seq<CellRequest>) returns (add: seq<(nat, Cell)>)
    ensures add == CellsToAdd(cells)
  {
    add := [];
    for m := 0 to |cells|
      invariant add == CellsToAdd(cells)[..m]
    {
      var offset := OFFSET_DB0;
      if cells[m].offset.has {
        offset := cells[m].offset.value;
      }
      add := add + [(m + 1, Cell(cells[m].pci, offset))];
    }
  }

  method BuildBlack(black: seq<BlackRequest>) returns (add: seq<(nat, BlackCell)>)
    ensures add == BlackToAdd(black)
  {
    add := [];
    for m := 0 to |black|
      invariant add == BlackToAdd(black)[..m]
    {
      var range := RANGE_N4;
      if black[m].range.has {
        range := black[m].range.value;
      }
      add := add + [(m + 1, BlackCell(black[m].start, range))];
    }
  }

  method BuildRemovals() returns (ids: seq<nat>)
    ensures ids == AllIndices(MAX_CELLS)
  {
    ids := [];
    for m := 0 to MAX_CELLS
      invariant ids == AllIndices(MAX_CELLS)[..m]
    {
      ids := ids + [m + 1];
    }
  }

  method BuildMeasObject(o: ObjectRequest, cgi: bool) returns (b: ObjectBody)
    ensures b == BuildObject(o, cgi)
  {
    b := ObjectBody(o.carrier, o.bandwidth, None, [], [], [], []);
    if |o.cells| > 0 {
      if cgi {
        b := b.(cgiCell := Some(o.cells[0].pci));
      }
      var removals := BuildRemovals();
      var cells := BuildCells(o.cells);
      b := b.(cellsToRemove := removals, cellsToAdd := cells);
    }
    if |o.black| > 0 {
      var removals := BuildRemovals();
      var black := BuildBlack(o.black);
      b := b.(blackToRemove := removals, blackToAdd := black);
    }
  }

  /** The carrier lies in a band the UE supports, with room for the bandwidth. */
  method CheckCarrier(env: Env, o: ObjectRequest) returns (usable: bool)
    ensures usable == CarrierUsable(env, o)
  {
    var tdd := FindBandIndex(TDD_BANDS, o.carrier);
    var fdd := FindBandIndex(FDD_BANDS, o.carrier);
    if tdd == -1 && fdd == -1 {
      return false;
    }
    var band := if tdd != -1 then TDD_BANDS[tdd] else FDD_BANDS[fdd];
    var supported := false;
    if tdd != -1 {
      supported := Contains(env.bands, TDD_BANDS[tdd].number);
    }
    if fdd != -1 && !supported {
      supported := Contains(env.bands, FDD_BANDS[fdd].number);
    }
    var f := BandFrequency(band, o.carrier);
    var bw := BandwidthOf(o.bandwidth);
    return supported && bw <= band.width
           && 2 * f + bw <= 2 * (band.base + band.width) && 2 * band.base <= 2 * f - bw;
  }

  method Contains(bands: seq<nat>, number: nat) returns (found: bool)
    ensures found <==> number in bands
  {
    for i := 0 to |bands|
      invariant number !in bands[..i]
    {
      if bands[i] == number {
        return true;
      }
    }
    return false;
  }

  lemma {:induction false} UpdateAt(s: seq<Trigger>, i: nat, objectId: nat, o: ObjectRequest)
    requires i < |s| && s[i].objectId == objectId && forall j :: 0 <= j < i ==> s[j].objectId != objectId
    ensures UpdateObject(s, objectId, o) ==
      s[i := s[i].(obj := s[i].obj.(bandwidth := o.bandwidth, cells := o.cells, black := o.black))]
  {
    if i > 0 {
      UpdateAt(s[1..], i - 1, objectId, o);
    }
  }

  lemma {:induction false} UpdateNone(s: seq<Trigger>, objectId: nat, o: ObjectRequest)
    requires forall j :: 0 <= j < |s| ==> s[j].objectId != objectId
    ensures UpdateObject(s, objectId, o) == s
  {
    if s != [] {
      UpdateNone(s[1..], objectId, o);
    }
  }

  lemma WithoutUeAt(triggers: seq<Trigger>, rnti: Rnti, i: nat)
    requires i < |triggers|
    ensures WithoutUe(triggers[i..], rnti) ==
      (if triggers[i].rnti == rnti then [] else [triggers[i]]) + WithoutUe(triggers[i + 1..], rnti)
  {
    assert triggers[i..][1..] == triggers[i + 1..];
  }

  lemma Regroup<T>(a: seq<T>, b: seq<T>, c: seq<T>)
    ensures a + (b + c) == (a + b) + c
  {
  }

  /** rrc_meas_rem_ue_all_trigg. */
  method KeepOthers(triggers: seq<Trigger>, rnti: Rnti) returns (kept: seq<Trigger>)
    ensures kept == WithoutUe(triggers, rnti)
  {
    kept := [];
    ghost var all := WithoutUe(triggers, rnti);
    var i := 0;
    assert triggers[0..] == triggers;
    while i < |triggers|
      invariant 0 <= i <= |triggers|
      invariant kept + WithoutUe(triggers[i..], rnti) == all
    {
      WithoutUeAt(triggers, rnti, i);
      if triggers[i].rnti != rnti {
        Regroup(kept, [triggers[i]], WithoutUe(triggers[i + 1..], rnti));
        kept := kept + [triggers[i]];
      }
      i := i + 1;
    }
    assert kept + [] == kept;
  }

  class MeasManager {
    var contexts: map<Rnti, Tables>
    var triggers: seq<Trigger>

    constructor ()
      ensures contexts == map[] && triggers == []
    {
      contexts, triggers := map[], [];
    }

    ghost function State(): Manager
      reads this
    {
      Manager(contexts, triggers)
    }

    /** Object part of the validation: bands, sizes, then the scan of the tree. */
    method CheckObject(env: Env, o: ObjectRequest) returns (r: int)
      ensures r == ValidateObject(State(), env, o)
    {
      if !o.eutra {
        return 0;
      }
      if !o.hasBandwidth || !o.hasCarrier {
        return -1;
      }
      var usable := CheckCarrier(env, o);
      if !usable || |o.cells| > MAX_CELLS || |o.black| > MAX_CELLS {
        return -1;
      }
      r := ScanTree(o.carrier, Frequency);
    }

    method ScanTree(carrier: nat, freq: nat -> int) returns (r: int)
      ensures r == ScanObjects(triggers, carrier, freq)
    {
      for i := 0 to |triggers|
        invariant ScanObjects(triggers, carrier, freq) == ScanObjects(triggers[i..], carrier, freq)
      {
        var c := CompareCarriers(freq, carrier, triggers[i].obj.carrier);
        if c > 0 {
          return triggers[i].objectId;
        } else if c == -1 {
          return -1;
        }
      }
      return 0;
    }

    /** Report part of the validation. */
    method CheckReport(env: Env, carrier: nat, q: ReportRequest) returns (r: int)
      ensures r == ValidateReport(State(), env, carrier, q)
    {
      if !q.eutra {
        return 0;
      }
      if !ReportValid(env, carrier, q) {
        return -1;
      }
      for i := 0 to |triggers|
        invariant ScanReports(triggers, q) == ScanReports(triggers[i..], q)
      {
        if IsCgi(q) {
          return -1;
        }
        if SameReport(q, triggers[i].report) {
          return triggers[i].reportId;
        }
      }
      return 0;
    }

    /** rrc_meas_trigg_update_measObj: the first trigger of the object is changed. */
    method UpdateTrigger(objectId: nat, o: ObjectRequest)
      modifies this`triggers
      ensures triggers == UpdateObject(old(triggers), objectId, o)
    {
      for i := 0 to |triggers|
        invariant triggers == old(triggers)
        invariant forall j :: 0 <= j < i ==> triggers[j].objectId != objectId
      {
        if triggers[i].objectId == objectId {
          var t := triggers[i];
          triggers := triggers[i := t.(obj := t.obj.(bandwidth := o.bandwidth, cells := o.cells, black := o.black))];
          UpdateAt(old(triggers), i, objectId, o);
          return;
        }
      }
      UpdateNone(triggers, objectId, o);
    }

    /** Removing branch of emoai_RRC_meas_reconf. */
    method ReconfigureRemove(rnti: Rnti, measId: nat) returns (sent: Option<Delta>)
      requires rnti in contexts && InRange(contexts[rnti]) && 1 <= measId <= MAX_MEAS
      modifies this`contexts
      ensures contexts == old(contexts)[rnti := Release(old(contexts)[rnti], measId).tables]
      ensures sent == Release(old(contexts)[rnti], measId).sent
    {
      var t := contexts[rnti];
      if t.ids[measId - 1].None? {
        return None;
      }
      var rec := t.ids[measId - 1].value;
      t := t.(ids := t.ids[measId - 1 := None]);
      var d := Delta([], [], [], [], [measId], []);
      var mo, rc := CountReferences(t.ids, rec.objectId, rec.reportId);
      if mo == 0 {
        d := d.(objectsToRemove := [rec.objectId]);
        t := t.(objects := t.objects[rec.objectId - 1 := None]);
      }
      if rc == 0 {
        d := d.(reportsToRemove := [rec.reportId]);
        t := t.(reports := t.reports[rec.reportId - 1 := None]);
      }
      contexts := contexts[rnti := t];
      sent := Some(d);
    }

    /** Adding branch of emoai_RRC_meas_reconf: the tables are written as the message
        is built, so a missing report type leaves them half written. */
    method ReconfigureAdd(rnti: Rnti, id: IdRecord, o: ObjectRequest, r: ReportRequest, si: bool)
      returns (sent: Option<Delta>)
      requires rnti in contexts && InRange(contexts[rnti])
      requires 1 <= id.measId <= MAX_MEAS && 1 <= id.objectId <= MAX_MEAS && 1 <= id.reportId <= MAX_MEAS
      modifies this`contexts
      ensures contexts == old(contexts)[rnti := Configure(old(contexts)[rnti], id, o, r, si).tables]
      ensures sent == Configure(old(contexts)[rnti], id, o, r, si).sent
    {
      var t := contexts[rnti];
      t := t.(ids := t.ids[id.measId - 1 := Some(id)]);
      var body := BuildMeasObject(o, IsCgi(r));
      var mo := ObjectRecord(id.objectId, body);
      t := t.(objects := t.objects[id.objectId - 1 := Some(mo)]);
      contexts := contexts[rnti := t];
      if r.kind.NotSet? {
        return None;
      }
      var rc := ReportRecord(id.reportId, BuildReport(r, si));
      t := t.(reports := t.reports[id.reportId - 1 := Some(rc)]);
      contexts := contexts[rnti := t];
      sent := Some(Delta([], [mo], [], [rc], [], [id]));
    }

    /** emoai_RRC_measurements. */
    method Request(env: Env, q: Request) returns (sent: Option<Delta>)
      requires ManagerInRange(State()) && q.rnti in contexts
      modifies this
      ensures Step(State(), sent) == HandleRequest(old(State()), env, q)
    {
      JudgeSound(State(), env, q);
      ghost var v := Judge(State(), env, q);
      ghost var t := contexts[q.rnti];
      ghost var s := triggers;
      sent := None;
      assert contexts[q.rnti := t] == contexts;
      var measObjId := CheckObject(env, q.obj);
      if measObjId == -1 {
        return;
      }
      if !q.obj.eutra {
        return;
      }
      var repConfId := CheckReport(env, q.obj.carrier, q.report);
      if repConfId == -1 {
        return;
      }
      var measId := FindFree(contexts[q.rnti].ids);
      if measId == 0 {
        return;
      }
      assert Admitted(t, v, q);
      if measObjId > 0 {
        UpdateTrigger(measObjId, q.obj);
      } else {
        measObjId := FindFree(contexts[q.rnti].objects);
      }
      if measObjId == 0 {
        return;
      }
      if repConfId == 0 {
        repConfId := FindFree(contexts[q.rnti].reports);
      }
      if repConfId == 0 || !q.report.eutra {
        return;
      }
      assert Configured(t, v, q);
      var report := WithDefaults(q.report);
      var id := IdRecord(measId, measObjId, repConfId);
      assert id == RecordOf(t, v, q);
      sent := ReconfigureAdd(q.rnti, id, q.obj, report, env.siAcquisition);
      if sent.None? {
        return;
      }
      triggers := Insert(triggers, Trigger(q.tid, q.rnti, measId, measObjId, q.obj, repConfId, report));
    }

    /** emoai_trig_rrc_measurements, as far as it changes the configuration. */
    method OnReport(rnti: Rnti, measId: nat, agentKnows: bool) returns (sent: Option<Delta>)
      requires ManagerInRange(State()) && 1 <= measId <= MAX_MEAS
      modifies this
      ensures Step(State(), sent) == HandleReport(old(State()), rnti, measId, agentKnows)
    {
      sent := None;
      var found := false;
      for i := 0 to |triggers|
        invariant !found
        invariant Lookup(triggers, rnti, measId) == Lookup(triggers[i..], rnti, measId)
      {
        if triggers[i].rnti == rnti && triggers[i].measId == measId {
          found := true;
          break;
        }
      }
      if found && agentKnows {
        return;
      }
      if rnti in contexts {
        sent := ReconfigureRemove(rnti, measId);
      }
      if found {
        triggers := Without(triggers, rnti, measId);
      }
    }

    /** A UE context is created with empty tables. */
    method UeUp(rnti: Rnti)
      requires rnti !in contexts && ManagerInRange(State())
      modifies this
      ensures State() == Next(old(State()), Event.UeUp(rnti)).manager
    {
      contexts := contexts[rnti := NO_MEASUREMENTS];
    }

    /** A UE context goes, and with it all triggers of the UE. */
    method UeDown(rnti: Rnti)
      requires ManagerInRange(State())
      modifies this
      ensures State() == Next(old(State()), Event.UeDown(rnti)).manager
    {
      triggers := KeepOthers(triggers, rnti);
      contexts := contexts - {rnti};
    }
  }
}
