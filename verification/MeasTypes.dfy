/** Values exchanged between the controller, the eNB and the UE for RRC
    measurements: requests, the records kept in the eNB's per-UE tables, and the
    reconfiguration message that carries changes of them to the UE.
 */
module MeasTypes {
  import opened Options

  /** Slots per table and UE (MAX_MEAS_ID, MAX_MEAS_OBJ, MAX_MEAS_CONFIG). */
  const MAX_MEAS: nat := 7
  /** Cell indices that a CellIndex can name. */
  const MAX_CELLS: nat := 32

  type Rnti = nat

  // ----- Requests of the controller

  /** An optional protobuf scalar: the presence flag and the stored value. */
  datatype Field = Field(has: bool, value: int)

  datatype CellRequest = CellRequest(pci: int, offset: Field)
  datatype BlackRequest = BlackRequest(start: int, range: Field)

  datatype ObjectRequest = ObjectRequest(
    eutra: bool, hasBandwidth: bool, bandwidth: nat, hasCarrier: bool, carrier: nat,
    cells: seq<CellRequest>, black: seq<BlackRequest>)

  datatype Threshold = Rsrp(level: int) | Rsrq(level: int)
  datatype Purpose = ReportCgi | OtherPurpose(code: int)
  datatype Kind =
    | Periodical(purpose: Purpose)
    | A1(limit: Threshold)
    | A2(limit: Threshold)
    | A3(offset: int, leave: Field)
    | A4(limit: Threshold)
    | A5(limit1: Threshold, limit2: Threshold)
    | NotSet

  datatype ReportRequest = ReportRequest(
    eutra: bool, hysteresis: Field, timeToTrigger: Field, triggerQuantity: Field,
    reportQuantity: Field, maxCells: Field, interval: Field, amount: Field, kind: Kind)

  predicate IsCgi(r: ReportRequest) {
    r.kind.Periodical? && r.kind.purpose.ReportCgi?
  }

  // ----- Records in the eNB tables and in messages

  datatype Cell = Cell(pci: int, offset: int)
  datatype BlackCell = BlackCell(start: int, range: int)

  /** A measurement object as encoded: list fields that are absent are empty. */
  datatype ObjectBody = ObjectBody(
    carrier: nat, bandwidth: nat, cgiCell: Option<int>,
    cellsToRemove: seq<nat>, cellsToAdd: seq<(nat, Cell)>,
    blackToRemove: seq<nat>, blackToAdd: seq<(nat, BlackCell)>)

  datatype ReportBody = ReportBody(
    kind: Kind, siRequestForHO: bool, hysteresis: int, timeToTrigger: int, triggerQuantity: int,
    reportQuantity: int, maxCells: int, interval: int, amount: int)

  datatype IdRecord = IdRecord(measId: nat, objectId: nat, reportId: nat)
  datatype ObjectRecord = ObjectRecord(objectId: nat, body: ObjectBody)
  datatype ReportRecord = ReportRecord(reportId: nat, body: ReportBody)

  /** The measurement part of an RRCConnectionReconfiguration message. */
  datatype Delta = Delta(
    objectsToRemove: seq<nat>, objectsToAdd: seq<ObjectRecord>,
    reportsToRemove: seq<nat>, reportsToAdd: seq<ReportRecord>,
    idsToRemove: seq<nat>, idsToAdd: seq<IdRecord>)
}

/** The UE's side: VarMeasConfig and how a received measurement configuration
    changes it, section 5.5.2 of TS 36.331.  This is the replica against which the
    eNB's own bookkeeping is compared.
 */
module MeasUe {
  import opened Options
  import opened MeasTypes

  datatype UeObject = UeObject(
    carrier: nat, bandwidth: nat, cgiCell: Option<int>,
    cells: map<nat, Cell>, black: map<nat, BlackCell>)

  datatype VarMeas = VarMeas(
    ids: map<nat, (nat, nat)>, objects: map<nat, UeObject>, reports: map<nat, ReportBody>)

  const NOTHING := VarMeas(map[], map[], map[])

  function RemoveAll<T>(m: map<nat, T>, ids: seq<nat>): (r: map<nat, T>)
    ensures r == m - (set i | i in ids)
    decreases |ids|
  {
    if ids == [] then m
    else
      assert ids == [ids[0]] + ids[1..];
      RemoveAll(m - {ids[0]}, ids[1..])
  }

  function AddAll<T>(m: map<nat, T>, entries: seq<(nat, T)>): (r: map<nat, T>)
    ensures entries == [] ==> r == m
    decreases |entries|
  {
    if entries == [] then m
    else AddAll(m[entries[0].0 := entries[0].1], entries[1..])
  }

  /** A new entry of measObjectList (section 5.5.2.5, last step). */
  function NewObject(b: ObjectBody): (o: UeObject) {
    UeObject(b.carrier, b.bandwidth, b.cgiCell, AddAll(map[], b.cellsToAdd), AddAll(map[], b.blackToAdd))
  }

  /** Reconfiguring an existing entry (section 5.5.2.5): cell lists are removed from
      and then added to; an absent cellForWhichToReportCGI keeps its value. */
  function ModifyObject(o: UeObject, b: ObjectBody): (r: UeObject) {
    UeObject(b.carrier, b.bandwidth,
      if b.cgiCell.Some? then b.cgiCell else o.cgiCell,
      AddAll(RemoveAll(o.cells, b.cellsToRemove), b.cellsToAdd),
      AddAll(RemoveAll(o.black, b.blackToRemove), b.blackToAdd))
  }

  /** Sections 5.5.2.4 and 5.5.2.6: an entry that goes takes along every measId that
      refers to it. */
  function RemoveObject(v: VarMeas, k: nat): (r: VarMeas) {
    if k !in v.objects then v
    else v.(objects := v.objects - {k}, ids := map i | i in v.ids && v.ids[i].0 != k :: v.ids[i])
  }

  function RemoveReport(v: VarMeas, k: nat): (r: VarMeas) {
    if k !in v.reports then v
    else v.(reports := v.reports - {k}, ids := map i | i in v.ids && v.ids[i].1 != k :: v.ids[i])
  }

  function RemoveObjects(v: VarMeas, ids: seq<nat>): VarMeas
    decreases |ids|
  {
    if ids == [] then v else RemoveObjects(RemoveObject(v, ids[0]), ids[1..])
  }

  function RemoveReports(v: VarMeas, ids: seq<nat>): VarMeas
    decreases |ids|
  {
    if ids == [] then v else RemoveReports(RemoveReport(v, ids[0]), ids[1..])
  }

  /** Section 5.5.2.5. */
  function AddObject(v: VarMeas, mo: ObjectRecord): (r: VarMeas) {
    v.(objects := v.objects[mo.objectId :=
      if mo.objectId in v.objects then ModifyObject(v.objects[mo.objectId], mo.body) else NewObject(mo.body)])
  }

  function AddObjects(v: VarMeas, add: seq<ObjectRecord>): VarMeas
    decreases |add|
  {
    if add == [] then v else AddObjects(AddObject(v, add[0]), add[1..])
  }

  /** Section 5.5.2.7: a received report configuration replaces the stored one. */
  function AddReports(v: VarMeas, add: seq<ReportRecord>): VarMeas
    decreases |add|
  {
    if add == [] then v
    else AddReports(v.(reports := v.reports[add[0].reportId := add[0].body]), add[1..])
  }

  /** Section 5.5.2.3. */
  function AddIds(v: VarMeas, add: seq<IdRecord>): VarMeas
    decreases |add|
  {
    if add == [] then v
    else AddIds(v.(ids := v.ids[add[0].measId := (add[0].objectId, add[0].reportId)]), add[1..])
  }

  /** The order of section 5.5.2.1. */
  function Receive(v: VarMeas, d: Delta): VarMeas {
    var v1 := RemoveObjects(v, d.objectsToRemove);
    var v2 := AddObjects(v1, d.objectsToAdd);
    var v3 := RemoveReports(v2, d.reportsToRemove);
    var v4 := AddReports(v3, d.reportsToAdd);
    var v5 := v4.(ids := RemoveAll(v4.ids, d.idsToRemove));
    AddIds(v5, d.idsToAdd)
  }

  /** A message that only takes away, in one formula. */
  lemma ReceiveRelease(v: VarMeas, d: Delta)
    requires d.objectsToAdd == [] && d.reportsToAdd == [] && d.idsToAdd == []
    requires |d.objectsToRemove| <= 1 && |d.reportsToRemove| <= 1 && |d.idsToRemove| == 1
    ensures
      var v1 := if d.objectsToRemove == [] then v else RemoveObject(v, d.objectsToRemove[0]);
      var v2 := if d.reportsToRemove == [] then v1 else RemoveReport(v1, d.reportsToRemove[0]);
      Receive(v, d) == v2.(ids := v2.ids - {d.idsToRemove[0]})
  {
    var v1 := if d.objectsToRemove == [] then v else RemoveObject(v, d.objectsToRemove[0]);
    assert RemoveObjects(v, d.objectsToRemove) == v1 by {
      assert d.objectsToRemove != [] ==> d.objectsToRemove[1..] == [];
    }
    var v2 := if d.reportsToRemove == [] then v1 else RemoveReport(v1, d.reportsToRemove[0]);
    assert RemoveReports(v1, d.reportsToRemove) == v2 by {
      assert d.reportsToRemove != [] ==> d.reportsToRemove[1..] == [];
    }
    assert RemoveAll(v2.ids, d.idsToRemove) == v2.ids - {d.idsToRemove[0]} by {
      assert d.idsToRemove[1..] == [];
    }
  }

  /** A message that only adds one measurement, in one formula. */
  lemma ReceiveOne(v: VarMeas, mo: ObjectRecord, rc: ReportRecord, id: IdRecord)
    ensures
      Receive(v, Delta([], [mo], [], [rc], [], [id])) ==
      VarMeas(v.ids[id.measId := (id.objectId, id.reportId)], AddObject(v, mo).objects, v.reports[rc.reportId := rc.body])
  {
    var v1 := AddObject(v, mo);
    assert AddObjects(v, [mo]) == v1;
    var v2 := v1.(reports := v1.reports[rc.reportId := rc.body]);
    assert AddReports(v1, [rc]) == v2;
    assert RemoveAll(v2.ids, []) == v2.ids;
    assert AddIds(v2, [id]) == v2.(ids := v2.ids[id.measId := (id.objectId, id.reportId)]);
  }
}
