/** The trigger tree over whole runs: triggers and measurement identities match one
    to one, and one physical frequency has one measurement object.
 */
module MeasTriggers {
  import opened Options
  import opened MeasTypes
  import opened MeasEnb
  import opened MeasIntegrity
  import opened Bands

  // ----- The tree as a sorted sequence

  /** Strictly increasing transaction ids. */
  predicate Sorted(s: seq<Trigger>) {
    forall i, j :: 0 <= i < j < |s| ==> s[i].tid < s[j].tid
  }

  predicate Fresh(s: seq<Trigger>, tid: nat) {
    forall x :: x in s ==> x.tid != tid
  }

  lemma {:induction false} InsertSorted(s: seq<Trigger>, t: Trigger)
    requires Sorted(s)
    ensures Sorted(Insert(s, t))
    ensures Fresh(s, t.tid) ==> t in Insert(s, t)
  {
    if s != [] && t.tid > s[0].tid {
      InsertSorted(s[1..], t);
      SortedCons(s[0], Insert(s[1..], t));
    } else if s != [] {
      assert s[0] in s;
    }
  }

  lemma SortedCons(x: Trigger, r: seq<Trigger>)
    requires Sorted(r) && forall y :: y in r ==> x.tid < y.tid
    ensures Sorted([x] + r)
  {
  }

  lemma {:induction false} WithoutSorted(s: seq<Trigger>, u: Rnti, k: nat)
    requires Sorted(s)
    ensures Sorted(Without(s, u, k))
  {
    if s != [] && !(s[0].rnti == u && s[0].measId == k) {
      WithoutSorted(s[1..], u, k);
      var r := Without(s[1..], u, k);
      forall i | 0 <= i < |r| ensures s[0].tid < r[i].tid {
        assert r[i] in s[1..];
      }
    }
  }

  lemma {:induction false} WithoutUeSorted(s: seq<Trigger>, u: Rnti)
    requires Sorted(s)
    ensures Sorted(WithoutUe(s, u))
  {
    if s != [] {
      WithoutUeSorted(s[1..], u);
      var r := WithoutUe(s[1..], u);
      WithoutUeExact(s[1..], u);
      forall i | 0 <= i < |r| ensures s[0].tid < r[i].tid {
        assert r[i] in r;
        assert r[i] in s[1..];
      }
    }
  }

  /** Every trigger after an update comes from the one at its place before. */
  lemma UpdatedFrom(s: seq<Trigger>, k: nat, o: ObjectRequest, x: Trigger) returns (i: nat)
    requires x in UpdateObject(s, k, o)
    ensures i < |s| && s[i] in s && x == UpdateObject(s, k, o)[i] && Alike(x, s[i])
  {
    var r := UpdateObject(s, k, o);
    i :| 0 <= i < |r| && r[i] == x;
  }

  lemma SamePlace(s: seq<Trigger>, i: nat, j: nat)
    requires Sorted(s) && i < |s| && j < |s| && s[i] == s[j]
    ensures i == j
  {
  }

  lemma UpdateSorted(s: seq<Trigger>, k: nat, o: ObjectRequest)
    requires Sorted(s)
    ensures Sorted(UpdateObject(s, k, o))
  {
    var r := UpdateObject(s, k, o);
    forall i, j | 0 <= i < j < |r| ensures r[i].tid < r[j].tid {
      assert Alike(r[i], s[i]) && Alike(r[j], s[j]);
    }
  }

  // ----- Triggers and measurement identities

  predicate SameKey(x: Trigger, y: Trigger) {
    x.rnti == y.rnti && x.measId == y.measId
  }

  /** No two triggers own the same measurement. */
  predicate KeysUnique(s: seq<Trigger>) {
    forall x, y :: x in s && y in s && SameKey(x, y) ==> x == y
  }

  /** The trigger's measurement is configured at its UE with the trigger's object and
      report configuration. */
  predicate Backed(contexts: map<Rnti, Tables>, x: Trigger) {
    && x.rnti in contexts && Sized(contexts[x.rnti]) && TriggerInRange(x)
    && contexts[x.rnti].ids[x.measId - 1] == Some(IdRecord(x.measId, x.objectId, x.reportId))
  }

  predicate Owned(s: seq<Trigger>, u: Rnti, k: nat) {
    exists x :: x in s && x.rnti == u && x.measId == k
  }

  /** One-to-one: keys are unique, every trigger is backed by a configured
      measurement, and every configured measurement is owned by a trigger. */
  predicate Matched(m: Manager) {
    && Sorted(m.triggers) && KeysUnique(m.triggers)
    && (forall x :: x in m.triggers ==> Backed(m.contexts, x))
    && AllOwned(m.contexts, m.triggers)
  }

  predicate AllOwned(contexts: map<Rnti, Tables>, s: seq<Trigger>) {
    forall u, i :: u in contexts && 0 <= i < |contexts[u].ids| && contexts[u].ids[i].Some? ==> Owned(s, u, i + 1)
  }

  lemma UpdateKeys(s: seq<Trigger>, k: nat, o: ObjectRequest)
    requires Sorted(s) && KeysUnique(s)
    ensures KeysUnique(UpdateObject(s, k, o))
  {
    var r := UpdateObject(s, k, o);
    forall x, y | x in r && y in r && SameKey(x, y) ensures x == y {
      var i := UpdatedFrom(s, k, o, x);
      var j := UpdatedFrom(s, k, o, y);
      assert SameKey(s[i], s[j]);
      SamePlace(s, i, j);
    }
  }

  /** The tree after the object update of a request: same keys, same identities. */
  lemma UpdateMatched(m: Manager, k: nat, o: ObjectRequest)
    requires Matched(m)
    ensures Matched(m.(triggers := UpdateObject(m.triggers, k, o)))
  {
    var s, r := m.triggers, UpdateObject(m.triggers, k, o);
    UpdateSorted(s, k, o);
    UpdateKeys(s, k, o);
    forall x | x in r ensures Backed(m.contexts, x) {
      var i := UpdatedFrom(s, k, o, x);
      assert Backed(m.contexts, s[i]);
    }
    forall u, j | Owned(s, u, j) ensures Owned(r, u, j) {
      UpdateOwned(s, k, o, u, j);
    }
  }

  lemma UpdateOwned(s: seq<Trigger>, k: nat, o: ObjectRequest, u: Rnti, j: nat)
    requires Owned(s, u, j)
    ensures Owned(UpdateObject(s, k, o), u, j)
  {
    var r := UpdateObject(s, k, o);
    var x :| x in s && x.rnti == u && x.measId == j;
    var i :| 0 <= i < |s| && s[i] == x;
    assert Alike(r[i], s[i]) && r[i] in r;
  }

  /** Tables t' are those of UE x.rnti with the measurement of trigger x added. */
  predicate AddsId(m: Manager, t': Tables, x: Trigger) {
    && x.rnti in m.contexts && TriggerInRange(x) && Sized(m.contexts[x.rnti]) && Sized(t')
    && m.contexts[x.rnti].ids[x.measId - 1].None?
    && t'.ids == m.contexts[x.rnti].ids[x.measId - 1 := Some(IdRecord(x.measId, x.objectId, x.reportId))]
  }

  lemma OthersBacked(m: Manager, t': Tables, x: Trigger, y: Trigger)
    requires AddsId(m, t', x) && Backed(m.contexts, y)
    ensures !SameKey(x, y) && Backed(m.contexts[x.rnti := t'], y)
  {
  }

  lemma StillOwned(m: Manager, t': Tables, x: Trigger, r: seq<Trigger>)
    requires AllOwned(m.contexts, m.triggers) && AddsId(m, t', x) && x in r && forall y :: y in m.triggers ==> y in r
    ensures AllOwned(m.contexts[x.rnti := t'], r)
  {
    var contexts := m.contexts[x.rnti := t'];
    forall u, i | u in contexts && 0 <= i < |contexts[u].ids| && contexts[u].ids[i].Some? ensures Owned(r, u, i + 1) {
      if u != x.rnti || i != x.measId - 1 {
        assert m.contexts[u].ids[i].Some?;
        var y :| y in m.triggers && y.rnti == u && y.measId == i + 1;
        assert y in r;
      }
    }
  }

  /** Storing a new measurement together with its trigger keeps the match. */
  lemma ConfigureMatched(m: Manager, t': Tables, x: Trigger)
    requires Matched(m) && AddsId(m, t', x) && Fresh(m.triggers, x.tid)
    ensures Matched(Manager(m.contexts[x.rnti := t'], Insert(m.triggers, x)))
  {
    var contexts, r := m.contexts[x.rnti := t'], Insert(m.triggers, x);
    InsertSorted(m.triggers, x);
    forall y | y in m.triggers ensures !SameKey(x, y) && Backed(contexts, y) {
      OthersBacked(m, t', x, y);
    }
    assert Backed(contexts, x);
    StillOwned(m, t', x, r);
  }

  lemma TailSorted(s: seq<Trigger>, x: Trigger)
    requires Sorted(s) && x in s && x != s[0]
    ensures Sorted(s[1..]) && x in s[1..] && s[0].tid < x.tid
  {
    var i :| 0 <= i < |s| && s[i] == x;
    assert s[1..][i - 1] == x;
  }

  lemma InsertPresent(s: seq<Trigger>, t: Trigger)
    requires Sorted(s) && !Fresh(s, t.tid)
    ensures Insert(s, t) == s
  {
    var x :| x in s && x.tid == t.tid;
    InsertOnto(s, t, x);
  }

  lemma {:induction false} InsertOnto(s: seq<Trigger>, t: Trigger, x: Trigger)
    requires Sorted(s) && x in s && x.tid == t.tid
    ensures Insert(s, t) == s
  {
    if x != s[0] {
      TailSorted(s, x);
      InsertOnto(s[1..], t, x);
    }
  }

  lemma UpdateFresh(s: seq<Trigger>, k: nat, o: ObjectRequest, tid: nat)
    ensures Fresh(UpdateObject(s, k, o), tid) <==> Fresh(s, tid)
  {
    var r := UpdateObject(s, k, o);
    forall i | 0 <= i < |s| ensures r[i].tid == s[i].tid && r[i] in r && s[i] in s {
      assert Alike(r[i], s[i]);
    }
  }

  /** A measurement stored without a trigger of its own breaks the match. */
  lemma ConfigureUnowned(m: Manager, u: Rnti, k: nat, t': Tables)
    requires Matched(m) && u in m.contexts && 1 <= k <= MAX_MEAS
    requires Sized(m.contexts[u]) && Sized(t')
    requires m.contexts[u].ids[k - 1].None? && t'.ids[k - 1].Some?
    ensures !Matched(m.(contexts := m.contexts[u := t']))
  {
    forall x | x in m.triggers ensures x.rnti != u || x.measId != k {
      assert Backed(m.contexts, x);
    }
    assert m.contexts[u := t'][u] == t';
    assert !Owned(m.triggers, u, k - 1 + 1);
  }

  lemma StoreMatched(m: Manager, t': Tables, x: Trigger, typed: bool)
    requires Matched(m) && AddsId(m, t', x)
    ensures Matched(Manager(m.contexts[x.rnti := t'], if typed then Insert(m.triggers, x) else m.triggers)) <==>
      typed && Fresh(m.triggers, x.tid)
  {
    if typed && Fresh(m.triggers, x.tid) {
      ConfigureMatched(m, t', x);
    } else {
      if typed {
        InsertPresent(m.triggers, x);
      }
      ConfigureUnowned(m, x.rnti, x.measId, t');
    }
  }

  lemma ConfigureAdds(m: Manager, v: Verdict, q: Request, si: bool)
    requires q.rnti in m.contexts && InRange(m.contexts[q.rnti]) && Sound(v, q) && Configured(m.contexts[q.rnti], v, q)
    ensures var t := m.contexts[q.rnti]; AddsId(m, ConfigureFor(t, v, q, si).tables, TriggerOf(t, v, q))
  {
  }

  /** A request keeps the match exactly if, should it be configured, it has a report
      type and its transaction id is not in use. */
  lemma JudgedMatched(m: Manager, v: Verdict, q: Request, si: bool)
    requires ManagerInRange(m) && Matched(m) && q.rnti in m.contexts && Sound(v, q)
    ensures Matched(HandleJudged(m, v, q, si).manager) <==>
      (Configured(m.contexts[q.rnti], v, q) ==> !q.report.kind.NotSet? && Fresh(m.triggers, q.tid))
  {
    var t := m.contexts[q.rnti];
    var s := if Admitted(t, v, q) && v.obj > 0 then UpdateObject(m.triggers, v.obj, q.obj) else m.triggers;
    if Admitted(t, v, q) && v.obj > 0 {
      UpdateMatched(m, v.obj, q.obj);
      UpdateFresh(m.triggers, v.obj, q.obj, q.tid);
    }
    if Configured(t, v, q) {
      ConfigureAdds(m.(triggers := s), v, q, si);
      StoreMatched(m.(triggers := s), ConfigureFor(t, v, q, si).tables, TriggerOf(t, v, q), !q.report.kind.NotSet?);
    } else {
      assert m.contexts[q.rnti := t] == m.contexts;
    }
  }

  /** Measurement k of UE u and its trigger go together. */
  lemma ReleaseMatched(m: Manager, u: Rnti, k: nat, t': Tables)
    requires Matched(m) && u in m.contexts && 1 <= k <= MAX_MEAS && Sized(m.contexts[u]) && Sized(t')
    requires t'.ids == m.contexts[u].ids[k - 1 := None]
    ensures Matched(Manager(m.contexts[u := t'], Without(m.triggers, u, k)))
  {
    var contexts, r := m.contexts[u := t'], Without(m.triggers, u, k);
    WithoutSorted(m.triggers, u, k);
    forall x | x in r ensures Backed(contexts, x) {
      assert Backed(m.contexts, x);
      if x.rnti == u && x.measId == k {
        WithoutKey(m.triggers, u, k, x);
      }
    }
    forall w, i | w in contexts && 0 <= i < |contexts[w].ids| && contexts[w].ids[i].Some?
      ensures Owned(r, w, i + 1)
    {
      assert m.contexts[w].ids[i].Some? && !(w == u && i == k - 1);
      var x :| x in m.triggers && x.rnti == w && x.measId == i + 1;
      assert x in r;
    }
  }

  /** A report for a measurement nobody asked for finds nothing to release; otherwise
      the measurement and its trigger go together. */
  lemma ReportMatched(m: Manager, u: Rnti, k: nat, knows: bool)
    requires ManagerInRange(m) && Matched(m) && 1 <= k <= MAX_MEAS
    ensures Matched(HandleReport(m, u, k, knows).manager)
  {
    var known := Lookup(m.triggers, u, k);
    if known.Some? && !knows {
      assert Backed(m.contexts, known.value);
      ReleaseMatched(m, u, k, Release(m.contexts[u], k).tables);
    } else if known.None? && u in m.contexts {
      if m.contexts[u].ids[k - 1].Some? {
        LiveIsOwned(m, u, k);
      }
      assert m.contexts[u := m.contexts[u]] == m.contexts;
    }
  }

  lemma LiveIsOwned(m: Manager, u: Rnti, k: nat)
    requires Matched(m) && u in m.contexts && 1 <= k <= |m.contexts[u].ids| && m.contexts[u].ids[k - 1].Some?
    ensures Owned(m.triggers, u, k)
  {
    var i := k - 1;
    assert Owned(m.triggers, u, i + 1);
  }

  lemma {:induction false} WithoutKey(s: seq<Trigger>, u: Rnti, k: nat, x: Trigger)
    requires Sorted(s) && KeysUnique(s) && x.rnti == u && x.measId == k
    ensures x !in Without(s, u, k)
  {
    if s != [] {
      assert KeysUnique(s[1..]);
      if s[0].rnti == u && s[0].measId == k {
        if x in s[1..] {
          var i :| 0 <= i < |s| - 1 && s[1..][i] == x;
          assert s[i + 1] == x && SameKey(x, s[0]) && s[0] in s;
        }
      } else {
        WithoutKey(s[1..], u, k, x);
      }
    }
  }

  lemma UeDownMatched(m: Manager, u: Rnti)
    requires Matched(m)
    ensures Matched(Manager(m.contexts - {u}, WithoutUe(m.triggers, u)))
  {
    WithoutUeSorted(m.triggers, u);
    WithoutUeExact(m.triggers, u);
    var r := WithoutUe(m.triggers, u);
    forall x | x in r ensures Backed(m.contexts - {u}, x) {
      assert Backed(m.contexts, x);
    }
    forall w, i | w in m.contexts - {u} && 0 <= i < |m.contexts[w].ids| && m.contexts[w].ids[i].Some?
      ensures Owned(r, w, i + 1)
    {
      var x :| x in m.triggers && x.rnti == w && x.measId == i + 1;
      assert x in r;
    }
  }

  lemma UeUpMatched(m: Manager, u: Rnti)
    requires Matched(m) && u !in m.contexts
    ensures Matched(m.(contexts := m.contexts[u := NO_MEASUREMENTS]))
  {
    var contexts := m.contexts[u := NO_MEASUREMENTS];
    forall x | x in m.triggers ensures Backed(contexts, x) {
      assert Backed(m.contexts, x);
    }
  }

  // ----- One physical frequency, one object

  /** The trigger's object, as stored for its UE, measures the trigger's carrier. */
  predicate OnCarrier(contexts: map<Rnti, Tables>, x: Trigger) {
    && Backed(contexts, x)
    && contexts[x.rnti].objects[x.objectId - 1].Some?
    && contexts[x.rnti].objects[x.objectId - 1].value.body.carrier == x.obj.carrier
  }

  /** Triggers on one physical frequency name it alike and share the object. */
  predicate Consistent(s: seq<Trigger>, freq: nat -> int) {
    forall x, y :: x in s && y in s && freq(x.obj.carrier) == freq(y.obj.carrier) ==>
      x.obj.carrier == y.obj.carrier && x.objectId == y.objectId
  }

  predicate CarriersKept(m: Manager, freq: nat -> int) {
    Consistent(m.triggers, freq) && forall x :: x in m.triggers ==> OnCarrier(m.contexts, x)
  }

  /** All triggers are for one UE. */
  predicate OneUe(m: Manager, u: Rnti) {
    forall x :: x in m.triggers ==> x.rnti == u
  }

  /** Scanning consistent triggers is independent of their order: any trigger on the
      requested frequency gives the answer. */
  lemma {:induction false} ScanDetermined(s: seq<Trigger>, carrier: nat, x: Trigger, freq: nat -> int)
    requires Consistent(s, freq) && x in s && freq(x.obj.carrier) == freq(carrier)
    ensures ScanObjects(s, carrier, freq) == if x.obj.carrier == carrier then x.objectId else -1
  {
    if CompareCarriers(freq, carrier, s[0].obj.carrier) == 0 {
      assert x in s[1..];
      ScanDetermined(s[1..], carrier, x, freq);
    } else {
      assert s[0] in s;
    }
  }

  lemma {:induction false} ScanMisses(s: seq<Trigger>, carrier: nat, freq: nat -> int)
    requires forall x :: x in s ==> freq(x.obj.carrier) != freq(carrier)
    ensures ScanObjects(s, carrier, freq) == 0
  {
    if s != [] {
      assert s[0] in s;
      ScanMisses(s[1..], carrier, freq);
    }
  }

  /** The first-match scan gives the same answer in any tree order. */
  lemma ScanOrderIrrelevant(s: seq<Trigger>, r: seq<Trigger>, carrier: nat, freq: nat -> int)
    requires Consistent(s, freq) && forall x :: x in s <==> x in r
    ensures ScanObjects(s, carrier, freq) == ScanObjects(r, carrier, freq)
  {
    if x :| x in s && freq(x.obj.carrier) == freq(carrier) {
      ScanDetermined(s, carrier, x, freq);
      ScanDetermined(r, carrier, x, freq);
    } else {
      ScanMisses(s, carrier, freq);
      ScanMisses(r, carrier, freq);
    }
  }

  /** In a matched, tidy state with consistent carriers no two objects of the UE share
      a physical frequency. */
  lemma DistinctFrequencies(m: Manager, u: Rnti, i: nat, j: nat, freq: nat -> int)
    requires Matched(m) && CarriersKept(m, freq) && AllTidy(m) && u in m.contexts
    requires i < MAX_MEAS && j < MAX_MEAS && i != j
    requires m.contexts[u].objects[i].Some? && m.contexts[u].objects[j].Some?
    ensures freq(m.contexts[u].objects[i].value.body.carrier)
         != freq(m.contexts[u].objects[j].value.body.carrier)
  {
    assert Tidy(m.contexts[u]);
    var x := OwnerOf(m, u, i, freq);
    var y := OwnerOf(m, u, j, freq);
  }

  lemma OwnerOf(m: Manager, u: Rnti, i: nat, freq: nat -> int) returns (x: Trigger)
    requires Matched(m) && CarriersKept(m, freq) && u in m.contexts
    requires Sized(m.contexts[u]) && ObjectsUsed(m.contexts[u])
    requires i < MAX_MEAS && m.contexts[u].objects[i].Some?
    ensures x in m.triggers && x.rnti == u && x.objectId == i + 1
    ensures x.obj.carrier == m.contexts[u].objects[i].value.body.carrier
  {
    var t := m.contexts[u];
    assert ObjectUsed(t.ids, i + 1);
    var k :| 0 <= k < |t.ids| && Holds(t.ids[k], i + 1);
    x := TriggerAt(m, u, k + 1);
    assert OnCarrier(m.contexts, x);
  }

  lemma TriggerAt(m: Manager, u: Rnti, k: nat) returns (x: Trigger)
    requires Matched(m) && u in m.contexts && 1 <= k <= |m.contexts[u].ids| && m.contexts[u].ids[k - 1].Some?
    ensures x in m.triggers && x.rnti == u && x.measId == k
    ensures m.contexts[u].ids[k - 1].value.objectId == x.objectId
  {
    LiveIsOwned(m, u, k);
    x :| x in m.triggers && x.rnti == u && x.measId == k;
    assert Backed(m.contexts, x);
  }

  lemma UpdateCarriers(m: Manager, k: nat, o: ObjectRequest, freq: nat -> int)
    requires CarriersKept(m, freq)
    ensures CarriersKept(m.(triggers := UpdateObject(m.triggers, k, o)), freq)
  {
    var s, r := m.triggers, UpdateObject(m.triggers, k, o);
    forall x | x in r
      ensures OnCarrier(m.contexts, x)
      ensures exists y :: y in s && y.obj.carrier == x.obj.carrier && y.objectId == x.objectId
    {
      var i :| 0 <= i < |r| && r[i] == x;
      assert Alike(r[i], s[i]) && s[i] in s;
      assert OnCarrier(m.contexts, s[i]);
    }
  }

  /** t' is t with the measurement of trigger x stored, its object being mo. */
  predicate Stores(t: Tables, t': Tables, x: Trigger, mo: ObjectRecord) {
    && Sized(t) && Sized(t') && TriggerInRange(x)
    && t.ids[x.measId - 1].None? && mo.body.carrier == x.obj.carrier
    && t'.ids == t.ids[x.measId - 1 := Some(IdRecord(x.measId, x.objectId, x.reportId))]
    && t'.objects == t.objects[x.objectId - 1 := Some(mo)]
  }

  lemma KeepsCarriers(m: Manager, t': Tables, x: Trigger, mo: ObjectRecord, freq: nat -> int)
    requires CarriersKept(m, freq) && x.rnti in m.contexts && Stores(m.contexts[x.rnti], t', x, mo)
    requires ScanObjects(m.triggers, x.obj.carrier, freq) == x.objectId ||
      ScanObjects(m.triggers, x.obj.carrier, freq) == 0
    requires OnOrNone(m.contexts[x.rnti].objects[x.objectId - 1], x.obj.carrier)
    ensures CarriersKept(Manager(m.contexts[x.rnti := t'], Insert(m.triggers, x)), freq)
  {
    var contexts := m.contexts[x.rnti := t'];
    forall y | y in m.triggers
      ensures OnCarrier(contexts, y)
      ensures freq(y.obj.carrier) == freq(x.obj.carrier) ==>
        y.obj.carrier == x.obj.carrier && y.objectId == x.objectId
    {
      assert OnCarrier(m.contexts, y);
      if freq(y.obj.carrier) == freq(x.obj.carrier) {
        ScanDetermined(m.triggers, x.obj.carrier, y, freq);
      }
    }
    assert OnCarrier(contexts, x);
  }

  lemma BreaksCarriers(m: Manager, t': Tables, x: Trigger, mo: ObjectRecord, freq: nat -> int)
    requires Matched(m) && CarriersKept(m, freq) && x.rnti in m.contexts && Stores(m.contexts[x.rnti], t', x, mo)
    requires ObjectsUsed(m.contexts[x.rnti])
    requires !OnOrNone(m.contexts[x.rnti].objects[x.objectId - 1], x.obj.carrier)
    ensures !CarriersKept(Manager(m.contexts[x.rnti := t'], Insert(m.triggers, x)), freq)
  {
    var y := OwnerOf(m, x.rnti, x.objectId - 1, freq);
    assert y in Insert(m.triggers, x);
    assert !OnCarrier(m.contexts[x.rnti := t'], y);
  }

  predicate OnOrNone(stored: Option<ObjectRecord>, carrier: nat) {
    stored.Some? ==> stored.value.body.carrier == carrier
  }

  lemma {:induction false} ScanFinds(s: seq<Trigger>, carrier: nat, freq: nat -> int)
    requires ScanObjects(s, carrier, freq) > 0
    ensures exists z :: z in s && z.obj.carrier == carrier && z.objectId == ScanObjects(s, carrier, freq)
  {
    if CompareCarriers(freq, carrier, s[0].obj.carrier) > 0 {
      assert s[0] in s;
    } else {
      ScanFinds(s[1..], carrier, freq);
    }
  }

  lemma {:induction false} ScanAfterUpdate(s: seq<Trigger>, k: nat, o: ObjectRequest, carrier: nat, freq: nat -> int)
    ensures ScanObjects(UpdateObject(s, k, o), carrier, freq) == ScanObjects(s, carrier, freq)
  {
    if s != [] {
      ScanAfterUpdate(s[1..], k, o, carrier, freq);
      var r := UpdateObject(s, k, o);
      if s[0].objectId == k {
        assert r[1..] == s[1..];
      } else {
        assert r[1..] == UpdateObject(s[1..], k, o);
      }
    }
  }

  lemma ConfigureStores(t: Tables, v: Verdict, q: Request, si: bool) returns (mo: ObjectRecord)
    requires InRange(t) && Sound(v, q) && Configured(t, v, q)
    ensures Stores(t, ConfigureFor(t, v, q, si).tables, TriggerOf(t, v, q), mo)
  {
    mo := ObjectRecord(ObjectIdFor(t, v), BuildObject(q.obj, IsCgi(WithDefaults(q.report))));
  }

  /** Storing a new measurement keeps the carriers exactly if its object was free or on the
      carrier already. */
  lemma StoreCarriers(m: Manager, t': Tables, x: Trigger, mo: ObjectRecord, freq: nat -> int)
    requires Matched(m) && CarriersKept(m, freq) && x.rnti in m.contexts && Stores(m.contexts[x.rnti], t', x, mo)
    requires ObjectsUsed(m.contexts[x.rnti])
    requires ScanObjects(m.triggers, x.obj.carrier, freq) == x.objectId ||
      ScanObjects(m.triggers, x.obj.carrier, freq) == 0
    ensures CarriersKept(Manager(m.contexts[x.rnti := t'], Insert(m.triggers, x)), freq) <==>
      OnOrNone(m.contexts[x.rnti].objects[x.objectId - 1], x.obj.carrier)
  {
    if OnOrNone(m.contexts[x.rnti].objects[x.objectId - 1], x.obj.carrier) {
      KeepsCarriers(m, t', x, mo, freq);
    } else {
      BreaksCarriers(m, t', x, mo, freq);
    }
  }

  /** A new object has a free identity, so only a reused one can be on another carrier. */
  lemma FreeOrReused(t: Tables, v: Verdict, q: Request)
    requires InRange(t) && Sound(v, q) && Configured(t, v, q)
    ensures var x := TriggerOf(t, v, q);
      && x.rnti == q.rnti && x.obj == q.obj && (v.obj > 0 ==> x.objectId == v.obj)
      && (OnOrNone(t.objects[x.objectId - 1], q.obj.carrier) <==> ReusesOwn(t, v, q))
  {
  }

  lemma ConfigureJudgedCarriers(m: Manager, v: Verdict, q: Request, si: bool, freq: nat -> int)
    requires Matched(m) && CarriersKept(m, freq) && q.rnti in m.contexts
    requires InRange(m.contexts[q.rnti]) && ObjectsUsed(m.contexts[q.rnti])
    requires Sound(v, q) && Configured(m.contexts[q.rnti], v, q)
    requires v.obj == ScanObjects(m.triggers, q.obj.carrier, freq)
    ensures var t := m.contexts[q.rnti];
      CarriersKept(Manager(m.contexts[q.rnti := ConfigureFor(t, v, q, si).tables],
                           Insert(m.triggers, TriggerOf(t, v, q))), freq)
      <==> ReusesOwn(t, v, q)
  {
    var t := m.contexts[q.rnti];
    FreeOrReused(t, v, q);
    var mo := ConfigureStores(t, v, q, si);
    StoreJudged(m, ConfigureFor(t, v, q, si).tables, TriggerOf(t, v, q), mo, freq, ReusesOwn(t, v, q));
  }

  lemma StoreJudged(m: Manager, t': Tables, x: Trigger, mo: ObjectRecord, freq: nat -> int, own: bool)
    requires Matched(m) && CarriersKept(m, freq) && x.rnti in m.contexts && Stores(m.contexts[x.rnti], t', x, mo)
    requires ObjectsUsed(m.contexts[x.rnti])
    requires ScanObjects(m.triggers, x.obj.carrier, freq) > 0 ==> ScanObjects(m.triggers, x.obj.carrier, freq) == x.objectId
    requires ScanObjects(m.triggers, x.obj.carrier, freq) != -1
    requires own <==> OnOrNone(m.contexts[x.rnti].objects[x.objectId - 1], x.obj.carrier)
    ensures CarriersKept(Manager(m.contexts[x.rnti := t'], Insert(m.triggers, x)), freq) <==> own
  {
    ScanFrom(m.triggers, x.obj.carrier, freq);
    StoreCarriers(m, t', x, mo, freq);
  }

  lemma {:induction false} ScanFrom(s: seq<Trigger>, carrier: nat, freq: nat -> int)
    ensures ScanObjects(s, carrier, freq) >= -1
  {
    if s != [] {
      ScanFrom(s[1..], carrier, freq);
    }
  }

  /** An object identity taken over from a trigger is, in the requesting UE's own table,
      free or on the requested carrier. */
  predicate ReusesOwn(t: Tables, v: Verdict, q: Request)
    requires Sized(t) && Sound(v, q)
  {
    v.obj > 0 ==> OnOrNone(t.objects[v.obj - 1], q.obj.carrier)
  }

  lemma JudgedCarriers(m: Manager, v: Verdict, q: Request, si: bool, freq: nat -> int)
    requires ManagerInRange(m) && Matched(m) && AllTidy(m) && CarriersKept(m, freq)
    requires q.rnti in m.contexts && Sound(v, q)
    requires q.obj.eutra && v.obj != -1 ==> v.obj == ScanObjects(m.triggers, q.obj.carrier, freq)
    requires Configured(m.contexts[q.rnti], v, q) ==> !q.report.kind.NotSet?
    ensures CarriersKept(HandleJudged(m, v, q, si).manager, freq) <==>
      (Configured(m.contexts[q.rnti], v, q) ==> ReusesOwn(m.contexts[q.rnti], v, q))
  {
    var t := m.contexts[q.rnti];
    var reuse := Admitted(t, v, q) && v.obj > 0;
    var m1 := m.(triggers := if reuse then UpdateObject(m.triggers, v.obj, q.obj) else m.triggers);
    if reuse {
      UpdateCarriers(m, v.obj, q.obj, freq);
      UpdateMatched(m, v.obj, q.obj);
      ScanAfterUpdate(m.triggers, v.obj, q.obj, q.obj.carrier, freq);
    }
    if Configured(t, v, q) {
      assert Tidy(t);
      ConfigureJudgedCarriers(m1, v, q, si, freq);
    } else {
      assert m.contexts[q.rnti := t] == m.contexts;
    }
  }

  /** A release keeps the object of every other measurement. */
  lemma ReleaseKeepsOthers(t: Tables, k: nat, i: nat)
    requires InRange(t) && 1 <= k <= MAX_MEAS && 1 <= i <= MAX_MEAS
    requires Release(t, k).tables.ids[i - 1].Some?
    ensures t.ids[i - 1] == Release(t, k).tables.ids[i - 1]
    ensures var o := t.ids[i - 1].value.objectId; Release(t, k).tables.objects[o - 1] == t.objects[o - 1]
  {
    if t.ids[k - 1].Some? {
      var ids := t.ids[k - 1 := None];
      assert Holds(ids[i - 1], ids[i - 1].value.objectId);
    }
  }

  lemma ReleaseOnCarrier(contexts: map<Rnti, Tables>, u: Rnti, k: nat, x: Trigger)
    requires u in contexts && InRange(contexts[u]) && 1 <= k <= MAX_MEAS && OnCarrier(contexts, x)
    requires Backed(contexts[u := Release(contexts[u], k).tables], x)
    ensures OnCarrier(contexts[u := Release(contexts[u], k).tables], x)
  {
    if x.rnti == u {
      ReleaseKeepsOthers(contexts[u], k, x.measId);
    }
  }

  lemma FewerConsistent(s: seq<Trigger>, r: seq<Trigger>, freq: nat -> int)
    requires Consistent(s, freq) && forall x :: x in r ==> x in s
    ensures Consistent(r, freq)
  {
  }

  lemma ReportCarriers(m: Manager, u: Rnti, k: nat, knows: bool, freq: nat -> int)
    requires ManagerInRange(m) && Matched(m) && CarriersKept(m, freq) && 1 <= k <= MAX_MEAS
    ensures CarriersKept(HandleReport(m, u, k, knows).manager, freq)
  {
    var m' := HandleReport(m, u, k, knows).manager;
    assert Matched(m') by {
      ReportMatched(m, u, k, knows);
    }
    assert forall x :: x in m'.triggers ==> x in m.triggers;
    FewerConsistent(m.triggers, m'.triggers, freq);
    if m'.contexts != m.contexts {
      forall x | x in m'.triggers ensures OnCarrier(m'.contexts, x) {
        assert OnCarrier(m.contexts, x) && Backed(m'.contexts, x);
        ReleaseOnCarrier(m.contexts, u, k, x);
      }
    }
  }

  lemma UeUpCarriers(m: Manager, w: Rnti, freq: nat -> int)
    requires CarriersKept(m, freq) && w !in m.contexts
    ensures CarriersKept(m.(contexts := m.contexts[w := NO_MEASUREMENTS]), freq)
  {
    forall x | x in m.triggers ensures OnCarrier(m.contexts[w := NO_MEASUREMENTS], x) {
      assert OnCarrier(m.contexts, x);
    }
  }

  lemma UeDownCarriers(m: Manager, w: Rnti, freq: nat -> int)
    requires CarriersKept(m, freq)
    ensures CarriersKept(Manager(m.contexts - {w}, WithoutUe(m.triggers, w)), freq)
  {
    WithoutUeExact(m.triggers, w);
    forall x | x in WithoutUe(m.triggers, w) ensures OnCarrier(m.contexts - {w}, x) {
      assert OnCarrier(m.contexts, x);
    }
  }

  // ----- At most one CGI measurement

  predicate AtMostOneCgi(s: seq<Trigger>) {
    forall x, y :: x in s && y in s && IsCgi(x.report) && IsCgi(y.report) ==> x == y
  }

  lemma UpdateCgi(s: seq<Trigger>, k: nat, o: ObjectRequest)
    requires Sorted(s) && AtMostOneCgi(s)
    ensures AtMostOneCgi(UpdateObject(s, k, o))
  {
    var r := UpdateObject(s, k, o);
    forall x, y | x in r && y in r && IsCgi(x.report) && IsCgi(y.report) ensures x == y {
      var i := UpdatedFrom(s, k, o, x);
      var j := UpdatedFrom(s, k, o, y);
      SamePlace(s, i, j);
    }
  }

  lemma InsertCgi(s: seq<Trigger>, x: Trigger)
    requires AtMostOneCgi(s) && (IsCgi(x.report) ==> s == [])
    ensures AtMostOneCgi(Insert(s, x))
  {
  }

  lemma JudgedCgi(triggers: seq<Trigger>, t: Tables, v: Verdict, q: Request)
    requires Sized(t) && Sound(v, q) && Sorted(triggers) && AtMostOneCgi(triggers)
    requires q.report.eutra && IsCgi(q.report) && v.report != -1 ==> triggers == []
    ensures AtMostOneCgi(TriggersAfter(triggers, t, v, q))
  {
    var updated := triggers;
    if Admitted(t, v, q) && v.obj > 0 {
      UpdateCgi(triggers, v.obj, q.obj);
      updated := UpdateObject(triggers, v.obj, q.obj);
    }
    if Configured(t, v, q) && !q.report.kind.NotSet? {
      assert IsCgi(TriggerOf(t, v, q).report) == IsCgi(q.report);
      InsertCgi(updated, TriggerOf(t, v, q));
    }
  }

  // ----- Whole runs

  /** Everything above at once, for any number of UEs. */
  predicate Kept(m: Manager) {
    ManagerInRange(m) && AllTidy(m) && AllTyped(m.triggers) && Matched(m) && AtMostOneCgi(m.triggers)
  }

  /** A request that gets configured has a report type and an unused transaction id. */
  predicate WellBehaved(m: Manager, e: Event)
    requires ManagerInRange(m) && Enabled(m, e)
  {
    e.Ask? && Configured(m.contexts[e.request.rnti], Judge(m, e.env, e.request), e.request) ==>
      !e.request.report.kind.NotSet? && Fresh(m.triggers, e.request.tid)
  }

  ghost predicate WellBehavedRun(m: Manager, es: seq<Event>)
    requires ManagerInRange(m) && ValidRun(m, es)
    decreases |es|
  {
    es != [] ==> WellBehaved(m, es[0]) && WellBehavedRun(Next(m, es[0]).manager, es[1..])
  }

  ghost predicate AlwaysKept(m: Manager, es: seq<Event>)
    requires ManagerInRange(m) && ValidRun(m, es)
    decreases |es|
  {
    Kept(m) && (es != [] ==> AlwaysKept(Next(m, es[0]).manager, es[1..]))
  }

  lemma AskKept(m: Manager, env: Env, q: Request)
    requires Kept(m) && q.rnti in m.contexts
    ensures Matched(HandleRequest(m, env, q).manager) <==> WellBehaved(m, Ask(env, q))
    ensures AtMostOneCgi(HandleRequest(m, env, q).manager.triggers)
  {
    var v := Judge(m, env, q);
    JudgeSound(m, env, q);
    JudgedMatched(m, v, q, env.siAcquisition);
    JudgedCgi(m.triggers, m.contexts[q.rnti], v, q);
  }

  lemma StepKept(m: Manager, e: Event)
    requires Kept(m) && Enabled(m, e)
    ensures Kept(Next(m, e).manager) <==> WellBehaved(m, e)
  {
    StepTidy(m, e);
    NextTyped(m, e);
    match e {
      case Ask(env, q) => AskKept(m, env, q);
      case Report(u, k, knows) => ReportMatched(m, u, k, knows);
      case UeUp(u) => UeUpMatched(m, u);
      case UeDown(u) =>
        UeDownMatched(m, u);
        WithoutUeExact(m.triggers, u);
    }
  }

  /** Every run, any number of UEs: after every event triggers and configured
      measurements match one to one and the tables are tidy, if and only if the run is well
      behaved.  That at most one CGI measurement is stored does not depend on it: see CgiRuns
      in module MeasCgi. */
  lemma {:induction false} KeptRuns(m: Manager, es: seq<Event>)
    requires Kept(m) && ValidRun(m, es)
    ensures AlwaysKept(m, es) <==> WellBehavedRun(m, es)
    decreases |es|
  {
    if es != [] {
      StepKept(m, es[0]);
      if WellBehaved(m, es[0]) {
        KeptRuns(Next(m, es[0]).manager, es[1..]);
      }
    }
  }

  /** A configured request does not take over an identity under which its UE measures
      another carrier. */
  predicate CarrierSafe(m: Manager, e: Event)
    requires ManagerInRange(m) && Enabled(m, e)
  {
    e.Ask? ==>
      (JudgeSound(m, e.env, e.request);
       var t, v := m.contexts[e.request.rnti], Judge(m, e.env, e.request);
       Configured(t, v, e.request) ==> ReusesOwn(t, v, e.request))
  }

  ghost predicate AlwaysCarrierSafe(m: Manager, es: seq<Event>)
    requires ManagerInRange(m) && ValidRun(m, es)
    decreases |es|
  {
    es != [] ==> CarrierSafe(m, es[0]) && AlwaysCarrierSafe(Next(m, es[0]).manager, es[1..])
  }

  ghost predicate AlwaysOnCarrier(m: Manager, es: seq<Event>)
    requires ManagerInRange(m) && ValidRun(m, es)
    decreases |es|
  {
    CarriersKept(m, Frequency) && (es != [] ==> AlwaysOnCarrier(Next(m, es[0]).manager, es[1..]))
  }

  lemma StepCarriers(m: Manager, e: Event)
    requires Kept(m) && CarriersKept(m, Frequency) && Enabled(m, e) && WellBehaved(m, e)
    ensures CarriersKept(Next(m, e).manager, Frequency) <==> CarrierSafe(m, e)
  {
    match e {
      case Ask(env, q) =>
        JudgeSound(m, env, q);
        JudgedCarriers(m, Judge(m, env, q), q, env.siAcquisition, Frequency);
      case Report(w, k, knows) => ReportCarriers(m, w, k, knows, Frequency);
      case UeUp(w) => UeUpCarriers(m, w, Frequency);
      case UeDown(w) => UeDownCarriers(m, w, Frequency);
    }
  }

  /** Every well-behaved run, any number of UEs: each trigger's object stays on the
      trigger's carrier, and triggers on one frequency share one object, if and only if no
      configured request takes over an identity its UE uses for another carrier. */
  lemma {:induction false} CarrierRuns(m: Manager, es: seq<Event>)
    requires Kept(m) && CarriersKept(m, Frequency) && ValidRun(m, es) && WellBehavedRun(m, es)
    ensures AlwaysOnCarrier(m, es) <==> AlwaysCarrierSafe(m, es)
    decreases |es|
  {
    if es != [] {
      StepKept(m, es[0]);
      StepCarriers(m, es[0]);
      if CarrierSafe(m, es[0]) {
        CarrierRuns(Next(m, es[0]).manager, es[1..]);
      }
    }
  }

  // ----- One UE

  predicate OnlyUe(e: Event, u: Rnti) {
    e.Ask? ==> e.request.rnti == u
  }

  lemma JudgedOneUe(triggers: seq<Trigger>, t: Tables, v: Verdict, q: Request)
    requires Sized(t) && Sound(v, q) && forall x :: x in triggers ==> x.rnti == q.rnti
    ensures forall x :: x in TriggersAfter(triggers, t, v, q) ==> x.rnti == q.rnti
  {
    var r := UpdateObject(triggers, if v.obj > 0 then v.obj else 0, q.obj);
    forall x | x in r ensures x.rnti == q.rnti {
      var i :| 0 <= i < |r| && r[i] == x;
      assert Alike(r[i], triggers[i]) && triggers[i] in triggers;
    }
  }

  lemma StaysOneUe(m: Manager, e: Event, u: Rnti)
    requires ManagerInRange(m) && OneUe(m, u) && Enabled(m, e) && OnlyUe(e, u)
    ensures OneUe(Next(m, e).manager, u)
  {
    if e.UeDown? {
      WithoutUeExact(m.triggers, e.rnti);
    }
    if e.Ask? {
      JudgeSound(m, e.env, e.request);
      JudgedOneUe(m.triggers, m.contexts[u], Judge(m, e.env, e.request), e.request);
    }
  }

  lemma StepOneUe(m: Manager, e: Event, u: Rnti)
    requires ManagerInRange(m) && CarriersKept(m, Frequency) && OneUe(m, u) && Enabled(m, e) && OnlyUe(e, u)
    ensures CarrierSafe(m, e)
  {
    if e.Ask? {
      var q := e.request;
      var v := Judge(m, e.env, q);
      JudgeSound(m, e.env, q);
      if q.obj.eutra && v.obj > 0 {
        OwnObject(m, q.rnti, v.obj, q.obj.carrier, Frequency);
      }
    }
  }

  /** With one UE, an object found by the scan is that UE's own. */
  lemma OwnObject(m: Manager, u: Rnti, k: int, carrier: nat, freq: nat -> int)
    requires CarriersKept(m, freq) && OneUe(m, u) && u in m.contexts && Sized(m.contexts[u])
    requires 1 <= k <= MAX_MEAS && ScanObjects(m.triggers, carrier, freq) == k
    ensures OnOrNone(m.contexts[u].objects[k - 1], carrier)
  {
    ScanFinds(m.triggers, carrier, freq);
    var z :| z in m.triggers && z.obj.carrier == carrier && z.objectId == k;
    assert OnCarrier(m.contexts, z);
  }

  /** Requests of one UE never break the carriers, and at the end of every well-behaved run
      no two of its measurement objects share a physical frequency. */
  lemma {:induction false} OneUeRuns(m: Manager, es: seq<Event>, u: Rnti)
    requires Kept(m) && CarriersKept(m, Frequency) && OneUe(m, u)
    requires ValidRun(m, es) && WellBehavedRun(m, es) && forall e :: e in es ==> OnlyUe(e, u)
    ensures AlwaysCarrierSafe(m, es)
    ensures u in After(m, es).contexts ==> Apart(After(m, es).contexts[u])
    decreases |es|
  {
    if es == [] {
      if u in m.contexts {
        StateApart(m, u);
      }
    } else {
      assert es[0] in es;
      StepKept(m, es[0]);
      StaysOneUe(m, es[0], u);
      StepOneUe(m, es[0], u);
      StepCarriers(m, es[0]);
      assert forall e :: e in es[1..] ==> e in es;
      OneUeRuns(Next(m, es[0]).manager, es[1..], u);
    }
  }

  /** No two objects on one physical frequency. */
  predicate Apart(t: Tables) {
    forall i, j :: 0 <= i < j < |t.objects| && t.objects[i].Some? && t.objects[j].Some? ==>
      Frequency(t.objects[i].value.body.carrier) != Frequency(t.objects[j].value.body.carrier)
  }

  lemma StateApart(m: Manager, u: Rnti)
    requires Kept(m) && CarriersKept(m, Frequency) && u in m.contexts
    ensures Apart(m.contexts[u])
  {
    var t := m.contexts[u];
    assert Tidy(t);
    forall i, j | 0 <= i < j < |t.objects| && t.objects[i].Some? && t.objects[j].Some?
      ensures Frequency(t.objects[i].value.body.carrier) != Frequency(t.objects[j].value.body.carrier)
    {
      DistinctFrequencies(m, u, i, j, Frequency);
    }
  }
}
