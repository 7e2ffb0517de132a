/** The table of UE slots of one carrier: adding, finding and removing UEs by RNTI.
    The table refines a partial injective map from RNTI to slot.
 */
module UeTable {

  const SLOTS: nat := 16

  /** Per slot: whether its transport channel objects are allocated, and the RNTI in
      the statistics, in the downlink and in the uplink channel (0: free). */
  datatype Table = Table(present: seq<bool>, crnti: seq<nat>, dl: seq<nat>, ul: seq<nat>)

  predicate Valid(t: Table) {
    |t.present| == SLOTS && |t.crnti| == SLOTS && |t.dl| == SLOTS && |t.ul| == SLOTS
  }

  // ----- The operations, as specifications

  /** First slot from i on with statistics RNTI r; -1 for none. */
  function FirstWith(crnti: seq<nat>, r: nat, i: nat): (k: int)
    requires i <= |crnti|
    ensures -1 <= k < |crnti|
    ensures k == -1 ==> forall j :: i <= j < |crnti| ==> crnti[j] != r
    ensures k >= 0 ==> i <= k && crnti[k] == r && forall j :: i <= j < k ==> crnti[j] != r
    decreases |crnti| - i
  {
    if i == |crnti| then -1 else if crnti[i] == r then i else FirstWith(crnti, r, i + 1)
  }

  /** The scans of add_ue and mac_phy_remove_ue give up at an unallocated slot. */
  predicate Reachable(t: Table, k: int)
    requires Valid(t) && k < SLOTS
  {
    k >= 0 && forall j :: 0 <= j <= k ==> t.present[j]
  }

  function AddSlot(t: Table): (k: int)
    requires Valid(t)
    ensures -1 <= k < SLOTS
  {
    var k := FirstWith(t.crnti, 0, 0);
    if Reachable(t, k) then k else -1
  }

  function Add(t: Table, rnti: nat): (r: Table)
    requires Valid(t)
    ensures Valid(r)
  {
    var k := AddSlot(t);
    if k == -1 then t
    else t.(crnti := t.crnti[k := rnti], dl := t.dl[k := rnti], ul := t.ul[k := rnti])
  }

  function RemoveSlot(t: Table, rnti: nat): (k: int)
    requires Valid(t)
    ensures -1 <= k < SLOTS
  {
    var k := FirstWith(t.crnti, rnti, 0);
    if Reachable(t, k) then k else -1
  }

  function Remove(t: Table, rnti: nat): (r: Table)
    requires Valid(t)
    ensures Valid(r)
  {
    var k := RemoveSlot(t, rnti);
    if k == -1 then t
    else t.(crnti := t.crnti[k := 0], dl := t.dl[k := 0], ul := t.ul[k := 0])
  }

  /** find_ue: the scan is over the downlink channels and skips unallocated slots. */
  function FindFrom(t: Table, rnti: nat, i: nat): (k: int)
    requires Valid(t) && i <= SLOTS
    ensures -1 <= k < SLOTS
    ensures k == -1 ==> forall j :: i <= j < SLOTS ==> !(t.present[j] && t.dl[j] == rnti)
    ensures k >= 0 ==> i <= k && t.present[k] && t.dl[k] == rnti
    decreases SLOTS - i
  {
    if i == SLOTS then -1 else if t.present[i] && t.dl[i] == rnti then i else FindFrom(t, rnti, i + 1)
  }

  function Find(t: Table, rnti: nat): (k: int)
    requires Valid(t)
  {
    FindFrom(t, rnti, 0)
  }

  // ----- The map the table stands for

  /** The three RNTIs of a slot agree, used slots are allocated, RNTIs are unique. */
  predicate Consistent(t: Table) {
    && Valid(t)
    && (forall i :: 0 <= i < SLOTS ==> t.crnti[i] == t.dl[i] == t.ul[i])
    && (forall i :: 0 <= i < SLOTS && t.crnti[i] != 0 ==> Reachable(t, i))
    && (forall i, j :: 0 <= i < j < SLOTS && t.crnti[i] != 0 ==> t.crnti[i] != t.crnti[j])
  }

  ghost function Users(t: Table): map<nat, nat>
    requires Valid(t)
  {
    map r | r in t.crnti && r != 0 :: FirstWith(t.crnti, r, 0)
  }

  predicate HasRoom(t: Table)
    requires Valid(t)
  {
    AddSlot(t) != -1
  }

  lemma SlotOf(t: Table, i: nat)
    requires Consistent(t) && i < SLOTS && t.crnti[i] != 0
    ensures FirstWith(t.crnti, t.crnti[i], 0) == i
  {
  }

  /** find_ue inverts the map, and fails outside it. */
  lemma FindIsLookup(t: Table, rnti: nat)
    requires Consistent(t) && rnti != 0
    ensures Find(t, rnti) == if rnti in Users(t) then Users(t)[rnti] else -1
  {
    var k := Find(t, rnti);
    if rnti in t.crnti {
      var i :| 0 <= i < SLOTS && t.crnti[i] == rnti;
      SlotOf(t, i);
      assert t.present[i] && t.dl[i] == rnti;
      SlotOf(t, k);
    }
  }

  /** Adding keeps the table consistent exactly if the RNTI was not in use or there was
      no room for it. */
  lemma AddConsistent(t: Table, rnti: nat)
    requires Consistent(t)
    ensures Consistent(Add(t, rnti)) <==> rnti !in Users(t) || !HasRoom(t)
  {
    var k := AddSlot(t);
    if k != -1 && rnti in Users(t) {
      var i :| 0 <= i < SLOTS && t.crnti[i] == rnti;
      var r := Add(t, rnti);
      assert r.crnti[i] == rnti && r.crnti[k] == rnti && i != k;
    }
  }

  /** A new UE takes the first free slot and nothing else changes. */
  lemma AddRefines(t: Table, rnti: nat)
    requires Consistent(t) && rnti != 0 && rnti !in Users(t)
    ensures Consistent(Add(t, rnti))
    ensures HasRoom(t) ==> Users(Add(t, rnti)) == Users(t)[rnti := AddSlot(t)] && Find(Add(t, rnti), rnti) == AddSlot(t)
    ensures !HasRoom(t) ==> Add(t, rnti) == t
  {
    AddConsistent(t, rnti);
    if HasRoom(t) {
      var k, r := AddSlot(t), Add(t, rnti);
      UsersAfter(t, k, rnti, r);
      FindIsLookup(r, rnti);
    }
  }

  lemma UsersAfter(t: Table, k: nat, rnti: nat, r: Table)
    requires Consistent(t) && Consistent(r) && k < SLOTS && t.crnti[k] == 0 && rnti != 0
    requires r.crnti == t.crnti[k := rnti]
    ensures Users(r) == Users(t)[rnti := k]
  {
    SlotOf(r, k);
    assert r.crnti[k] == rnti;
    forall x | x != rnti
      ensures x in Users(r) <==> x in Users(t)
      ensures x in Users(t) ==> Users(r)[x] == Users(t)[x]
    {
      OtherUser(t, k, rnti, r, x);
    }
  }

  lemma OtherUser(t: Table, k: nat, rnti: nat, r: Table, x: nat)
    requires Consistent(t) && Consistent(r) && k < SLOTS && t.crnti[k] == 0 && rnti != 0 && x != rnti
    requires r.crnti == t.crnti[k := rnti]
    ensures x in Users(r) <==> x in Users(t)
    ensures x in Users(t) ==> Users(r)[x] == Users(t)[x]
  {
    if x in Users(t) {
      var i :| 0 <= i < SLOTS && t.crnti[i] == x;
      assert r.crnti[i] == x;
      SlotOf(t, i);
      SlotOf(r, i);
    }
    if x in Users(r) {
      var i :| 0 <= i < SLOTS && r.crnti[i] == x;
      assert t.crnti[i] == x;
    }
  }

  lemma RemoveFinds(t: Table, rnti: nat)
    requires Consistent(t) && rnti != 0
    ensures rnti in Users(t) <==> RemoveSlot(t, rnti) != -1
  {
    if rnti in t.crnti {
      var i :| 0 <= i < SLOTS && t.crnti[i] == rnti;
      SlotOf(t, i);
    }
  }

  lemma RemoveConsistent(t: Table, rnti: nat)
    requires Consistent(t) && rnti != 0
    ensures Consistent(Remove(t, rnti))
    ensures rnti !in Remove(t, rnti).crnti
  {
    RemoveFinds(t, rnti);
    var r := Remove(t, rnti);
    var k := RemoveSlot(t, rnti);
    if k != -1 {
      forall i | 0 <= i < SLOTS ensures r.crnti[i] != rnti {
        if i != k {
          assert r.crnti[i] == t.crnti[i];
        }
      }
      forall i | 0 <= i < SLOTS && r.crnti[i] != 0 ensures Reachable(r, i) {
        assert Reachable(t, i);
      }
    }
  }

  /** Removing frees the UE's slot only, and the UE is no longer found. */
  lemma {:induction false} RemoveRefines(t: Table, rnti: nat)
    requires Consistent(t) && rnti != 0
    ensures Consistent(Remove(t, rnti)) && Users(Remove(t, rnti)) == Users(t) - {rnti}
    ensures Find(Remove(t, rnti), rnti) == -1
    ensures rnti in Users(t) <==> RemoveSlot(t, rnti) != -1
  {
    RemoveFinds(t, rnti);
    RemoveConsistent(t, rnti);
    RemoveUsers(t, rnti);
    FindIsLookup(Remove(t, rnti), rnti);
  }

  lemma RemoveUsers(t: Table, rnti: nat)
    requires Consistent(t) && rnti != 0 && Consistent(Remove(t, rnti)) && rnti !in Remove(t, rnti).crnti
    ensures Users(Remove(t, rnti)) == Users(t) - {rnti}
  {
    var k := RemoveSlot(t, rnti);
    RemoveFinds(t, rnti);
    if k != -1 {
      var r := Remove(t, rnti);
      forall x | x != rnti
        ensures x in Users(r) <==> x in Users(t)
        ensures x in Users(t) ==> Users(r)[x] == Users(t)[x]
      {
        UserStays(t, k, r, x);
      }
    }
  }

  lemma UserStays(t: Table, k: nat, r: Table, x: nat)
    requires Consistent(t) && Consistent(r) && k < SLOTS && x != t.crnti[k]
    requires r.crnti == t.crnti[k := 0]
    ensures x in Users(r) <==> x in Users(t)
    ensures x in Users(t) ==> Users(r)[x] == Users(t)[x]
  {
    if x in Users(t) {
      var i :| 0 <= i < SLOTS && t.crnti[i] == x;
      assert r.crnti[i] == x;
      SlotOf(t, i);
      SlotOf(r, i);
    }
    if x in Users(r) {
      var i :| 0 <= i < SLOTS && r.crnti[i] == x;
      assert t.crnti[i] == x;
    }
  }

  // ----- Runs

  datatype Op = AddUe(rnti: nat) | RemoveUe(rnti: nat)

  function Apply(t: Table, op: Op): (r: Table)
    requires Valid(t)
    ensures Valid(r)
  {
    match op
    case AddUe(r) => Add(t, r)
    case RemoveUe(r) => Remove(t, r)
  }

  function ApplyAll(t: Table, ops: seq<Op>): (r: Table)
    requires Valid(t)
    ensures Valid(r)
    decreases |ops|
  {
    if ops == [] then t else ApplyAll(Apply(t, ops[0]), ops[1..])
  }

  /** The first slot from k on that no user has, if all slots up to it are allocated; -1 for
      none. */
  ghost function FirstUnused(users: map<nat, nat>, present: seq<bool>, k: nat): int
    requires k <= |present|
    decreases |present| - k
  {
    if k == |present| || !present[k] then -1
    else if k !in users.Values then k
    else FirstUnused(users, present, k + 1)
  }

  /** What an operation should do to the map, given only which slots are allocated. */
  ghost function Intend(users: map<nat, nat>, present: seq<bool>, op: Op): map<nat, nat> {
    match op
    case AddUe(r) =>
      var k := FirstUnused(users, present, 0);
      if k >= 0 then users[r := k] else users
    case RemoveUe(r) => users - {r}
  }

  ghost function Intended(users: map<nat, nat>, present: seq<bool>, ops: seq<Op>): map<nat, nat>
    decreases |ops|
  {
    if ops == [] then users else Intended(Intend(users, present, ops[0]), present, ops[1..])
  }

  /** RNTIs are not zero and added only when not in use. */
  ghost predicate FreshRun(users: map<nat, nat>, present: seq<bool>, ops: seq<Op>)
    decreases |ops|
  {
    ops != [] ==>
      && ops[0].rnti != 0 && (ops[0].AddUe? ==> ops[0].rnti !in users)
      && FreshRun(Intend(users, present, ops[0]), present, ops[1..])
  }

  lemma SlotTaken(t: Table, k: nat)
    requires Consistent(t) && k < SLOTS
    ensures k in Users(t).Values <==> t.crnti[k] != 0
  {
    if t.crnti[k] != 0 {
      SlotOf(t, k);
      assert t.crnti[k] in Users(t) && Users(t)[t.crnti[k]] == k;
    }
  }

  /** The scan of the table finds the slot that the map gives. */
  lemma {:induction false} SlotFromMap(t: Table, k: nat)
    requires Consistent(t) && k <= SLOTS && forall j :: 0 <= j < k ==> t.present[j] && t.crnti[j] != 0
    ensures FirstUnused(Users(t), t.present, k) == AddSlot(t)
    decreases SLOTS - k
  {
    if k < SLOTS && t.present[k] {
      SlotTaken(t, k);
      if t.crnti[k] != 0 {
        SlotFromMap(t, k + 1);
      }
    }
  }

  lemma ApplyRefines(t: Table, op: Op)
    requires Consistent(t) && op.rnti != 0 && (op.AddUe? ==> op.rnti !in Users(t))
    ensures var t' := Apply(t, op);
      Consistent(t') && t'.present == t.present && Users(t') == Intend(Users(t), t.present, op)
  {
    match op {
      case AddUe(r) =>
        AddRefines(t, r);
        SlotFromMap(t, 0);
      case RemoveUe(r) => RemoveRefines(t, r);
    }
  }

  /** Every run of additions and removals keeps the table consistent and implements the map
      that the same operations give when each new UE takes the first unused slot. */
  lemma {:induction false} RefinementRuns(t: Table, ops: seq<Op>)
    requires Consistent(t) && FreshRun(Users(t), t.present, ops)
    ensures Consistent(ApplyAll(t, ops)) && Users(ApplyAll(t, ops)) == Intended(Users(t), t.present, ops)
    decreases |ops|
  {
    if ops != [] {
      ApplyRefines(t, ops[0]);
      RefinementRuns(Apply(t, ops[0]), ops[1..]);
    }
  }

  // ----- The table in place

  class UeSlots {
    const present: seq<bool>
    var crnti: array<nat>
    var dl: array<nat>
    var ul: array<nat>

    ghost predicate Ok()
      reads this
    {
      |present| == SLOTS && crnti.Length == dl.Length == ul.Length == SLOTS && crnti != dl && crnti != ul && dl != ul
    }

    ghost function State(): Table
      reads this, crnti, dl, ul
      requires Ok()
    {
      Table(present, crnti[..], dl[..], ul[..])
    }

    constructor (present: seq<bool>)
      requires |present| == SLOTS
      ensures Ok() && fresh(crnti) && fresh(dl) && fresh(ul) && Consistent(State()) && Users(State()) == map[]
    {
      this.present := present;
      crnti := new nat[SLOTS](i => 0);
      dl := new nat[SLOTS](i => 0);
      ul := new nat[SLOTS](i => 0);
    }

    /** add_ue. */
    method AddUser(rnti: nat) returns (k: int)
      requires Ok()
      modifies crnti, dl, ul
      ensures Ok() && State() == Add(old(State()), rnti) && k == AddSlot(old(State()))
    {
      for i := 0 to SLOTS
        invariant State() == old(State())
        invariant forall j :: 0 <= j < i ==> present[j] && crnti[j] != 0
      {
        if !present[i] {
          return -1;
        }
        if crnti[i] == 0 {
          dl[i], ul[i], crnti[i] := rnti, rnti, rnti;
          return i;
        }
      }
      return -1;
    }

    /** mac_phy_remove_ue on one carrier. */
    method RemoveUser(rnti: nat) returns (k: int)
      requires Ok()
      modifies crnti, dl, ul
      ensures Ok() && State() == Remove(old(State()), rnti) && k == RemoveSlot(old(State()), rnti)
    {
      for i := 0 to SLOTS
        invariant State() == old(State())
        invariant forall j :: 0 <= j < i ==> present[j] && crnti[j] != rnti
      {
        if !present[i] {
          return -1;
        }
        if crnti[i] == rnti {
          dl[i], ul[i], crnti[i] := 0, 0, 0;
          return i;
        }
      }
      return -1;
    }

    /** find_ue. */
    method FindUser(rnti: nat) returns (k: int)
      requires Ok()
      ensures k == Find(State(), rnti)
    {
      for i := 0 to SLOTS
        invariant Find(State(), rnti) == FindFrom(State(), rnti, i)
      {
        if present[i] && dl[i] == rnti {
          return i;
        }
      }
      return -1;
    }
  }
}
