/** PUCCH resources for ACK/NAK: which resource belongs to which downlink subframe and
    control channel element (section 10.1 of TS 36.213).
 */
module Pucch {
  import opened FrameTiming

  /** Table of N_p for the supported bandwidths; empty for any other. */
  function NpTable(nRb: nat): (np: seq<nat>)
    ensures np == [] || Ascending(np)
  {
    match nRb
    case 6 => [0, 1, 3, 5]
    case 15 => [0, 3, 8, 13]
    case 25 => [0, 5, 13, 22]
    case 50 => [0, 11, 27, 44]
    case 75 => [0, 16, 41, 66]
    case 100 => [0, 22, 55, 88]
    case _ => []
  }

  predicate Ascending(np: seq<nat>) {
    |np| == 4 && np[0] == 0 && np[0] < np[1] < np[2] < np[3]
  }

  predicate Standard(nRb: nat) {
    nRb == 6 || nRb == 15 || nRb == 25 || nRb == 50 || nRb == 75 || nRb == 100
  }

  /** The tables hold N_p = max(0, floor(N_RB (12 p - 4) / 36)), where 12 is the number of
      subcarriers of a resource block. */
  lemma NpFormula(nRb: nat, p: nat)
    requires p <= 3
    ensures NpTable(nRb) != [] <==> Standard(nRb)
    ensures Standard(nRb) ==> NpTable(nRb)[p] == if p == 0 then 0 else nRb * (12 * p - 4) / 36
  {
    assert p == 0 || p == 1 || p == 2 || p == 3;
  }

  /** get_Np with plus1 == m: the bound at or above the element. */
  function GetNp(np: seq<nat>, cce: nat, m: nat): nat
    requires (np == [] || Ascending(np)) && m <= 1
  {
    if np == [] then 0
    else if cce >= np[2] then np[2 + m] else if cce >= np[1] then np[1 + m] else np[0 + m]
  }

  /** Resource of element cce in the m-th subframe of a set of two, without the
      configured offset. */
  function Resource(np: seq<nat>, cce: nat, m: nat): (r: nat)
    requires (np == [] || Ascending(np)) && m <= 1
  {
    GetNp(np, cce, m) + cce
  }

  /** The element and subframe that own a resource. */
  function Owner(np: seq<nat>, r: nat): (o: (nat, nat))
    requires Ascending(np) && r < 2 * np[3]
  {
    var p := if r >= 2 * np[2] then 2 else if r >= 2 * np[1] then 1 else 0;
    if r < np[p] + np[p + 1] then (r - np[p], 0) else (r - np[p + 1], 1)
  }

  /** In an ascending table the owner of an element's resource is that element. */
  lemma ResourceOwned(np: seq<nat>, cce: nat, m: nat)
    requires Ascending(np) && m <= 1 && cce < np[3]
    ensures Resource(np, cce, m) < 2 * np[3] && Owner(np, Resource(np, cce, m)) == (cce, m)
  {
    var p := if cce >= np[2] then 2 else if cce >= np[1] then 1 else 0;
    assert 2 * np[p] <= Resource(np, cce, m) < 2 * np[p + 1];
  }

  /** Every resource below 2 N_3 has an owner.  With ResourceOwned: elements below N_3 of
      a set of two subframes and resources below 2 N_3 correspond one to one. */
  lemma OwnerUses(np: seq<nat>, r: nat)
    requires Ascending(np) && r < 2 * np[3]
    ensures Owner(np, r).0 < np[3] && Owner(np, r).1 <= 1
    ensures Resource(np, Owner(np, r).0, Owner(np, r).1) == r
  {
    var p := if r >= 2 * np[2] then 2 else if r >= 2 * np[1] then 1 else 0;
    assert 2 * np[p] <= r < 2 * np[p + 1];
  }

  /** The bound on elements is sharp: the first element beyond it collides. */
  lemma FirstCollision(np: seq<nat>)
    requires Ascending(np)
    ensures Resource(np, np[3], 0) == Resource(np, np[2], 1)
  {
  }

  // ----- get_n1_pucch_eNB

  const NO_RESOURCE: int := -1

  /** The two resources, or Untouched where the subframe carries no acknowledgements and
      the code returns without setting them. */
  datatype Outcome = Untouched | Resources(first: int, second: int)

  /** sent and cce describe the last ten downlink subframes of the UE, base is
      n1PUCCH_AN.  Configuration 1 ignores its special subframes. */
  function GetResources(d: Duplex, sf: nat, nRb: nat, sent: seq<bool>, cce: seq<nat>, base: nat): (r: Outcome)
    requires sf < 10 && |sent| == 10 && |cce| == 10
  {
    match d
    case FDD =>
      var s := AckSource(FDD, sf, 0);
      Resources(if sent[s] then base + cce[s] else NO_RESOURCE, NO_RESOURCE)
    case TDD(c) =>
      if (c != 1 && c != 3) || AckCount(d, sf) == 0 then Untouched
      else
        var first := Slot(nRb, sent, cce, base, AckSource(d, sf, 0), 0);
        if c == 1 then Resources(first, NO_RESOURCE)
        else Resources(first, Slot(nRb, sent, cce, base, AckSource(d, sf, 1), 1))
  }

  function Slot(nRb: nat, sent: seq<bool>, cce: seq<nat>, base: nat, s: nat, m: nat): int
    requires m <= 1 && s < 10 && |sent| == 10 && |cce| == 10
  {
    if sent[s] then Resource(NpTable(nRb), cce[s], m) + base else NO_RESOURCE
  }

  /** The elements are among those the table has resources for; FDD has no table. */
  predicate Fits(d: Duplex, nRb: nat, cce: seq<nat>) {
    |cce| == 10 && (d.TDD? ==> NpTable(nRb) != [] && forall i :: 0 <= i < 10 ==> cce[i] < NpTable(nRb)[3])
  }

  /** The subframe of the set, and the element in it, that own a resource. */
  function ReadBack(d: Duplex, nRb: nat, base: nat, r: int): (o: (int, int)) {
    if d == FDD then (r - base, 0)
    else if NpTable(nRb) != [] && 0 <= r - base < 2 * NpTable(nRb)[3] then
      var o := Owner(NpTable(nRb), r - base);
      (o.0 as int, o.1 as int)
    else (-1, -1)
  }

  /** Whether the m-th subframe of the set is given a resource when it carried a block:
      the special subframes of configuration 1 never are. */
  predicate Served(d: Duplex, m: nat) {
    m == 0 || (m == 1 && d == TDD(3))
  }

  function Given(r: Outcome, m: nat): int
    requires r.Resources?
  {
    if m == 0 then r.first else r.second
  }

  /** FDD and TDD configurations 1 and 3: resources are set exactly in the subframes that
      acknowledge; the m-th one is given exactly if that downlink subframe is served and
      carried a block; and subframe and element can be read back from it. */
  lemma ResourceExactly(d: Duplex, sf: nat, nRb: nat, sent: seq<bool>, cce: seq<nat>, base: nat, m: nat)
    requires Supported(d) && sf < 10 && |sent| == 10 && Fits(d, nRb, cce) && m <= 1
    ensures var r := GetResources(d, sf, nRb, sent, cce, base);
      && (r.Resources? <==> AckCount(d, sf) > 0)
      && (r.Resources? ==> (m < AckCount(d, sf) ==> AckSource(d, sf, m) < 10))
      && (r.Resources? ==>
            (Given(r, m) != NO_RESOURCE <==> m < AckCount(d, sf) && Served(d, m) && sent[AckSource(d, sf, m)]))
      && (r.Resources? && Given(r, m) != NO_RESOURCE ==>
            ReadBack(d, nRb, base, Given(r, m)) == (cce[AckSource(d, sf, m)], m))
  {
    if d.TDD? && AckCount(d, sf) > 0 {
      ResourceOwned(NpTable(nRb), cce[AckSource(d, sf, m)], m);
    }
  }

  /** Acknowledgements of two UEs, or of two subframes of one UE, never share a resource in
      one reception unless they are for the same subframe and element: sent and cce describe
      one UE, sent' and cce' the other (or the same). */
  lemma NeverCollide(d: Duplex, sf: nat, nRb: nat, sent: seq<bool>, cce: seq<nat>, sent': seq<bool>, cce': seq<nat>,
                     base: nat, m: nat, m': nat)
    requires Supported(d) && sf < 10 && |sent| == 10 && |sent'| == 10 && Fits(d, nRb, cce) && Fits(d, nRb, cce')
    requires m <= 1 && m' <= 1 && AckCount(d, sf) > 0
    ensures var a, b := GetResources(d, sf, nRb, sent, cce, base), GetResources(d, sf, nRb, sent', cce', base);
      && a.Resources? && b.Resources?
      && (Given(a, m) == Given(b, m') != NO_RESOURCE ==>
            m == m' && AckSource(d, sf, m) < 10 && cce[AckSource(d, sf, m)] == cce'[AckSource(d, sf, m)])
  {
    ResourceExactly(d, sf, nRb, sent, cce, base, m);
    ResourceExactly(d, sf, nRb, sent', cce', base, m');
  }
}
