/** Quotients and residues. */
module Arith {

  lemma SmallMultiple(m: int, d: int)
    requires -m < m * d < m
    ensures d == 0
  {
    assert d >= 1 ==> m * d >= m;
    assert d <= -1 ==> m * d <= -m;
  }

  /** Quotient and remainder are unique. */
  lemma DivModUnique(x: nat, m: nat, q: nat, r: nat)
    requires m > 0 && x == m * q + r && r < m
    ensures x / m == q && x % m == r
  {
    SmallMultiple(m, q - x / m);
  }

  /** A window of p consecutive numbers meets each residue once. */
  lemma OneResidue(start: nat, p: nat, r: nat) returns (t: nat)
    requires r < p
    ensures start <= t < start + p && t % p == r
    ensures forall x: nat :: start <= x < start + p && x % p == r ==> x == t
  {
    var q, s := start / p, start % p;
    assert start == p * q + s;
    if s <= r {
      t := p * q + r;
      DivModUnique(t, p, q, r);
    } else {
      t := p * (q + 1) + r;
      DivModUnique(t, p, q + 1, r);
    }
    forall x: nat | start <= x < start + p && x % p == r ensures x == t {
      SameResidue(x, t, p);
    }
  }

  lemma SameResidue(x: nat, y: nat, p: nat)
    requires p > 0 && x % p == y % p && x - y < p && y - x < p
    ensures x == y
  {
    SmallMultiple(p, x / p - y / p);
  }

  lemma ShiftResidue(x: nat, m: nat)
    requires m > 0
    ensures (x + m) % m == x % m
  {
    DivModUnique(x + m, m, x / m + 1, x % m);
  }

  /** Two numbers with the same residue are equal or at least m apart. */
  lemma ResidueGap(x: nat, y: nat, m: nat)
    requires m > 0 && x < y && x % m == y % m
    ensures x + m <= y
  {
    if y - x < m {
      SmallMultiple(m, y / m - x / m);
    }
  }
}
