/** Contention-based access: one reception pass over the UEs hands the scheduling flag
    of a group from UE i to UE i + G, and resolves collisions per group.
 */
module Cba {
  import opened Arith

  const UES: nat := 16

  /** groups: number of active groups G, the same for all UEs; enabled[i]: UE i has
      active groups and a CBA RNTI in its group i % G. */
  datatype Config = Config(groups: nat, enabled: seq<bool>)

  predicate ConfigOk(c: Config) {
    c.groups > 0 && |c.enabled| == UES
  }

  /** What MAC is told: a received SDU, or a scheduling request after a collision. */
  datatype Event = Sdu(ue: nat) | Sr(ue: nat)

  /** flags: subframe_cba_scheduling_flag of the process; received:
      cba_last_reception, per group. */
  datatype Pass = Pass(flags: seq<bool>, received: seq<nat>, events: seq<Event>)

  predicate Valid(p: Pass, c: Config) {
    |p.flags| == UES && |p.received| == c.groups
  }

  /** cba_procedures for UE i; ok tells that its block decoded with a known access. */
  function Visit(p: Pass, c: Config, i: nat, ok: bool): (r: Pass)
    requires ConfigOk(c) && Valid(p, c) && i < UES
    ensures Valid(r, c)
  {
    if !(c.enabled[i] && p.flags[i]) then p
    else
      var cleared := p.flags[i := false];
      var next := i + c.groups;
      var flags := if next < UES && c.enabled[next] then cleared[next := true] else cleared;
      var g := i % c.groups;
      if !ok then p.(flags := flags)
      else Pass(flags, p.received[g := p.received[g] + 1],
        p.events + [if p.received[g] == 0 then Sdu(i) else Sr(i)])
  }

  function VisitUpTo(c: Config, flags: seq<bool>, ok: seq<bool>, n: nat): (p: Pass)
    requires ConfigOk(c) && |flags| == UES && |ok| == UES && n <= UES
    ensures Valid(p, c)
  {
    if n == 0 then Pass(flags, seq(c.groups, g => 0), [])
    else Visit(VisitUpTo(c, flags, ok, n - 1), c, n - 1, ok[n - 1])
  }

  // ----- What the pass should do

  /** UE i gets its turn: it is enabled and flagged, or the UE G before it had its turn. */
  predicate Reached(c: Config, flags: seq<bool>, i: nat)
    requires ConfigOk(c) && |flags| == UES && i < UES
  {
    c.enabled[i] && (flags[i] || (i >= c.groups && Reached(c, flags, i - c.groups)))
  }

  /** Successful accesses of group g among the first n UEs. */
  function Successes(c: Config, flags: seq<bool>, ok: seq<bool>, g: nat, n: nat): nat
    requires ConfigOk(c) && |flags| == UES && |ok| == UES && n <= UES
  {
    if n == 0 then 0
    else
      Successes(c, flags, ok, g, n - 1)
      + (if (n - 1) % c.groups == g && Reached(c, flags, n - 1) && ok[n - 1] then 1 else 0)
  }

  function Sdus(events: seq<Event>, groups: nat, g: nat): (n: nat)
    requires groups > 0
  {
    if events == [] then 0
    else
      var e := events[|events| - 1];
      Sdus(events[..|events| - 1], groups, g) + (if e.Sdu? && e.ue % groups == g then 1 else 0)
  }

  function Srs(events: seq<Event>, groups: nat, g: nat): (n: nat)
    requires groups > 0
  {
    if events == [] then 0
    else
      var e := events[|events| - 1];
      Srs(events[..|events| - 1], groups, g) + (if e.Sr? && e.ue % groups == g then 1 else 0)
  }

  /** The flags while the wave has passed the first n UEs: behind it only disabled UEs
      keep theirs, ahead of it the flags it has set are visible. */
  predicate WaveAt(c: Config, init: seq<bool>, now: seq<bool>, n: nat)
    requires ConfigOk(c) && |init| == UES && |now| == UES && n <= UES
  {
    && (forall i :: 0 <= i < n ==> now[i] == (init[i] && !c.enabled[i]))
    && (forall i :: n <= i < UES ==>
          now[i] == (init[i] || (c.enabled[i] && i >= c.groups && i - c.groups < n && Reached(c, init, i - c.groups))))
  }

  lemma TurnReached(c: Config, init: seq<bool>, now: seq<bool>, n: nat)
    requires ConfigOk(c) && |init| == UES && |now| == UES && n < UES && WaveAt(c, init, now, n)
    ensures (c.enabled[n] && now[n]) == Reached(c, init, n)
  {
  }

  /** What the visit of UE n does to the flag of a UE ahead of it. */
  lemma VisitAhead(c: Config, p: Pass, n: nat, ok: bool, i: nat)
    requires ConfigOk(c) && Valid(p, c) && n < i < UES
    ensures Visit(p, c, n, ok).flags[i] == (p.flags[i] || (c.enabled[n] && p.flags[n] && i == n + c.groups && c.enabled[i]))
  {
  }

  lemma VisitBehind(c: Config, p: Pass, n: nat, ok: bool, i: nat)
    requires ConfigOk(c) && Valid(p, c) && i <= n < UES
    ensures Visit(p, c, n, ok).flags[i] == (if i == n then p.flags[i] && !c.enabled[i] else p.flags[i])
  {
  }

  lemma VisitMoves(c: Config, init: seq<bool>, p: Pass, n: nat, ok: bool)
    requires ConfigOk(c) && |init| == UES && Valid(p, c) && n < UES && WaveAt(c, init, p.flags, n)
    ensures WaveAt(c, init, Visit(p, c, n, ok).flags, n + 1)
    ensures (c.enabled[n] && p.flags[n]) == Reached(c, init, n)
  {
    var now := Visit(p, c, n, ok).flags;
    TurnReached(c, init, p.flags, n);
    forall i | 0 <= i < n + 1 ensures now[i] == (init[i] && !c.enabled[i]) {
      VisitBehind(c, p, n, ok, i);
    }
    forall i | n + 1 <= i < UES
      ensures now[i] == (init[i] || (c.enabled[i] && i >= c.groups && i - c.groups < n + 1 && Reached(c, init, i - c.groups)))
    {
      VisitAhead(c, p, n, ok, i);
    }
  }

  lemma {:induction false} WaveMoves(c: Config, flags: seq<bool>, ok: seq<bool>, n: nat)
    requires ConfigOk(c) && |flags| == UES && |ok| == UES && n <= UES
    ensures WaveAt(c, flags, VisitUpTo(c, flags, ok, n).flags, n)
  {
    if n > 0 {
      WaveMoves(c, flags, ok, n - 1);
      VisitMoves(c, flags, VisitUpTo(c, flags, ok, n - 1), n - 1, ok[n - 1]);
    }
  }

  lemma TurnAt(c: Config, flags: seq<bool>, ok: seq<bool>, n: nat)
    requires ConfigOk(c) && |flags| == UES && |ok| == UES && n < UES
    ensures (c.enabled[n] && VisitUpTo(c, flags, ok, n).flags[n]) == Reached(c, flags, n)
  {
    WaveMoves(c, flags, ok, n);
    TurnReached(c, flags, VisitUpTo(c, flags, ok, n).flags, n);
  }

  lemma {:induction false} CountsMove(c: Config, flags: seq<bool>, ok: seq<bool>, g: nat, n: nat)
    requires ConfigOk(c) && |flags| == UES && |ok| == UES && n <= UES && g < c.groups
    ensures var p := VisitUpTo(c, flags, ok, n);
      var k := Successes(c, flags, ok, g, n);
      p.received[g] == k && Sdus(p.events, c.groups, g) == (if k > 0 then 1 else 0)
      && Sdus(p.events, c.groups, g) + Srs(p.events, c.groups, g) == k
  {
    if n > 0 {
      CountsMove(c, flags, ok, g, n - 1);
      TurnAt(c, flags, ok, n - 1);
      VisitCounts(c, VisitUpTo(c, flags, ok, n - 1), n - 1, ok[n - 1], g);
    }
  }

  /** A visit that succeeds counts for its own group and no other. */
  lemma VisitCounts(c: Config, p: Pass, n: nat, ok: bool, g: nat)
    requires ConfigOk(c) && Valid(p, c) && n < UES && g < c.groups
    ensures var q := Visit(p, c, n, ok);
      var hit := n % c.groups == g && c.enabled[n] && p.flags[n] && ok;
      && q.received[g] == p.received[g] + (if hit then 1 else 0)
      && Sdus(q.events, c.groups, g) == Sdus(p.events, c.groups, g) + (if hit && p.received[g] == 0 then 1 else 0)
      && Srs(q.events, c.groups, g) == Srs(p.events, c.groups, g) + (if hit && p.received[g] > 0 then 1 else 0)
  {
    if c.enabled[n] && p.flags[n] && ok {
      CountEvent(p.events, if p.received[n % c.groups] == 0 then Sdu(n) else Sr(n), c.groups, g);
    }
  }

  lemma CountEvent(events: seq<Event>, e: Event, groups: nat, g: nat)
    requires groups > 0
    ensures Sdus(events + [e], groups, g) == Sdus(events, groups, g) + (if e.Sdu? && e.ue % groups == g then 1 else 0)
    ensures Srs(events + [e], groups, g) == Srs(events, groups, g) + (if e.Sr? && e.ue % groups == g then 1 else 0)
  {
    assert (events + [e])[..|events|] == events;
  }

  /** One pass: the flag travels along each chain i, i + G, i + 2G, ... of enabled UEs,
      no flag is left except at UEs that are not enabled, and a group with k > 0
      successful accesses gives exactly one SDU and k - 1 scheduling requests. */
  lemma CbaPass(c: Config, flags: seq<bool>, ok: seq<bool>)
    requires ConfigOk(c) && |flags| == UES && |ok| == UES
    ensures var p := VisitUpTo(c, flags, ok, UES);
      && (forall i :: 0 <= i < UES ==> p.flags[i] == (flags[i] && !c.enabled[i]))
      && (forall g :: 0 <= g < c.groups ==>
            var k := Successes(c, flags, ok, g, UES);
            p.received[g] == k && Sdus(p.events, c.groups, g) == (if k > 0 then 1 else 0)
            && Srs(p.events, c.groups, g) == (if k > 0 then k - 1 else 0))
  {
    WaveMoves(c, flags, ok, UES);
    forall g | 0 <= g < c.groups
      ensures var p, k := VisitUpTo(c, flags, ok, UES), Successes(c, flags, ok, g, UES);
        p.received[g] == k && Sdus(p.events, c.groups, g) == (if k > 0 then 1 else 0)
        && Srs(p.events, c.groups, g) == (if k > 0 then k - 1 else 0)
    {
      CountsMove(c, flags, ok, g, UES);
    }
  }

  /** UE i has an event of the pass: its access succeeded. */
  predicate Succeeds(c: Config, flags: seq<bool>, ok: seq<bool>, i: nat)
    requires ConfigOk(c) && |flags| == UES && |ok| == UES && i < UES
  {
    Reached(c, flags, i) && ok[i]
  }

  /** The event of UE n's turn: a received SDU if it is the first success of its group, a
      scheduling request otherwise. */
  lemma EventOfTurn(c: Config, flags: seq<bool>, ok: seq<bool>, n: nat)
    requires ConfigOk(c) && |flags| == UES && |ok| == UES && n < UES
    ensures VisitUpTo(c, flags, ok, n + 1).events ==
      if Succeeds(c, flags, ok, n)
      then VisitUpTo(c, flags, ok, n).events + [if Successes(c, flags, ok, n % c.groups, n) == 0 then Sdu(n) else Sr(n)]
      else VisitUpTo(c, flags, ok, n).events
  {
    TurnAt(c, flags, ok, n);
    CountsMove(c, flags, ok, n % c.groups, n);
    EventAdded(c, VisitUpTo(c, flags, ok, n), n, ok[n]);
  }

  /** Appending the event of UE n, if any. */
  lemma Appended(events: seq<Event>, events': seq<Event>, n: nat, has: bool, first: bool, i: nat)
    requires events' == if has then events + [if first then Sdu(n) else Sr(n)] else events
    ensures Sdu(i) in events' <==> Sdu(i) in events || (has && first && i == n)
    ensures Sr(i) in events' <==> Sr(i) in events || (has && !first && i == n)
  {
  }

  lemma {:induction false} EventsNamed(c: Config, flags: seq<bool>, ok: seq<bool>, n: nat, i: nat, succeeds: bool, k: nat)
    requires ConfigOk(c) && |flags| == UES && |ok| == UES && n <= UES && i < UES
    requires succeeds == Succeeds(c, flags, ok, i) && k == Successes(c, flags, ok, i % c.groups, i)
    ensures var events := VisitUpTo(c, flags, ok, n).events;
      (Sdu(i) in events <==> i < n && succeeds && k == 0) && (Sr(i) in events <==> i < n && succeeds && k > 0)
    decreases n
  {
    if n > 0 {
      EventsNamed(c, flags, ok, n - 1, i, succeeds, k);
      EventOfTurn(c, flags, ok, n - 1);
      Appended(VisitUpTo(c, flags, ok, n - 1).events, VisitUpTo(c, flags, ok, n).events, n - 1,
        Succeeds(c, flags, ok, n - 1), Successes(c, flags, ok, (n - 1) % c.groups, n - 1) == 0, i);
    }
  }

  lemma EventAdded(c: Config, p: Pass, n: nat, ok: bool)
    requires ConfigOk(c) && Valid(p, c) && n < UES
    ensures Visit(p, c, n, ok).events ==
      if c.enabled[n] && p.flags[n] && ok then p.events + [if p.received[n % c.groups] == 0 then Sdu(n) else Sr(n)]
      else p.events
  {
  }

  /** Every pass: exactly the UEs whose access succeeded have an event, under their own number;
      the first of each group is the received SDU, the others are scheduling requests. */
  lemma CbaEvents(c: Config, flags: seq<bool>, ok: seq<bool>, i: nat)
    requires ConfigOk(c) && |flags| == UES && |ok| == UES && i < UES
    ensures var events := VisitUpTo(c, flags, ok, UES).events;
      && (Sdu(i) in events <==> Succeeds(c, flags, ok, i) && Successes(c, flags, ok, i % c.groups, i) == 0)
      && (Sr(i) in events <==> Succeeds(c, flags, ok, i) && Successes(c, flags, ok, i % c.groups, i) > 0)
  {
    EventsNamed(c, flags, ok, UES, i, Succeeds(c, flags, ok, i), Successes(c, flags, ok, i % c.groups, i));
  }

  /** The chain, spelled out: with all UEs enabled, UE i has its turn exactly if some UE
      of its group at or before i was flagged. */
  lemma {:induction false} ChainReached(c: Config, flags: seq<bool>, i: nat)
    requires ConfigOk(c) && |flags| == UES && i < UES && forall j :: 0 <= j < UES ==> c.enabled[j]
    ensures Reached(c, flags, i) <==> exists j :: 0 <= j <= i && j % c.groups == i % c.groups && flags[j]
    decreases i
  {
    if i >= c.groups {
      var h := i - c.groups;
      ChainReached(c, flags, h);
      ShiftResidue(h, c.groups);
      if Reached(c, flags, i) && !flags[i] {
        var j :| 0 <= j <= h && j % c.groups == h % c.groups && flags[j];
      }
      if exists j :: 0 <= j <= i && j % c.groups == i % c.groups && flags[j] {
        var j :| 0 <= j <= i && j % c.groups == i % c.groups && flags[j];
        if j != i {
          ResidueGap(j, i, c.groups);
        }
      }
    } else {
      forall j | 0 <= j <= i ensures j % c.groups == j {
        Small(j, c.groups);
      }
    }
  }

  lemma Small(j: nat, g: nat)
    requires j < g
    ensures j % g == j
  {
  }

  // ----- The pass as the loop it is

  method RunPass(c: Config, flags: array<bool>, ok: seq<bool>) returns (events: seq<Event>)
    requires ConfigOk(c) && flags.Length == UES && |ok| == UES
    modifies flags
    ensures flags[..] == VisitUpTo(c, old(flags[..]), ok, UES).flags
    ensures events == VisitUpTo(c, old(flags[..]), ok, UES).events
  {
    events := [];
    var received := seq(c.groups, g => 0);
    ghost var was := flags[..];
    for i := 0 to UES
      invariant |received| == c.groups
      invariant Pass(flags[..], received, events) == VisitUpTo(c, was, ok, i)
    {
      ghost var p := Pass(flags[..], received, events);
      if c.enabled[i] && flags[i] {
        flags[i] := false;
        if i + c.groups < UES && c.enabled[i + c.groups] {
          flags[i + c.groups] := true;
        }
        if ok[i] {
          var g := i % c.groups;
          events := events + [if received[g] == 0 then Sdu(i) else Sr(i)];
          received := received[g := received[g] + 1];
        }
      }
      assert Pass(flags[..], received, events) == Visit(p, c, i, ok[i]);
    }
  }
}
