/** Scheduling of generic test cases over a list of machines.  Worker threads end at any
    moment; the scheduler learns of it only by polling.
 */
module TestScheduler {

  datatype Entry = Entry(id: nat, machine: string)

  /** Exited: the process ended because a thread outlived the wait before a softmodem
      test.  Polling: it is still looking for a free machine. */
  datatype Status = Running | Polling | Exited

  datatype State = State(tracked: seq<Entry>, alive: set<nat>, next: nat, status: Status)

  /** Check by check, the threads that ended before it. */
  type Ends = seq<set<nat>>

  datatype Event = Generic(rounds: seq<Ends>) | Softmodem(ends: Ends)

  function EndsAt(ends: Ends, i: nat): set<nat> {
    if i < |ends| then ends[i] else {}
  }

  // ----- Polling

  /** Joins and checks the tracked threads from index i on: entries seen alive, and the
      threads still alive after the last check. */
  function Poll(tracked: seq<Entry>, alive: set<nat>, ends: Ends, i: nat): (seq<Entry>, set<nat>)
    requires i <= |tracked|
    decreases |tracked| - i
  {
    if i == |tracked| then ([], alive)
    else
      var now := alive - EndsAt(ends, i);
      var rest := Poll(tracked, now, ends, i + 1);
      (if tracked[i].id in now then [tracked[i]] + rest.0 else rest.0, rest.1)
  }

  function Busy(kept: seq<Entry>): seq<string> {
    if kept == [] then []
    else
      var m := kept[|kept| - 1].machine;
      var busy := Busy(kept[..|kept| - 1]);
      if m in busy then busy else busy + [m]
  }

  /** list.remove(m) where m occurs: its first occurrence goes. */
  function RemoveFirst(list: seq<string>, m: string): seq<string> {
    if list == [] then []
    else if list[0] == m then list[1..]
    else [list[0]] + RemoveFirst(list[1..], m)
  }

  function Free(list: seq<string>, busy: seq<string>): seq<string>
    decreases |busy|
  {
    if busy == [] then list else Free(RemoveFirst(list, busy[0]), busy[1..])
  }

  /** handle_testcaseclass_generic: polls round by round until a machine is free. */
  function Handle(s: State, list: seq<string>, rounds: seq<Ends>): State
    decreases |rounds|
  {
    if rounds == [] then s.(status := Polling)
    else
      var polled := Poll(s.tracked, s.alive, rounds[0], 0);
      var free := Free(list, Busy(polled.0));
      if free == [] then Handle(s.(alive := polled.1), list, rounds[1..])
      else
        s.(tracked := polled.0 + [Entry(s.next, free[0])], alive := polled.1 + {s.next}, next := s.next + 1)
  }

  /** wait_testcaseclass_generic_threads: joins the tracked threads in turn and ends the
      process at the first one still alive. */
  function Wait(s: State, ends: Ends, i: nat): State
    requires i <= |s.tracked|
    decreases |s.tracked| - i
  {
    if i == |s.tracked| then s.(tracked := [])
    else
      var now := s.alive - EndsAt(ends, i);
      if s.tracked[i].id in now then s.(alive := now, status := Exited)
      else Wait(s.(alive := now), ends, i + 1)
  }

  function Next(s: State, list: seq<string>, e: Event): State {
    if s.status != Running then s
    else
      match e
      case Generic(rounds) => Handle(s, list, rounds)
      case Softmodem(ends) => Wait(s, ends, 0)
  }

  function After(s: State, list: seq<string>, events: seq<Event>): State
    decreases |events|
  {
    if events == [] then s else After(Next(s, list, events[0]), list, events[1..])
  }

  function Init(): State {
    State([], {}, 0, Running)
  }

  // ----- What is promised

  predicate Distinct(list: seq<string>) {
    forall i, j :: 0 <= i < j < |list| ==> list[i] != list[j]
  }

  /** No two live threads are on one machine. */
  predicate Exclusive(tracked: seq<Entry>, alive: set<nat>) {
    forall i, j :: 0 <= i < j < |tracked| && tracked[i].id in alive && tracked[j].id in alive ==>
      tracked[i].machine != tracked[j].machine
  }

  predicate Tracked(tracked: seq<Entry>, alive: set<nat>) {
    forall x :: x in alive ==> exists i :: 0 <= i < |tracked| && tracked[i].id == x
  }

  /** Live threads are tracked, under identifiers already used up. */
  predicate Known(s: State) {
    && Tracked(s.tracked, s.alive)
    && (forall i :: 0 <= i < |s.tracked| ==> s.tracked[i].id < s.next)
  }

  // ----- Polling loses no live thread

  lemma {:induction false} PollSound(tracked: seq<Entry>, alive: set<nat>, ends: Ends, i: nat)
    requires i <= |tracked|
    ensures var (kept, alive') := Poll(tracked, alive, ends, i);
      && alive' <= alive
      && (forall e :: e in kept ==> e in tracked[i..])
      && (forall e :: e in tracked[i..] && e.id in alive' ==> e in kept)
    decreases |tracked| - i
  {
    if i < |tracked| {
      PollSound(tracked, alive - EndsAt(ends, i), ends, i + 1);
      assert tracked[i..] == [tracked[i]] + tracked[i + 1..];
    }
  }

  lemma TailExclusive(tracked: seq<Entry>, alive: set<nat>, now: set<nat>)
    requires tracked != [] && Exclusive(tracked, alive) && now <= alive
    ensures Exclusive(tracked[1..], now)
  {
    var tail := tracked[1..];
    forall i, j | 0 <= i < j < |tail| && tail[i].id in now && tail[j].id in now
      ensures tail[i].machine != tail[j].machine
    {
      assert tracked[i + 1] == tail[i] && tracked[j + 1] == tail[j];
    }
  }

  lemma HeadExclusive(tracked: seq<Entry>, alive: set<nat>, x: Entry)
    requires tracked != [] && Exclusive(tracked, alive)
    requires x in tracked[1..] && x.id in alive && tracked[0].id in alive
    ensures x.machine != tracked[0].machine
  {
    var j :| 0 <= j < |tracked| - 1 && tracked[1..][j] == x;
    assert tracked[j + 1] == x;
  }

  lemma ConsExclusive(e: Entry, rest: seq<Entry>, alive: set<nat>)
    requires Exclusive(rest, alive)
    requires forall x :: x in rest && x.id in alive && e.id in alive ==> x.machine != e.machine
    ensures Exclusive([e] + rest, alive)
  {
    var all := [e] + rest;
    forall i, j | 0 <= i < j < |all| && all[i].id in alive && all[j].id in alive ensures all[i].machine != all[j].machine {
      assert all[j] == rest[j - 1] && all[j] in rest;
    }
  }

  lemma {:induction false} PollExclusive(tracked: seq<Entry>, alive: set<nat>, ends: Ends, i: nat)
    requires i <= |tracked| && Exclusive(tracked[i..], alive)
    ensures var (kept, alive') := Poll(tracked, alive, ends, i);
      Exclusive(kept, alive')
    decreases |tracked| - i
  {
    if i < |tracked| {
      var now := alive - EndsAt(ends, i);
      var (rest, alive') := Poll(tracked, now, ends, i + 1);
      var s := tracked[i..];
      assert s[0] == tracked[i] && s[1..] == tracked[i + 1..];
      TailExclusive(s, alive, now);
      PollExclusive(tracked, now, ends, i + 1);
      PollSound(tracked, now, ends, i + 1);
      forall x | x in rest && x.id in alive' && s[0].id in alive' ensures x.machine != s[0].machine {
        HeadExclusive(s, alive, x);
      }
      ConsExclusive(tracked[i], rest, alive');
    }
  }

  lemma {:induction false} BusyComplete(kept: seq<Entry>)
    ensures forall i :: 0 <= i < |kept| ==> kept[i].machine in Busy(kept)
    ensures forall m :: m in Busy(kept) ==> exists i :: 0 <= i < |kept| && kept[i].machine == m
  {
    if kept != [] {
      var n := |kept| - 1;
      BusyComplete(kept[..n]);
      forall i | 0 <= i < |kept| ensures kept[i].machine in Busy(kept) {
        if i < n {
          assert kept[..n][i].machine in Busy(kept[..n]);
        }
      }
      forall m | m in Busy(kept) ensures exists i :: 0 <= i < |kept| && kept[i].machine == m {
        if m in Busy(kept[..n]) {
          var i :| 0 <= i < n && kept[..n][i].machine == m;
          assert kept[i].machine == m;
        } else {
          assert kept[n].machine == m;
        }
      }
    }
  }

  // ----- Free machines

  lemma {:induction false} RemoveFirstExact(list: seq<string>, m: string)
    requires Distinct(list)
    ensures Distinct(RemoveFirst(list, m))
    ensures forall x :: x in RemoveFirst(list, m) <==> x in list && x != m
  {
    if list != [] {
      var rest := list[1..];
      assert list == [list[0]] + rest;
      forall i, j | 0 <= i < j < |rest| ensures rest[i] != rest[j] {
        assert list[i + 1] != list[j + 1];
      }
      assert list[0] !in rest;
      RemoveFirstExact(rest, m);
      if list[0] != m {
        var r := RemoveFirst(rest, m);
        assert list[0] !in r;
        assert forall k :: 1 <= k < |[list[0]] + r| ==> ([list[0]] + r)[k] == r[k - 1];
      }
    }
  }

  /** The free machines are those of the list that are not busy. */
  lemma {:induction false} FreeExact(list: seq<string>, busy: seq<string>)
    requires Distinct(list)
    ensures forall x :: x in Free(list, busy) <==> x in list && x !in busy
    decreases |busy|
  {
    if busy != [] {
      RemoveFirstExact(list, busy[0]);
      FreeExact(RemoveFirst(list, busy[0]), busy[1..]);
      assert busy == [busy[0]] + busy[1..];
    }
  }

  // ----- Every step

  lemma PollKnown(s: State, ends: Ends)
    requires Known(s)
    ensures var (kept, alive) := Poll(s.tracked, s.alive, ends, 0);
      Known(s.(alive := alive)) && Known(s.(tracked := kept, alive := alive))
  {
    PollSound(s.tracked, s.alive, ends, 0);
    assert s.tracked[0..] == s.tracked;
    var (kept, alive) := Poll(s.tracked, s.alive, ends, 0);
    forall x | x in alive ensures exists i :: 0 <= i < |kept| && kept[i].id == x {
      var i :| 0 <= i < |s.tracked| && s.tracked[i].id == x;
      assert s.tracked[i] in kept;
      var k :| 0 <= k < |kept| && kept[k] == s.tracked[i];
      assert kept[k].id == x;
    }
    forall i | 0 <= i < |kept| ensures kept[i].id < s.next {
      assert kept[i] in s.tracked;
    }
  }

  lemma StartKnown(s: State, machine: string)
    requires Known(s)
    ensures Known(s.(tracked := s.tracked + [Entry(s.next, machine)], alive := s.alive + {s.next}, next := s.next + 1))
  {
    var tracked := s.tracked + [Entry(s.next, machine)];
    forall x | x in s.alive + {s.next} ensures exists i :: 0 <= i < |tracked| && tracked[i].id == x {
      if x == s.next {
        assert tracked[|s.tracked|].id == x;
      } else {
        var i :| 0 <= i < |s.tracked| && s.tracked[i].id == x;
        assert tracked[i].id == x;
      }
    }
  }

  /** A thread started on a machine none of the kept threads uses shares with none. */
  lemma StartExclusive(kept: seq<Entry>, alive: set<nat>, id: nat, machine: string)
    requires Exclusive(kept, alive)
    requires forall i :: 0 <= i < |kept| ==> kept[i].id != id && kept[i].machine != machine
    ensures Exclusive(kept + [Entry(id, machine)], alive + {id})
  {
  }

  lemma {:induction false} HandleSafe(s: State, list: seq<string>, rounds: seq<Ends>)
    requires Known(s)
    ensures Known(Handle(s, list, rounds))
    ensures Distinct(list) && Exclusive(s.tracked, s.alive) ==>
      var s' := Handle(s, list, rounds);
      Exclusive(s'.tracked, s'.alive)
    decreases |rounds|
  {
    if rounds != [] {
      var (kept, alive) := Poll(s.tracked, s.alive, rounds[0], 0);
      PollKnown(s, rounds[0]);
      var free := Free(list, Busy(kept));
      if free == [] {
        PollSound(s.tracked, s.alive, rounds[0], 0);
        HandleSafe(s.(alive := alive), list, rounds[1..]);
      } else {
        StartKnown(s.(tracked := kept, alive := alive), free[0]);
        if Distinct(list) && Exclusive(s.tracked, s.alive) {
          assert s.tracked[0..] == s.tracked;
          PollExclusive(s.tracked, s.alive, rounds[0], 0);
          FreeExact(list, Busy(kept));
          BusyComplete(kept);
          StartExclusive(kept, alive, s.next, free[0]);
        }
      }
    }
  }

  /** The wait either ends the process or leaves no thread alive. */
  lemma {:induction false} WaitAlone(s: State, ends: Ends, i: nat)
    requires Known(s) && i <= |s.tracked| && s.status == Running
    requires forall k :: 0 <= k < i ==> s.tracked[k].id !in s.alive
    ensures var s' := Wait(s, ends, i);
      Known(s') && s'.alive <= s.alive &&
      (if s'.status == Running then s'.alive == {} && s'.tracked == [] else s'.status == Exited && s'.tracked == s.tracked)
    decreases |s.tracked| - i
  {
    if i == |s.tracked| {
      assert s.alive == {};
    } else {
      var now := s.alive - EndsAt(ends, i);
      if s.tracked[i].id !in now {
        WaitAlone(s.(alive := now), ends, i + 1);
      }
    }
  }

  // ----- Every run

  /** In the whole run: whenever a softmodem test starts, no generic thread is alive. */
  predicate AlwaysAlone(s: State, list: seq<string>, events: seq<Event>)
    decreases |events|
  {
    events == [] ||
    (var s' := Next(s, list, events[0]);
     (events[0].Softmodem? && s'.status == Running ==> s'.alive == {}) && AlwaysAlone(s', list, events[1..]))
  }

  lemma StepSafe(s: State, list: seq<string>, e: Event)
    requires Known(s)
    ensures var s' := Next(s, list, e);
      && Known(s')
      && (Distinct(list) && Exclusive(s.tracked, s.alive) ==> Exclusive(s'.tracked, s'.alive))
      && (e.Softmodem? && s'.status == Running ==> s'.alive == {})
  {
    if s.status == Running {
      match e
      case Generic(rounds) => HandleSafe(s, list, rounds);
      case Softmodem(ends) => WaitAlone(s, ends, 0);
    }
  }

  /** In every run from a state that tracks its live threads, softmodem tests run alone. */
  lemma {:induction false} SoftmodemAlone(s: State, list: seq<string>, events: seq<Event>)
    requires Known(s)
    ensures AlwaysAlone(s, list, events) && Known(After(s, list, events))
    decreases |events|
  {
    if events != [] {
      StepSafe(s, list, events[0]);
      SoftmodemAlone(Next(s, list, events[0]), list, events[1..]);
    }
  }

  lemma {:induction false} ExclusiveRuns(s: State, list: seq<string>, events: seq<Event>)
    requires Known(s) && Exclusive(s.tracked, s.alive) && Distinct(list)
    ensures var s' := After(s, list, events);
      Exclusive(s'.tracked, s'.alive)
    decreases |events|
  {
    if events != [] {
      StepSafe(s, list, events[0]);
      ExclusiveRuns(Next(s, list, events[0]), list, events[1..]);
    }
  }

  /** Live threads never share a machine in any run if and only if the machine list names
      no machine twice. */
  lemma NeverShare(list: seq<string>)
    ensures Distinct(list) <==>
      forall events: seq<Event> :: var s := After(Init(), list, events); Exclusive(s.tracked, s.alive)
  {
    if Distinct(list) {
      forall events: seq<Event> ensures var s := After(Init(), list, events); Exclusive(s.tracked, s.alive) {
        ExclusiveRuns(Init(), list, events);
      }
    } else {
      var j := FirstRepeat(list);
      FillRuns(list, j);
      FillStep(list, j);
      AfterAppend(Init(), list, Starts(j), Generic([[]]));
      var s := After(Init(), list, Starts(j) + [Generic([[]])]);
      var i :| 0 <= i < j && list[i] == list[j];
      assert s.tracked[i] == Entry(i, list[i]) && s.tracked[j] == Entry(j, list[j]);
    }
  }

  // ----- The run that shares a machine: tests are started and none ends

  lemma FirstRepeat(list: seq<string>) returns (j: nat)
    requires !Distinct(list)
    ensures j < |list| && Distinct(list[..j]) && list[j] in list[..j]
  {
    j := 0;
    while list[j] !in list[..j]
      invariant j < |list| && Distinct(list[..j])
      decreases |list| - j
    {
      assert list[..|list|] == list;
      assert Distinct(list[..j + 1]);
      j := j + 1;
    }
  }

  function Starts(k: nat): seq<Event> {
    seq(k, _ => Generic([[]]))
  }

  function Below(k: nat): (s: set<nat>)
    ensures forall i: nat :: i in s <==> i < k
  {
    if k == 0 then {} else Below(k - 1) + {k - 1}
  }

  /** The first k machines of the list have a thread each. */
  function Filled(list: seq<string>, k: nat): State
    requires k <= |list|
  {
    State(seq(k, i requires 0 <= i < k => Entry(i, list[i])), Below(k), k, Running)
  }

  lemma {:induction false} PollAllAlive(tracked: seq<Entry>, alive: set<nat>, i: nat)
    requires i <= |tracked| && forall k :: 0 <= k < |tracked| ==> tracked[k].id in alive
    ensures Poll(tracked, alive, [], i) == (tracked[i..], alive)
    decreases |tracked| - i
  {
    if i < |tracked| {
      assert alive - {} == alive;
      PollAllAlive(tracked, alive, i + 1);
      assert tracked[i..] == [tracked[i]] + tracked[i + 1..];
    }
  }

  lemma {:induction false} BusyOfFilled(list: seq<string>, k: nat)
    requires k <= |list| && Distinct(list[..k])
    ensures Busy(Filled(list, k).tracked) == list[..k]
    decreases k
  {
    if k > 0 {
      var kept := Filled(list, k).tracked;
      assert kept[..k - 1] == Filled(list, k - 1).tracked;
      assert Distinct(list[..k - 1]) by {
        assert forall i :: 0 <= i < k - 1 ==> list[..k - 1][i] == list[..k][i];
      }
      BusyOfFilled(list, k - 1);
      assert list[k - 1] !in list[..k - 1] by {
        assert forall i :: 0 <= i < k - 1 ==> list[..k][i] != list[..k][k - 1];
      }
      assert list[..k] == list[..k - 1] + [list[k - 1]];
    }
  }

  lemma {:induction false} FreeAfterPrefix(list: seq<string>, k: nat)
    requires k <= |list|
    ensures Free(list, list[..k]) == list[k..]
    decreases k
  {
    if k > 0 {
      assert list[..k][1..] == list[1..][..k - 1];
      FreeAfterPrefix(list[1..], k - 1);
    }
  }

  lemma FillStep(list: seq<string>, k: nat)
    requires k < |list| && Distinct(list[..k])
    ensures Next(Filled(list, k), list, Generic([[]])) == Filled(list, k + 1)
  {
    var s := Filled(list, k);
    PollAllAlive(s.tracked, s.alive, 0);
    BusyOfFilled(list, k);
    FreeAfterPrefix(list, k);
    assert s.tracked[0..] == s.tracked;
    var s' := Filled(list, k + 1);
    assert s'.tracked == s.tracked + [Entry(k, list[k])];
    assert s'.alive == s.alive + {k};
  }

  lemma {:induction false} AfterAppend(s: State, list: seq<string>, events: seq<Event>, e: Event)
    ensures After(s, list, events + [e]) == Next(After(s, list, events), list, e)
    decreases |events|
  {
    if events == [] {
      assert events + [e] == [e];
    } else {
      assert (events + [e])[1..] == events[1..] + [e];
      AfterAppend(Next(s, list, events[0]), list, events[1..], e);
    }
  }

  lemma {:induction false} FillRuns(list: seq<string>, k: nat)
    requires k <= |list| && Distinct(list[..k])
    ensures After(Init(), list, Starts(k)) == Filled(list, k)
    decreases k
  {
    if k == 0 {
      assert Filled(list, 0).alive == {};
    } else {
      assert Distinct(list[..k - 1]) by {
        assert forall i :: 0 <= i < k - 1 ==> list[..k - 1][i] == list[..k][i];
      }
      FillRuns(list, k - 1);
      FillStep(list, k - 1);
      assert Starts(k) == Starts(k - 1) + [Generic([[]])];
      AfterAppend(Init(), list, Starts(k - 1), Generic([[]]));
    }
  }

  // ----- In place

  method FreeMachines(list: seq<string>, busy: seq<string>) returns (free: seq<string>)
    ensures free == Free(list, busy)
  {
    free := list;
    for i := 0 to |busy|
      invariant Free(free, busy[i..]) == Free(list, busy)
    {
      assert busy[i..][1..] == busy[i + 1..];
      if busy[i] in free {
        free := RemoveFirst(free, busy[i]);
      } else {
        RemoveAbsent(free, busy[i]);
      }
    }
  }

  lemma {:induction false} RemoveAbsent(list: seq<string>, m: string)
    requires m !in list
    ensures RemoveFirst(list, m) == list
  {
    if list != [] {
      RemoveAbsent(list[1..], m);
    }
  }

  /** Entries kept so far and a poll of the rest make up the whole poll. */
  ghost predicate PollsTo(tracked: seq<Entry>, kept: seq<Entry>, alive: set<nat>, ends: Ends, i: nat,
                          all: (seq<Entry>, set<nat>))
    requires i <= |tracked|
  {
    var rest := Poll(tracked, alive, ends, i);
    kept + rest.0 == all.0 && rest.1 == all.1
  }

  lemma PollStep(tracked: seq<Entry>, kept: seq<Entry>, alive: set<nat>, ends: Ends, i: nat,
                 all: (seq<Entry>, set<nat>))
    requires i < |tracked| && PollsTo(tracked, kept, alive, ends, i, all)
    ensures var now := alive - EndsAt(ends, i);
      PollsTo(tracked, if tracked[i].id in now then kept + [tracked[i]] else kept, now, ends, i + 1, all)
  {
    var rest := Poll(tracked, alive - EndsAt(ends, i), ends, i + 1).0;
    assert kept + ([tracked[i]] + rest) == (kept + [tracked[i]]) + rest;
  }

  lemma BusyStep(kept: seq<Entry>, e: Entry)
    ensures Busy(kept + [e]) == if e.machine in Busy(kept) then Busy(kept) else Busy(kept) + [e.machine]
  {
    assert (kept + [e])[..|kept|] == kept;
  }

  class Scheduler {
    var tracked: seq<Entry>
    /** Threads not yet ended; changed by the environment and by starting threads. */
    var alive: set<nat>
    var next: nat
    var status: Status

    function Abs(): State
      reads this
    {
      State(tracked, alive, next, status)
    }

    constructor ()
      ensures Abs() == Init()
    {
      tracked, alive, next, status := [], {}, 0, Running;
    }

    /** The polling loop of handle_testcaseclass_generic. */
    method PollThreads(ends: Ends) returns (kept: seq<Entry>, busy: seq<string>)
      modifies this`alive
      ensures (kept, alive) == Poll(tracked, old(alive), ends, 0)
      ensures busy == Busy(kept)
    {
      kept, busy := [], [];
      ghost var all := Poll(tracked, alive, ends, 0);
      assert [] + all.0 == all.0;
      for i := 0 to |tracked|
        invariant busy == Busy(kept) && PollsTo(tracked, kept, alive, ends, i, all)
      {
        PollStep(tracked, kept, alive, ends, i, all);
        alive := alive - EndsAt(ends, i);
        if tracked[i].id in alive {
          BusyStep(kept, tracked[i]);
          kept := kept + [tracked[i]];
          if tracked[i].machine !in busy {
            busy := busy + [tracked[i].machine];
          }
        }
      }
      assert kept + [] == kept;
    }

    method HandleGeneric(list: seq<string>, rounds: seq<Ends>)
      requires status == Running
      modifies this
      ensures Abs() == Handle(old(Abs()), list, rounds)
    {
      var r := 0;
      var free: seq<string>, kept: seq<Entry> := [], [];
      while r < |rounds| && free == []
        invariant r <= |rounds| && tracked == old(tracked) && next == old(next) && status == Running
        invariant free == [] ==> Handle(Abs(), list, rounds[r..]) == Handle(old(Abs()), list, rounds)
        invariant free != [] ==>
          State(kept + [Entry(next, free[0])], alive + {next}, next + 1, Running) == Handle(old(Abs()), list, rounds)
      {
        assert rounds[r..][1..] == rounds[r + 1..];
        var busy;
        kept, busy := PollThreads(rounds[r]);
        free := FreeMachines(list, busy);
        r := r + 1;
      }
      if free == [] {
        status := Polling;
      } else {
        tracked := kept + [Entry(next, free[0])];
        alive := alive + {next};
        next := next + 1;
      }
    }

    method WaitGeneric(ends: Ends)
      requires status == Running
      modifies this`tracked, this`alive, this`status
      ensures Abs() == Wait(old(Abs()), ends, 0)
    {
      for i := 0 to |tracked|
        invariant tracked == old(tracked) && status == Running
        invariant Wait(Abs(), ends, i) == Wait(old(Abs()), ends, 0)
      {
        alive := alive - EndsAt(ends, i);
        if tracked[i].id in alive {
          status := Exited;
          return;
        }
      }
      tracked := [];
    }
  }
}
