/** Progress of the generic test cases: exactly when a test starts, on which machine, and
    exactly when the wait before a softmodem test gives up.
 */
module TestProgress {
  import opened TestScheduler

  // ----- What a check sees

  /** Threads that ended before checks i .. k - 1. */
  function Gone(ends: Ends, i: nat, k: nat): set<nat>
    requires i <= k
    decreases k - i
  {
    if i == k then {} else EndsAt(ends, i) + Gone(ends, i + 1, k)
  }

  /** Thread k of the tracked ones is alive when it is checked, checks starting at i. */
  predicate SeenAlive(tracked: seq<Entry>, alive: set<nat>, ends: Ends, i: nat, k: nat)
    requires i <= k < |tracked|
  {
    tracked[k].id in alive - Gone(ends, i, k + 1)
  }

  lemma SeenNext(tracked: seq<Entry>, alive: set<nat>, ends: Ends, i: nat, k: nat)
    requires i < k < |tracked|
    ensures SeenAlive(tracked, alive, ends, i, k) <==> SeenAlive(tracked, alive - EndsAt(ends, i), ends, i + 1, k)
  {
  }

  /** Polling keeps exactly the threads seen alive, and knows exactly of the ends that came
      before its last check. */
  lemma {:induction false} PollExactly(tracked: seq<Entry>, alive: set<nat>, ends: Ends, i: nat)
    requires i <= |tracked|
    ensures var (kept, alive') := Poll(tracked, alive, ends, i);
      && alive' == alive - Gone(ends, i, |tracked|)
      && (forall e :: e in kept <==> exists k :: i <= k < |tracked| && tracked[k] == e && SeenAlive(tracked, alive, ends, i, k))
    decreases |tracked| - i
  {
    if i < |tracked| {
      var now := alive - EndsAt(ends, i);
      PollExactly(tracked, now, ends, i + 1);
      var kept, rest := Poll(tracked, alive, ends, i).0, Poll(tracked, now, ends, i + 1).0;
      assert Gone(ends, i + 1, i + 1) == {};
      assert SeenAlive(tracked, alive, ends, i, i) <==> tracked[i].id in now;
      forall e ensures e in kept <==> exists k :: i <= k < |tracked| && tracked[k] == e && SeenAlive(tracked, alive, ends, i, k) {
        if e in rest {
          var k :| i + 1 <= k < |tracked| && tracked[k] == e && SeenAlive(tracked, now, ends, i + 1, k);
          SeenNext(tracked, alive, ends, i, k);
        }
        if k :| i <= k < |tracked| && tracked[k] == e && SeenAlive(tracked, alive, ends, i, k) {
          if k > i {
            SeenNext(tracked, alive, ends, i, k);
          }
        }
      }
    }
  }

  // ----- Starting a test

  /** A machine is in use if a thread on it is seen alive. */
  predicate InUse(s: State, ends: Ends, machine: string) {
    exists k :: 0 <= k < |s.tracked| && s.tracked[k].machine == machine && SeenAlive(s.tracked, s.alive, ends, 0, k)
  }

  lemma BusyExactly(s: State, ends: Ends, machine: string)
    ensures machine in Busy(Poll(s.tracked, s.alive, ends, 0).0) <==> InUse(s, ends, machine)
  {
    var kept := Poll(s.tracked, s.alive, ends, 0).0;
    PollExactly(s.tracked, s.alive, ends, 0);
    BusyComplete(kept);
    if machine in Busy(kept) {
      var i :| 0 <= i < |kept| && kept[i].machine == machine;
      assert kept[i] in kept;
    }
    if InUse(s, ends, machine) {
      var k :| 0 <= k < |s.tracked| && s.tracked[k].machine == machine && SeenAlive(s.tracked, s.alive, ends, 0, k);
      assert s.tracked[k] in kept;
      var i :| 0 <= i < |kept| && kept[i] == s.tracked[k];
      assert kept[i].machine in Busy(kept);
    }
  }

  function Filter(list: seq<string>, busy: seq<string>): seq<string> {
    if list == [] then []
    else (if list[0] in busy then [] else [list[0]]) + Filter(list[1..], busy)
  }

  lemma {:induction false} FilterSkips(list: seq<string>, m: string, busy: seq<string>)
    requires Distinct(list)
    ensures Filter(list, [m] + busy) == Filter(RemoveFirst(list, m), busy)
  {
    if list != [] {
      DistinctTail(list);
      if list[0] == m {
        FilterWithout(list[1..], m, busy);
      } else {
        FilterSkips(list[1..], m, busy);
        assert ([list[0]] + RemoveFirst(list[1..], m))[1..] == RemoveFirst(list[1..], m);
      }
    }
  }

  lemma DistinctTail(list: seq<string>)
    requires Distinct(list) && list != []
    ensures Distinct(list[1..]) && list[0] !in list[1..]
  {
    forall i, j | 0 <= i < j < |list| - 1 ensures list[1..][i] != list[1..][j] {
      assert list[i + 1] != list[j + 1];
    }
  }

  lemma {:induction false} FilterWithout(list: seq<string>, m: string, busy: seq<string>)
    requires m !in list
    ensures Filter(list, [m] + busy) == Filter(list, busy)
  {
    if list != [] {
      FilterWithout(list[1..], m, busy);
    }
  }

  /** The free machines are the list without the busy ones, in the order of the list. */
  lemma {:induction false} FreeInOrder(list: seq<string>, busy: seq<string>)
    requires Distinct(list)
    ensures Free(list, busy) == Filter(list, busy)
    decreases |busy|
  {
    if busy == [] {
      FilterNone(list);
    } else {
      RemoveFirstExact(list, busy[0]);
      FreeInOrder(RemoveFirst(list, busy[0]), busy[1..]);
      FilterSkips(list, busy[0], busy[1..]);
      assert busy == [busy[0]] + busy[1..];
    }
  }

  lemma {:induction false} FilterNone(list: seq<string>)
    ensures Filter(list, []) == list
  {
    if list != [] {
      FilterNone(list[1..]);
    }
  }

  lemma {:induction false} FilterFirst(list: seq<string>, busy: seq<string>) returns (i: nat)
    ensures Filter(list, busy) == [] ==> i == |list| && forall j :: 0 <= j < |list| ==> list[j] in busy
    ensures Filter(list, busy) != [] ==>
      i < |list| && Filter(list, busy)[0] == list[i] && list[i] !in busy && forall j :: 0 <= j < i ==> list[j] in busy
  {
    if list == [] {
      i := 0;
    } else if list[0] !in busy {
      i := 0;
    } else {
      var k := FilterFirst(list[1..], busy);
      i := k + 1;
      forall j | 0 <= j < i && j < |list| ensures list[j] in busy {
        if j > 0 {
          assert list[j] == list[1..][j - 1];
        }
      }
    }
  }

  /** Machine i of the list is the first that is not in use; i == |list| if all are. */
  predicate FirstUnused(s: State, list: seq<string>, ends: Ends, i: nat) {
    && i <= |list| && (forall j :: 0 <= j < i ==> InUse(s, ends, list[j]))
    && (i < |list| ==> !InUse(s, ends, list[i]))
  }

  /** One round of polling: a thread is started on the first machine of the list that is not
      in use; if all are, nothing but the ends of threads is new and the next round follows. */
  lemma RoundExactly(s: State, list: seq<string>, rounds: seq<Ends>) returns (i: nat)
    requires Distinct(list) && rounds != []
    ensures FirstUnused(s, list, rounds[0], i)
    ensures var s', now := Handle(s, list, rounds), s.alive - Gone(rounds[0], 0, |s.tracked|);
      if i == |list| then s' == Handle(s.(alive := now), list, rounds[1..])
      else
        && s'.next == s.next + 1 && s'.status == s.status && s'.alive == now + {s.next}
        && s'.tracked == Poll(s.tracked, s.alive, rounds[0], 0).0 + [Entry(s.next, list[i])]
  {
    var kept := Poll(s.tracked, s.alive, rounds[0], 0).0;
    var busy := Busy(kept);
    PollExactly(s.tracked, s.alive, rounds[0], 0);
    FreeInOrder(list, busy);
    i := FilterFirst(list, busy);
    forall j | 0 <= j < |list| ensures list[j] in busy <==> InUse(s, rounds[0], list[j]) {
      BusyExactly(s, rounds[0], list[j]);
    }
  }

  /** In some round a machine of the list is not in use. */
  ghost predicate CanStart(s: State, list: seq<string>, rounds: seq<Ends>)
    decreases |rounds|
  {
    rounds != [] &&
    ((exists j :: 0 <= j < |list| && !InUse(s, rounds[0], list[j])) ||
     CanStart(s.(alive := s.alive - Gone(rounds[0], 0, |s.tracked|)), list, rounds[1..]))
  }

  /** A test is started exactly if in some round a machine is not in use; otherwise the
      scheduler is still polling and has started nothing. */
  lemma {:induction false} StartsExactly(s: State, list: seq<string>, rounds: seq<Ends>)
    requires Distinct(list) && s.status == Running
    ensures var s' := Handle(s, list, rounds);
      if CanStart(s, list, rounds) then s'.status == Running && s'.next == s.next + 1 && s.next in s'.alive
      else s'.status == Polling && s'.next == s.next && s'.tracked == s.tracked && s'.alive <= s.alive
    decreases |rounds|
  {
    if rounds != [] {
      var i := RoundExactly(s, list, rounds);
      if i == |list| {
        StartsExactly(s.(alive := s.alive - Gone(rounds[0], 0, |s.tracked|)), list, rounds[1..]);
      } else {
        assert !InUse(s, rounds[0], list[i]);
      }
    }
  }

  // ----- Waiting

  /** Some thread from index i on is still alive when it is joined. */
  predicate SomeAlive(tracked: seq<Entry>, alive: set<nat>, ends: Ends, i: nat)
    requires i <= |tracked|
  {
    exists k :: i <= k < |tracked| && SeenAlive(tracked, alive, ends, i, k)
  }

  lemma SomeNext(tracked: seq<Entry>, alive: set<nat>, ends: Ends, i: nat)
    requires i < |tracked|
    ensures var now := alive - EndsAt(ends, i);
      SomeAlive(tracked, alive, ends, i) <==> tracked[i].id in now || SomeAlive(tracked, now, ends, i + 1)
  {
    var now := alive - EndsAt(ends, i);
    assert Gone(ends, i + 1, i + 1) == {};
    assert SeenAlive(tracked, alive, ends, i, i) <==> tracked[i].id in now;
    if SomeAlive(tracked, alive, ends, i) && tracked[i].id !in now {
      var k :| i <= k < |tracked| && SeenAlive(tracked, alive, ends, i, k);
      SeenNext(tracked, alive, ends, i, k);
    }
    if SomeAlive(tracked, now, ends, i + 1) {
      var k :| i + 1 <= k < |tracked| && SeenAlive(tracked, now, ends, i + 1, k);
      SeenNext(tracked, alive, ends, i, k);
    }
  }

  /** The wait ends the process exactly if some thread is still alive when it is joined. */
  lemma {:induction false} WaitExactly(s: State, ends: Ends, i: nat)
    requires i <= |s.tracked| && s.status == Running
    ensures Wait(s, ends, i).status == Exited <==> SomeAlive(s.tracked, s.alive, ends, i)
    decreases |s.tracked| - i
  {
    if i < |s.tracked| {
      SomeNext(s.tracked, s.alive, ends, i);
      var now := s.alive - EndsAt(ends, i);
      if s.tracked[i].id !in now {
        WaitExactly(s.(alive := now), ends, i + 1);
      }
    }
  }
}
