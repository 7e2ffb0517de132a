/** How long a measurement lives: which events end it, what exactly a measurement report
    from the UE does, and that nothing else is touched.
 */
module MeasLife {
  import opened Options
  import opened MeasTypes
  import opened MeasEnb
  import opened MeasTriggers

  /** A measurement as configured: its identities, object and report configuration. */
  datatype Measurement = Measurement(id: IdRecord, obj: Option<ObjectRecord>, report: Option<ReportRecord>)

  /** Measurement k of UE u; None if there is none. */
  function Current(m: Manager, u: Rnti, k: nat): (r: Option<Measurement>)
    requires ManagerInRange(m)
  {
    if u !in m.contexts || !(1 <= k <= MAX_MEAS) || m.contexts[u].ids[k - 1].None? then None
    else
      var t := m.contexts[u];
      var id := t.ids[k - 1].value;
      Some(Measurement(id, t.objects[id.objectId - 1], t.reports[id.reportId - 1]))
  }

  predicate Lives(m: Manager, u: Rnti, k: nat)
    requires ManagerInRange(m)
  {
    Current(m, u, k).Some?
  }

  // ----- One report

  /** A release takes measurement k and leaves every other one as it is. */
  lemma ReleaseOnly(t: Tables, k: nat, i: nat)
    requires InRange(t) && 1 <= k <= MAX_MEAS && 1 <= i <= MAX_MEAS
    ensures var t' := Release(t, k).tables;
      && (i == k ==> t'.ids[i - 1].None?)
      && (i != k ==> t'.ids[i - 1] == t.ids[i - 1])
      && (i != k && t.ids[i - 1].Some? ==>
            var id := t.ids[i - 1].value;
            t'.objects[id.objectId - 1] == t.objects[id.objectId - 1] && t'.reports[id.reportId - 1] == t.reports[id.reportId - 1])
  {
    if t.ids[k - 1].Some? && i != k && t.ids[i - 1].Some? {
      var ids := t.ids[k - 1 := None];
      assert Holds(ids[i - 1], ids[i - 1].value.objectId) && Reports(ids[i - 1], ids[i - 1].value.reportId);
    }
  }

  /** The report concerns a measurement that is wanted: the controller's agent still knows
      its trigger. */
  predicate Wanted(m: Manager, u: Rnti, k: nat, knows: bool) {
    knows && Owned(m.triggers, u, k)
  }

  /** The manager after a report, without looking into the release. */
  lemma ReportUnfolds(m: Manager, u: Rnti, k: nat, knows: bool)
    requires ManagerInRange(m) && 1 <= k <= MAX_MEAS
    ensures var s := HandleReport(m, u, k, knows);
      if Wanted(m, u, k, knows) || u !in m.contexts then s.manager.contexts == m.contexts && s.sent.None?
      else s.manager.contexts == m.contexts[u := Release(m.contexts[u], k).tables] && s.sent == Release(m.contexts[u], k).sent
  {
  }

  /** A report of any manager state: the measurement it names stays exactly if it is wanted,
      every other one stays as it is, and the UE is told exactly of a measurement that goes. */
  lemma ReportEffect(m: Manager, u: Rnti, k: nat, knows: bool, w: Rnti, i: nat)
    requires ManagerInRange(m) && 1 <= k <= MAX_MEAS
    ensures var s := HandleReport(m, u, k, knows);
      && s.manager.contexts.Keys == m.contexts.Keys
      && (Current(s.manager, w, i) ==
          if w == u && i == k && !Wanted(m, u, k, knows) then None else Current(m, w, i))
      && (s.sent.Some? <==> Lives(m, u, k) && !Wanted(m, u, k, knows))
  {
    ReportUnfolds(m, u, k, knows);
    if u in m.contexts {
      CurrentAfter(m, HandleReport(m, u, k, knows).manager, u, k, w, i, Wanted(m, u, k, knows));
    }
  }

  lemma CurrentAfter(m: Manager, m': Manager, u: Rnti, k: nat, w: Rnti, i: nat, wanted: bool)
    requires ManagerInRange(m) && ManagerInRange(m') && u in m.contexts && 1 <= k <= MAX_MEAS
    requires m'.contexts == if wanted then m.contexts else m.contexts[u := Release(m.contexts[u], k).tables]
    ensures Current(m', w, i) == if w == u && i == k && !wanted then None else Current(m, w, i)
  {
    if w == u && 1 <= i <= MAX_MEAS {
      ReleaseOnly(m.contexts[u], k, i);
    }
  }

  /** Which triggers a report leaves. */
  lemma ReportTriggers(m: Manager, u: Rnti, k: nat, knows: bool, x: Trigger)
    requires ManagerInRange(m) && Sorted(m.triggers) && KeysUnique(m.triggers) && 1 <= k <= MAX_MEAS
    ensures x in HandleReport(m, u, k, knows).manager.triggers <==>
      x in m.triggers && (knows || !(x.rnti == u && x.measId == k))
  {
    if x.rnti == u && x.measId == k {
      WithoutKey(m.triggers, u, k, x);
    }
  }

  /** In a state where triggers and measurements match: after a report for measurement k of
      UE u that measurement lives exactly if it lived before and the agent knows its trigger;
      all other measurements and triggers are as before, and a message goes out exactly if a
      live measurement went. */
  lemma ReportExactly(m: Manager, u: Rnti, k: nat, knows: bool)
    requires ManagerInRange(m) && Matched(m) && 1 <= k <= MAX_MEAS
    ensures var s := HandleReport(m, u, k, knows);
      && (Lives(s.manager, u, k) <==> Lives(m, u, k) && knows)
      && (forall w, i :: !(w == u && i == k) || knows ==> Current(s.manager, w, i) == Current(m, w, i))
      && (forall x :: x in s.manager.triggers <==> x in m.triggers && (knows || !(x.rnti == u && x.measId == k)))
      && (s.sent.Some? <==> Lives(m, u, k) && !knows)
  {
    var s := HandleReport(m, u, k, knows);
    OwnedLives(m, u, k);
    ReportEffect(m, u, k, knows, u, k);
    forall w, i | !(w == u && i == k) || knows ensures Current(s.manager, w, i) == Current(m, w, i) {
      ReportEffect(m, u, k, knows, w, i);
    }
    forall x ensures x in s.manager.triggers <==> x in m.triggers && (knows || !(x.rnti == u && x.measId == k)) {
      ReportTriggers(m, u, k, knows, x);
    }
  }

  lemma OwnedLives(m: Manager, u: Rnti, k: nat)
    requires ManagerInRange(m) && Matched(m) && 1 <= k <= MAX_MEAS
    ensures Owned(m.triggers, u, k) <==> Lives(m, u, k)
  {
    if Owned(m.triggers, u, k) {
      var x :| x in m.triggers && x.rnti == u && x.measId == k;
      assert Backed(m.contexts, x);
    }
    if Lives(m, u, k) {
      LiveIsOwned(m, u, k);
    }
  }

  // ----- Whole runs

  /** The event ends measurement k of UE u: the UE goes, or it reports the measurement and
      the measurement is not wanted. */
  predicate Ends(m: Manager, e: Event, u: Rnti, k: nat) {
    e == UeDown(u) || (e.Report? && e.rnti == u && e.measId == k && !Wanted(m, u, k, e.agentKnows))
  }

  /** The identities of the measurement, by which it is still the same one. */
  function IdOf(m: Manager, u: Rnti, k: nat): Option<IdRecord>
    requires ManagerInRange(m)
  {
    var c := Current(m, u, k);
    if c.Some? then Some(c.value.id) else None
  }

  lemma AskKeepsId(t: Tables, v: Verdict, q: Request, si: bool, k: nat)
    requires InRange(t) && Sound(v, q) && 1 <= k <= MAX_MEAS && t.ids[k - 1].Some?
    ensures TablesAfter(t, v, q, si).tables.ids[k - 1] == t.ids[k - 1]
  {
  }

  lemma AskLife(m: Manager, env: Env, q: Request, u: Rnti, k: nat)
    requires ManagerInRange(m) && q.rnti in m.contexts && Lives(m, u, k)
    ensures IdOf(HandleRequest(m, env, q).manager, u, k) == IdOf(m, u, k)
  {
    JudgeSound(m, env, q);
    if q.rnti == u {
      AskKeepsId(m.contexts[u], Judge(m, env, q), q, env.siAcquisition, k);
    }
  }

  /** A live measurement survives an event, with the identities it has, exactly if the event
      does not end it. */
  lemma StepLife(m: Manager, e: Event, u: Rnti, k: nat)
    requires ManagerInRange(m) && Enabled(m, e) && Lives(m, u, k)
    ensures IdOf(Next(m, e).manager, u, k) == if Ends(m, e, u, k) then None else IdOf(m, u, k)
  {
    match e {
      case Ask(env, q) => AskLife(m, env, q, u, k);
      case Report(w, i, knows) => ReportEffect(m, w, i, knows, u, k);
      case UeUp(w) =>
      case UeDown(w) =>
    }
  }

  ghost predicate AlwaysLives(m: Manager, es: seq<Event>, u: Rnti, k: nat, id: Option<IdRecord>)
    requires ManagerInRange(m) && ValidRun(m, es)
    decreases |es|
  {
    IdOf(m, u, k) == id && (es != [] ==> AlwaysLives(Next(m, es[0]).manager, es[1..], u, k, id))
  }

  ghost predicate NeverEnds(m: Manager, es: seq<Event>, u: Rnti, k: nat)
    requires ManagerInRange(m) && ValidRun(m, es)
    decreases |es|
  {
    es != [] ==> !Ends(m, es[0], u, k) && NeverEnds(Next(m, es[0]).manager, es[1..], u, k)
  }

  /** Every run: a configured measurement stays configured, with the same identities, after
      every event if and only if no event ends it. */
  lemma {:induction false} LifeRuns(m: Manager, es: seq<Event>, u: Rnti, k: nat)
    requires ManagerInRange(m) && ValidRun(m, es) && Lives(m, u, k)
    ensures AlwaysLives(m, es, u, k, IdOf(m, u, k)) <==> NeverEnds(m, es, u, k)
    decreases |es|
  {
    if es != [] {
      StepLife(m, es[0], u, k);
      if !Ends(m, es[0], u, k) {
        LifeRuns(Next(m, es[0]).manager, es[1..], u, k);
      }
    }
  }

  lemma EndsExactly(m: Manager, e: Event, u: Rnti, k: nat)
    requires ManagerInRange(m) && Matched(m) && Lives(m, u, k)
    ensures Ends(m, e, u, k) <==> e == UeDown(u) || e == Report(u, k, false)
  {
    OwnedLives(m, u, k);
  }

  lemma Survives(m: Manager, e: Event, u: Rnti, k: nat)
    requires Kept(m) && Enabled(m, e) && WellBehaved(m, e) && Lives(m, u, k) && !Ends(m, e, u, k)
    ensures Kept(Next(m, e).manager) && Lives(Next(m, e).manager, u, k)
  {
    StepLife(m, e, u, k);
    StepKept(m, e);
  }

  predicate NoneEnds(es: seq<Event>, u: Rnti, k: nat) {
    UeDown(u) !in es && Report(u, k, false) !in es
  }

  lemma NoneEndsTail(es: seq<Event>, u: Rnti, k: nat)
    requires es != []
    ensures NoneEnds(es, u, k) <==> es[0] != UeDown(u) && es[0] != Report(u, k, false) && NoneEnds(es[1..], u, k)
  {
    assert es == [es[0]] + es[1..];
  }

  lemma {:induction false} NeverEndsExactly(m: Manager, es: seq<Event>, u: Rnti, k: nat)
    requires Kept(m) && ValidRun(m, es) && WellBehavedRun(m, es) && Lives(m, u, k)
    ensures NeverEnds(m, es, u, k) <==> NoneEnds(es, u, k)
    decreases |es|
  {
    if es != [] {
      EndsExactly(m, es[0], u, k);
      NoneEndsTail(es, u, k);
      if !Ends(m, es[0], u, k) {
        Survives(m, es[0], u, k);
        NeverEndsExactly(Next(m, es[0]).manager, es[1..], u, k);
      }
    }
  }

  /** In well-behaved runs only two kinds of event end it: a report for it whose trigger the
      agent does not know, and the UE going. */
  lemma WellBehavedLife(m: Manager, es: seq<Event>, u: Rnti, k: nat)
    requires Kept(m) && ValidRun(m, es) && WellBehavedRun(m, es) && Lives(m, u, k)
    ensures AlwaysLives(m, es, u, k, IdOf(m, u, k)) <==> NoneEnds(es, u, k)
  {
    LifeRuns(m, es, u, k);
    NeverEndsExactly(m, es, u, k);
  }
}
