/** At most one CGI measurement is stored, at every point of every run: whatever the
    transaction ids and report types of the requests, and for any number of UEs.
 */
module MeasCgi {
  import opened MeasTypes
  import opened MeasEnb
  import opened MeasTriggers

  /** The tree is in order and holds at most one CGI measurement. */
  predicate One(m: Manager) {
    ManagerInRange(m) && Sorted(m.triggers) && AtMostOneCgi(m.triggers)
  }

  /** A repeated transaction id leaves the tree as it is, so it stays in order. */
  lemma JudgedSorted(triggers: seq<Trigger>, t: Tables, v: Verdict, q: Request)
    requires Sized(t) && Sound(v, q) && Sorted(triggers)
    ensures Sorted(TriggersAfter(triggers, t, v, q))
  {
    var updated := triggers;
    if Admitted(t, v, q) && v.obj > 0 {
      UpdateSorted(triggers, v.obj, q.obj);
      updated := UpdateObject(triggers, v.obj, q.obj);
    }
    if Configured(t, v, q) {
      InsertSorted(updated, TriggerOf(t, v, q));
    }
  }

  lemma AskOne(m: Manager, env: Env, q: Request)
    requires One(m) && q.rnti in m.contexts
    ensures One(HandleRequest(m, env, q).manager)
  {
    var t, v := m.contexts[q.rnti], Judge(m, env, q);
    JudgeSound(m, env, q);
    JudgedSorted(m.triggers, t, v, q);
    JudgedCgi(m.triggers, t, v, q);
  }

  lemma StepOne(m: Manager, e: Event)
    requires One(m) && Enabled(m, e)
    ensures One(Next(m, e).manager)
  {
    match e {
      case Ask(env, q) => AskOne(m, env, q);
      case Report(u, k, knows) => WithoutSorted(m.triggers, u, k);
      case UeUp(u) =>
      case UeDown(u) =>
        WithoutUeSorted(m.triggers, u);
        WithoutUeExact(m.triggers, u);
    }
  }

  ghost predicate AlwaysOneCgi(m: Manager, es: seq<Event>)
    requires ManagerInRange(m) && ValidRun(m, es)
    decreases |es|
  {
    AtMostOneCgi(m.triggers) && (es != [] ==> AlwaysOneCgi(Next(m, es[0]).manager, es[1..]))
  }

  /** Every run of requests, reports, arrivals and departures, well behaved or not. */
  lemma {:induction false} CgiRuns(m: Manager, es: seq<Event>)
    requires One(m) && ValidRun(m, es)
    ensures AlwaysOneCgi(m, es)
    decreases |es|
  {
    if es != [] {
      StepOne(m, es[0]);
      CgiRuns(Next(m, es[0]).manager, es[1..]);
    }
  }
}
