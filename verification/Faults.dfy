/** What hook failures and departures do to locks. */
module Faults {
  import opened Coordination
  import opened Lifecycle
  import opened Protocol
  import opened Refinement
  import opened Wrappers

  /** Only the unit's own successful hook, or its departure, can end a live grant. */
  lemma LiveGrantSurvives(w: World, e: Event, u: string, l: string)
    requires Inv(w) && Enabled(w, e) && LiveNow(w, u, l)
    requires e != Commit(u) && e != Depart(u)
    ensures LiveNow(Next(w, e), u, l)
  {
    hide Inv, Mine, OwnRequests, OwnLoading;
    var w2 := Next(w, e);
    match e {
      case Publish(k) =>
        HookIsOk(w, k);
        SameSaved(w, w2);
        PublishFrame(w, k);
      case Commit(k) => CommitFrame(w, k);
      case Join(k) => MemberFrame(w, e);
      case Depart(k) => MemberFrame(w, e);
      case SeeRelation(k) => MemberFrame(w, e);
      case _ =>
        SameSaved(w, w2);
    }
  }

  lemma {:induction false} LiveGrantSurvivesRun(w: World, es: seq<Event>, u: string, l: string)
    requires Inv(w) && Possible(w, es) && LiveNow(w, u, l)
    requires Commit(u) !in es && Depart(u) !in es
    ensures Inv(After(w, es)) && LiveNow(After(w, es), u, l)
    decreases |es|
  {
    hide Inv, LiveNow, Next, Enabled;
    if es != [] {
      StepInv(w, es[0]);
      assert es[0] in es;
      LiveGrantSurvives(w, es[0], u, l);
      assert forall x :: x in es[1..] ==> x in es;
      LiveGrantSurvivesRun(Next(w, es[0]), es[1..], u, l);
    }
  }

  /**
   No lock is lost to a failure: if a unit's hook fails while its grant is live, then whatever others do
   meanwhile, the unit's next hook to load the current grants holds the lock again.
   */
  lemma FailedHolderHoldsAgain(w: World, es: seq<Event>, u: string, l: string)
    requires Inv(w) && Enabled(w, Fail(u)) && LiveNow(w, u, l)
    requires Possible(Next(w, Fail(u)), es) && Commit(u) !in es && Depart(u) !in es
    requires Enabled(After(Next(w, Fail(u)), es), Start(u))
    requires After(Next(w, Fail(u)), es).hooks[u].view.grants == Published(After(Next(w, Fail(u)), es))
    ensures Holds(Next(After(Next(w, Fail(u)), es), Start(u)), u, l)
  {
    hide Inv, Next, Enabled, LiveNow, Granted;
    var w1 := Next(w, Fail(u));
    StepInv(w, Fail(u));
    LiveGrantSurvives(w, Fail(u), u, l);
    LiveGrantSurvivesRun(w1, es, u, l);
    StartHoldsLive(After(w1, es), u, l);
  }

  lemma StartHoldsLive(w: World, u: string, l: string)
    requires Inv(w) && Enabled(w, Start(u)) && LiveNow(w, u, l)
    requires w.hooks[u].view.grants == Published(w)
    ensures Holds(Next(w, Start(u)), u, l)
  {
    StartOwn(w, u, l);
    StartLookups(w, u, u, l);
    assert Known(w, u, l, Mine(w, u, l));
  }

  /** The protocol's step when a hook's function ends: what an unknown or failed hook has in memory is dropped. */
  function Ending(u: string, known: bool, outcome: Outcome): Event {
    if known && Succeeds(outcome) then Publish(u) else Fail(u)
  }

  /**
   An unknown hook, and one that raises or exits with any code but 0, publishes nothing, and its unit keeps what it
   is granted; no other hook ends like that.
   */
  lemma FailedHookPublishesNothing(w: World, u: string, known: bool, outcome: Outcome, l: string)
    requires Inv(w) && InPhase(w, u, Running) && u in w.hooks[u].view.requests
    ensures Enabled(w, Ending(u, known, outcome))
    ensures var w2 := Next(w, Ending(u, known, outcome));
            var failed := !known || outcome == Raises || (outcome.Exits? && outcome.code != None && outcome.code != Some(0));
            && (failed <==> u !in w2.hooks)
            && (failed ==> w2 == w.(hooks := w.hooks - {u}))
            && (failed && LiveNow(w, u, l) ==> LiveNow(w2, u, l))
            && (!failed ==> InPhase(w2, u, Closing) && w2.hooks[u].view == Release(w.hooks[u].view, u))
  {
    hide Inv, Release, LiveNow;
    if LiveNow(w, u, l) {
      LiveGrantSurvives(w, Ending(u, known, outcome), u, l);
    }
  }

  /** A leader's hook in flight knows nothing of the departed unit. */
  ghost predicate Unaware(w: World, k: string, u: string) {
    u !in w.members && (k in w.hooks ==> u !in w.hooks[k].todo && Row(w.hooks[k].view.requests, u) == map[])
  }

  lemma UnawareStep(w: World, e: Event, k: string, u: string)
    requires Inv(w) && Enabled(w, e) && Unaware(w, k, u) && k != u && e != Join(u)
    ensures Unaware(Next(w, e), k, u)
  {
    hide AllKnown, AllExclusive, Fenced, LocalUnseen, HookOk;
    if Actor(e) == Some(k) && e.Ask? {
      forall l
        ensures Get(Next(w, e).hooks[k].view.requests, u, l) == None
      {
        assert Get(w.hooks[k].view.requests, u, l) == None;
        AskLookups(w, e, u, l);
      }
      RowByLookup(Next(w, e).hooks[k].view.requests, map[], u);
    }
  }

  lemma {:induction false} UnawareRun(w: World, es: seq<Event>, k: string, u: string)
    requires Inv(w) && Possible(w, es) && Unaware(w, k, u) && k != u && Join(u) !in es
    ensures Inv(After(w, es)) && Unaware(After(w, es), k, u)
    decreases |es|
  {
    hide Inv, Unaware, Next, Enabled;
    if es != [] {
      StepInv(w, es[0]);
      assert es[0] in es;
      UnawareStep(w, es[0], k, u);
      assert forall x :: x in es[1..] ==> x in es;
      UnawareRun(Next(w, es[0]), es[1..], k, u);
    }
  }

  /**
   No lock is lost to a departure: in the next leader hook to begin after the unit has gone, its grants are
   cleared, and a lock it held goes to the head of the queue the leader has read.
   */
  lemma DepartedUnitLosesLocks(w: World, es: seq<Event>, k: string, u: string, l: string)
    requires Inv(w) && Possible(w, es) && u !in w.members && Join(u) !in es && k != u && k !in w.hooks
    requires Enabled(After(w, es), Start(k)) && Leads(After(w, es), k)
    ensures var atLoad := After(w, es);
            var view := Next(atLoad, Start(k)).hooks[k].view;
            && Get(view.grants, u, l) == None
            && (Get(Published(atLoad), u, l).Some? ==>
                  (forall v :: Get(view.grants, v, l).Some? <==> Heads(view.requests, v, l))
                  && (Taken(view.grants, l) <==> Taken(view.requests, l)))
  {
    hide AllKnown, AllExclusive, Fenced, LocalUnseen;
    UnawareRun(w, es, k, u);
    HandleAfterDeparture(After(w, es), k, u, l);
  }

  lemma HandleAfterDeparture(w: World, k: string, u: string, l: string)
    requires Inv(w) && Unaware(w, k, u) && k != u
    requires Enabled(w, Start(k)) && Leads(w, k)
    ensures var view := Next(w, Start(k)).hooks[k].view;
            && Get(view.grants, u, l) == None
            && (Get(Published(w), u, l).Some? ==>
                  (forall v :: Get(view.grants, v, l).Some? <==> Heads(view.requests, v, l))
                  && (Taken(view.grants, l) <==> Taken(view.requests, l)))
  {
    hide AllKnown, Fenced, LocalUnseen;
    assert HookOk(w, k);
    var g, r := w.hooks[k].view.grants, Next(w, Start(k)).hooks[k].view.requests;
    assert Get(r, u, l) == None;
    HandleDecides(g, r, u, l);
    HandleServes(g, r, l);
    if Get(Published(w), u, l).Some? {
      assert Exclusive(g);
      assert forall v :: !Live(g, r, v, l);
      forall v
        ensures Get(Handled(g, r), v, l).Some? <==> Heads(r, v, l)
      {
        HandleDecides(g, r, v, l);
      }
    }
  }
}
