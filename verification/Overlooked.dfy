/**
 When a leader's load is harmful: exactly when a unit with a live grant is not listed to it. The leader then
 takes the grant for released and gives the lock away.
 */
module Overlooked {
  import opened Coordination
  import opened Paths
  import opened Protocol
  import opened Wrappers

  /** The hook of a leader has begun with these units listed to it, whoever they are. */
  function Begun(w: World, u: string, listed: set<string>): World {
    WithHook(w, u, Hook(Loading, u in w.joined, listed, View(Published(w), map[])))
  }

  /** One leader's hook in flight, which has heard of no unit but its own; `v` has a live grant and no hook. */
  predicate Alone(w: World, u: string, v: string, l: string) {
    && w.hooks.Keys == {u} && u != v && w.leader == Some(u) && w.history != []
    && u in w.members && v in w.members && v in w.joined && v in w.peer
    && LiveNow(w, v, l) && Mine(w, v, l) != Some("") && Mine(w, u, l) != Some("")
    && w.hooks[u].view.grants == Published(w)
  }

  lemma OneDeparts(w: World, u: string, v: string, l: string, k: string)
    requires Alone(w, u, v, l) && k in w.members && k != u && k != v
    ensures Enabled(w, Depart(k))
    ensures var next := Next(w, Depart(k));
            && Alone(next, u, v, l) && next.hooks == w.hooks && next.used == w.used
            && w.members == next.members + {k} && k !in next.members && k !in next.peer
            && next.peer.Keys <= w.peer.Keys && (u in next.peer <==> u in w.peer)
            && Row(next.peer, u) == Row(w.peer, u) && Row(next.local, u) == Row(w.local, u)
            && (forall x :: x in w.peer && x in next.members ==> x in next.peer)
  {
  }

  /** Every unit but the two may depart. */
  lemma {:induction false} OthersDepart(w0: World, before: seq<Event>, w: World, u: string, v: string, l: string)
    returns (es: seq<Event>, next: World)
    requires Path(w0, before, w) && Alone(w, u, v, l) && w.peer.Keys <= w.members
    ensures Path(w0, es, next) && Alone(next, u, v, l) && next.hooks == w.hooks && next.used == w.used
    ensures next.peer.Keys <= {u, v} && (u in next.peer <==> u in w.peer)
    ensures Row(next.peer, u) == Row(w.peer, u) && Row(next.local, u) == Row(w.local, u)
    decreases |w.members|
  {
    hide Path, Next, Enabled, Alone, Row;
    if k :| k in w.members && k != u && k != v {
      OneDeparts(w, u, v, l, k);
      var at := Next(w, Depart(k));
      es := Step(w0, before, w, Depart(k), at);
      es, next := OthersDepart(w0, es, at, u, v, l);
    } else {
      es, next := before, w;
    }
  }

  /** The hook has what its unit has published, and nobody else's requests. */
  predicate HearsItself(w: World, u: string)
    requires u in w.hooks
  {
    var h := w.hooks[u];
    && h.phase == Loading && h.view.requests.Keys <= {u}
    && (u in h.view.requests ==> u in w.peer && h.view.requests[u] == w.peer[u])
    && (u in w.peer ==> u in h.todo || u in h.view.requests)
    && (forall x :: x in h.todo && x in w.peer ==> x == u)
  }

  lemma OneRead(w: World, u: string, v: string, l: string, x: string)
    requires Alone(w, u, v, l) && HearsItself(w, u) && x in w.hooks[u].todo
    ensures Enabled(w, Read(u, x))
    ensures var next := Next(w, Read(u, x));
            && Alone(next, u, v, l) && HearsItself(next, u) && next == w.(hooks := next.hooks)
            && next.hooks[u].todo == w.hooks[u].todo - {x}
  {
  }

  /** The leader reads whom it has listed. */
  lemma {:induction false} ReadsRest(w0: World, before: seq<Event>, w: World, u: string, v: string, l: string)
    returns (es: seq<Event>, next: World)
    requires Path(w0, before, w) && Alone(w, u, v, l) && HearsItself(w, u)
    ensures Path(w0, es, next) && Alone(next, u, v, l) && HearsItself(next, u)
    ensures next.hooks[u].todo == {} && next == w.(hooks := next.hooks)
    decreases |w.hooks[u].todo|
  {
    assert u in w.hooks;
    if w.hooks[u].todo == {} {
      es, next := before, w;
    } else {
      var x :| x in w.hooks[u].todo;
      OneRead(w, u, v, l, x);
      var at := Next(w, Read(u, x));
      assert u in at.hooks && |at.hooks[u].todo| < |w.hooks[u].todo|;
      hide Path, Next, Enabled, Alone, HearsItself;
      es := Step(w0, before, w, Read(u, x), at);
      es, next := ReadsRest(w0, es, at, u, v, l);
    }
  }

  /** A leader's view in which nobody else asks for anything, and every grant is its own. */
  ghost predicate Sole(view: View, u: string, l: string) {
    view.requests.Keys == {u} && Settled(view) && Get(view.requests, u, l) != Some("")
  }

  /** Then it has the lock as soon as it asks for it. */
  lemma SoleTakes(view: View, u: string, l: string, t: string)
    requires Sole(view, u, l) && t != ""
    ensures Granted(Acquire(view, u, true, l, t), u, l)
  {
    var q := Request(view, u, l, t);
    RequestLookups(view, u, l, t, u, l);
    assert forall x :: x != u ==> Get(q.requests, x, l) == None;
    if !Granted(q, u, l) {
      assert Get(q.grants, u, l).Some? ==> Get(view.requests, u, l) == Get(q.grants, u, l);
      assert forall x :: x in q.grants && l in q.grants[x] ==> Get(view.requests, x, l) == Get(q.grants, x, l);
      assert forall x :: x in q.requests && l in q.requests[x] ==> Get(q.requests, x, l).Some?;
      assert Wins(q.grants, q.requests, u, l);
      GrantDecides(q.grants, q.requests, l, u, u, l);
    }
  }

  lemma StartsSole(w: World, u: string, v: string, l: string)
    requires Alone(w, u, v, l) && HearsItself(w, u) && w.hooks[u].todo == {}
    ensures Enabled(w, Start(u))
    ensures var next := Next(w, Start(u));
            && InPhase(next, u, Running) && Sole(next.hooks[u].view, u, l) && next == w.(hooks := next.hooks)
            && next.hooks.Keys == {u}
  {
    hide Handled;
    HandleSettles(w.hooks[u].view.grants, Next(w, Start(u)).hooks[u].view.requests);
  }

  lemma AsksSole(w: World, u: string, l: string, t: string)
    requires InPhase(w, u, Running) && Leads(w, u) && Sole(w.hooks[u].view, u, l)
    requires t != "" && forall x :: x in w.used ==> x.ts != t
    ensures Enabled(w, Ask(u, l, t))
    ensures var next := Next(w, Ask(u, l, t));
            && Holds(next, u, l) && next == w.(hooks := next.hooks, used := next.used) && next.hooks.Keys == w.hooks.Keys
  {
    hide Acquire, Granted, Settled;
    SoleTakes(w.hooks[u].view, u, l, t);
  }

  /** The leader starts and takes the lock, without publishing anything. */
  lemma LeaderTakes(w0: World, before: seq<Event>, w: World, u: string, v: string, l: string)
    returns (es: seq<Event>, next: World)
    requires Path(w0, before, w) && Alone(w, u, v, l) && HearsItself(w, u) && w.hooks[u].todo == {}
    ensures Path(w0, es, next) && Holds(next, u, l) && next.hooks.Keys == {u}
    ensures next == w.(hooks := next.hooks, used := next.used)
  {
    hide Path, HearsItself, Sole, Holds;
    StartsSole(w, u, v, l);
    var w1 := Next(w, Start(u));
    var t := UnusedTime(w1.used);
    es := Step(w0, before, w, Start(u), w1);
    AsksSole(w1, u, l, t);
    next := Next(w1, Ask(u, l, t));
    es := Step(w0, es, w1, Ask(u, l, t), next);
    hide Next, Enabled;
  }

  /** A unit's hook that has loaded current grants and its own requests, and does not lead. */
  lemma HolderStarts(w: World, v: string, l: string)
    requires v in w.hooks && w.hooks[v] == Hook(Loading, true, {}, View(Published(w), map[v := Row(w.peer, v)]))
    requires !Leads(w, v) && v in w.peer && LiveNow(w, v, l) && Mine(w, v, l) != Some("")
    ensures Enabled(w, Start(v)) && Holds(Next(w, Start(v)), v, l)
    ensures Next(w, Start(v)) == WithHook(w, v, Next(w, Start(v)).hooks[v])
  {
    assert Next(w, Start(v)).hooks[v].view == View(Published(w), map[v := Row(w.peer, v)]);
  }

  lemma HolderReads(w: World, v: string)
    requires v !in w.hooks && !Leads(w, v) && w.history != [] && v in w.members && v in w.joined && v in w.peer
    ensures var begin := Begin(v, |w.history| - 1, {v});
            && Enabled(w, begin) && Enabled(Next(w, begin), Read(v, v))
            && Next(Next(w, begin), Read(v, v)) ==
                 WithHook(w, v, Hook(Loading, true, {}, View(Published(w), map[v := Row(w.peer, v)])))
  {
    var w1 := Next(w, Begin(v, |w.history| - 1, {v}));
    assert w1.hooks[v] == Hook(Loading, true, {v}, View(Published(w), map[]));
    assert {v} - {v} == {};
  }

  /** The overlooked unit's hook loads the grant that is still published. */
  lemma HolderHolds(w0: World, before: seq<Event>, w: World, v: string, l: string)
    returns (es: seq<Event>, next: World)
    requires Path(w0, before, w) && v !in w.hooks && !Leads(w, v) && w.history != []
    requires v in w.members && v in w.joined && v in w.peer && LiveNow(w, v, l) && Mine(w, v, l) != Some("")
    ensures Path(w0, es, next) && Holds(next, v, l) && next == WithHook(w, v, next.hooks[v])
  {
    hide Path, Next, Enabled, Holds;
    HolderReads(w, v);
    var begin := Begin(v, |w.history| - 1, {v});
    var w1 := Next(w, begin);
    var w2 := Next(w1, Read(v, v));
    es := Step(w0, before, w, begin, w1);
    es := Step(w0, es, w1, Read(v, v), w2);
    assert LiveNow(w2, v, l) && Mine(w2, v, l) == Mine(w, v, l);
    HolderStarts(w2, v, l);
    next := Next(w2, Start(v));
    es := Step(w0, es, w2, Start(v), next);
  }

  /** A leader's hook with the overlooked unit, once no other hook is in flight. */
  lemma LoadLosesExclusion(w0: World, before: seq<Event>, w: World, u: string, v: string, l: string)
    requires Path(w0, before, w) && Alone(w, u, v, l) && w.peer.Keys <= w.members
    requires w.hooks[u] == Hook(Loading, u in w.joined, w.hooks[u].todo, View(Published(w), map[]))
    requires v !in w.hooks[u].todo && (u in w.peer ==> u in w.hooks[u].todo)
    ensures ExclusionLost(w0)
  {
    hide Path;
    var es, left := OthersDepart(w0, before, w, u, v, l);
    assert u in left.hooks && HearsItself(left, u);
    var loaded;
    es, loaded := ReadsRest(w0, es, left, u, v, l);
    var taken;
    es, taken := LeaderTakes(w0, es, loaded, u, v, l);
    hide HearsItself;
    assert LiveNow(taken, v, l) && Mine(taken, v, l) == Mine(loaded, v, l);
    var both;
    es, both := HolderHolds(w0, es, taken, v, l);
    assert Holds(both, u, l) && Holds(both, v, l);
  }

  lemma OverlookedIsOther(w: World, u: string, listed: set<string>, v: string, l: string)
    requires Inv(w) && Leads(w, u) && CanBegin(w, u, listed) && v !in listed && LiveNow(w, v, l)
    ensures v != u && v in w.peer
  {
    LiveIsOnPeer(w, v, l);
  }

  lemma BegunCalm(w: World, u: string, listed: set<string>)
    requires Inv(w) && Leads(w, u)
    ensures forall k :: k in w.hooks && k != u ==> !Stranded(Begun(w, u, listed), k)
  {
    var w0 := Begun(w, u, listed);
    forall k | k in w.hooks && k != u
      ensures !Stranded(w0, k)
    {
      assert forall m :: LiveNow(w0, k, m) <==> LiveNow(w, k, m);
      assert Stranded(w0, k) <==> Stranded(w, k);
      if Stranded(w, k) {
        StrandedLeads(w, k);
      }
    }
  }

  lemma BegunAlone(w: World, u: string, listed: set<string>, v: string, l: string)
    requires Shape(w) && Leads(w, u) && CanBegin(w, u, listed) && v != u && v in w.peer && LiveNow(w, v, l)
    requires Mine(w, v, l) != Some("") && Mine(w, u, l) != Some("")
    ensures Alone(OnlyHook(Begun(w, u, listed), u), u, v, l)
  {
    var alone := OnlyHook(Begun(w, u, listed), u);
    assert Published(alone) == Published(w) && Mine(alone, v, l) == Mine(w, v, l) && Mine(alone, u, l) == Mine(w, u, l);
  }

  lemma OverlookingLosesExclusion(w: World, u: string, listed: set<string>)
    requires Inv(w) && Leads(w, u) && CanBegin(w, u, listed) && Overlooks(w, listed)
    ensures ExclusionLost(Begun(w, u, listed))
  {
    hide AllKnown, AllExclusive, Fenced, LocalUnseen, HookOk;
    var v, l :| v in w.members && v !in listed && l in Row(Published(w), v) && LiveNow(w, v, l);
    var w0 := Begun(w, u, listed);
    OverlookedIsOther(w, u, listed, v, l);
    SavedIsNoEmptyText(w, v, l);
    SavedIsNoEmptyText(w, u, l);
    BegunCalm(w, u, listed);
    BegunAlone(w, u, listed, v, l);
    hide LiveNow, Mine, Alone, Stranded, Overlooks;
    assert Path(w0, [], w0);
    hide Path;
    var es := EndOthers(w0, [], w0, u);
    LoadLosesExclusion(w0, es, OnlyHook(w0, u), u, v, l);
  }

  lemma SavedIsNoEmptyText(w: World, u: string, l: string)
    requires Inv(w)
    ensures Mine(w, u, l) != Some("")
  {
    assert Known(w, u, l, Mine(w, u, l));
  }

  /**
   The exact condition: from every state that the invariant holds of, a leader's hook that begins with current
   grants can lead to two holders of a lock if and only if a unit with a live grant is not listed to it.
   */
  lemma LoadIsHarmfulExactlyWhenOverlooking(w: World, u: string, listed: set<string>)
    requires Inv(w) && Leads(w, u) && CanBegin(w, u, listed)
    ensures ExclusionLost(Begun(w, u, listed)) <==> Overlooks(w, listed)
  {
    if Overlooks(w, listed) {
      OverlookingLosesExclusion(w, u, listed);
    } else {
      var begin := Begin(u, |w.history| - 1, listed);
      assert Next(w, begin) == Begun(w, u, listed);
      StepInv(w, begin);
      InvIsSafe(Begun(w, u, listed));
    }
  }
}
