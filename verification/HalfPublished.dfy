/**
 When a hook that fails is harmful: exactly when its unit has published a grant and not yet, in its first write
 to the peer relation, the end of the request that it answers, which is still in the unit's own file.
 */
module HalfPublished {
  import opened Coordination
  import opened Paths
  import opened Protocol
  import opened Wrappers

  /** The hook is gone; what it wrote to leader settings is not. */
  function Dropped(w: World, u: string): World {
    w.(hooks := w.hooks - {u})
  }

  function One(u: string, l: string, ts: string): Table {
    map[u := map[l := ts]]
  }

  function Nothing(u: string): Table {
    map[u := map[]]
  }

  /** Two units, neither of which has published a request yet. */
  function Two(a: string, b: string): World {
    World({a, b}, {}, None, [map[]], map[], map[], {}, map[])
  }

  /** One of them has asked for the lock before it saw the peer relation, and now leads. */
  function Asked(a: string, b: string, l: string, t: string): World {
    World({a, b}, {a, b}, Some(a), [map[]], map[], One(a, l, t), {Token(a, l, t)}, map[])
  }

  /** It has granted itself the lock, released it and written leader settings, but not its requests. */
  function Half(a: string, b: string, l: string, t: string): World {
    Asked(a, b, l, t).(history := [map[], One(a, l, t)],
                       hooks := map[a := Hook(Closing, true, {}, View(One(a, l, t), Nothing(a)))])
  }

  lemma HandleOne(a: string, l: string, t: string)
    ensures Handled(map[], One(a, l, t)) == One(a, l, t)
  {
    var r := One(a, l, t);
    var k: Table := map[];
    assert Kept(map[], r) == k;
    assert Wins(k, r, a, l);
    var row := HandledRow(k, r, a);
    assert l in row && row == r[a];
    assert Handled(map[], r).Keys == {a};
  }

  lemma AskedInHook(a: string, b: string, l: string, t: string) returns (es: seq<Event>, w: World)
    requires a != b && t != ""
    ensures Path(Two(a, b), es, w) && InPhase(w, a, Running) && !w.hooks[a].relid && w.hooks.Keys == {a}
    ensures a in w.hooks[a].view.requests && w.hooks[a].view.requests[a] == map[l := t]
    ensures w.hooks[a].view.grants == map[]
    ensures w == Two(a, b).(used := {Token(a, l, t)}, hooks := w.hooks)
  {
    var w0 := Two(a, b);
    var w1 := Next(w0, Begin(a, 0, {}));
    var w2 := Next(w1, Start(a));
    assert w2.hooks[a].view == View(map[], Nothing(a));
    w := Next(w2, Ask(a, l, t));
    es := Step(w0, [], w0, Begin(a, 0, {}), w1);
    es := Step(w0, es, w1, Start(a), w2);
    es := Step(w0, es, w2, Ask(a, l, t), w);
  }

  lemma SavedInFile(a: string, b: string, l: string, t: string) returns (es: seq<Event>)
    requires a != b && t != ""
    ensures Path(Two(a, b), es, Two(a, b).(local := One(a, l, t), used := {Token(a, l, t)}))
  {
    var w := Two(a, b);
    var w3;
    es, w3 := AskedInHook(a, b, l, t);
    hide Path;
    var w4 := Next(w3, Publish(a));
    assert w4.hooks[a].view.requests[a] == map[l := t];
    var w5 := Next(w4, Commit(a));
    assert w5 == w.(local := One(a, l, t), used := {Token(a, l, t)});
    es := Step(w, es, w3, Publish(a), w4);
    es := Step(w, es, w4, Commit(a), w5);
  }

  lemma AskedEarly(a: string, b: string, l: string, t: string) returns (es: seq<Event>)
    requires a != b && t != ""
    ensures Path(Two(a, b), es, Asked(a, b, l, t))
  {
    var w := Two(a, b);
    es := SavedInFile(a, b, l, t);
    hide Path;
    var w5 := w.(local := One(a, l, t), used := {Token(a, l, t)});
    var w6 := Next(w5, SeeRelation(a));
    var w7 := Next(w6, SeeRelation(b));
    es := Step(w, es, w5, SeeRelation(a), w6);
    es := Step(w, es, w6, SeeRelation(b), w7);
    es := Step(w, es, w7, Elect(Some(a)), Asked(a, b, l, t));
  }

  /** A unit's hook starts and reads the peer relation, on which nothing has been published. */
  lemma LoadsNothing(w0: World, before: seq<Event>, w: World, u: string, a: string, b: string, age: nat)
    returns (es: seq<Event>, next: World)
    requires Path(w0, before, w) && a != b && (u == a || u == b) && u !in w.hooks
    requires w.members == {a, b} && w.joined == {a, b} && w.peer == map[]
    requires age < |w.history| && (Leads(w, u) ==> age == |w.history| - 1)
    ensures Path(w0, es, next)
    ensures next == WithHook(w, u, Hook(Loading, true, {}, View(w.history[age], map[])))
  {
    hide Path;
    var w1 := Next(w, Begin(u, age, {a, b}));
    assert w1.hooks[u].todo == {a, b};
    var w2 := Next(w1, Read(u, a));
    next := Next(w2, Read(u, b));
    assert next.hooks[u].todo == {};
    es := Step(w0, before, w, Begin(u, age, {a, b}), w1);
    es := Step(w0, es, w1, Read(u, a), w2);
    es := Step(w0, es, w2, Read(u, b), next);
  }

  lemma HalfWay(a: string, b: string, l: string, t: string, before: seq<Event>) returns (es: seq<Event>)
    requires a != b && t != "" && Path(Two(a, b), before, Asked(a, b, l, t))
    ensures Path(Two(a, b), es, Half(a, b, l, t))
  {
    var w, w0 := Two(a, b), Asked(a, b, l, t);
    var w3;
    es, w3 := LoadsNothing(w, before, w0, a, a, b, 0);
    hide Path;
    var w4 := Next(w3, Start(a));
    HandleOne(a, l, t);
    assert w4.hooks[a].view == View(One(a, l, t), One(a, l, t));
    assert Release(w4.hooks[a].view, a).requests == Nothing(a);
    es := Step(w, es, w3, Start(a), w4);
    es := Step(w, es, w4, Publish(a), Half(a, b, l, t));
  }

  // ----- from any stranded unit to two holders -----

  /** No hook is in flight; the leader `u` has published no request. */
  predicate Quiet(w: World, u: string) {
    w.hooks == map[] && w.leader == Some(u) && u in w.members && u !in w.peer &&
    w.joined <= w.members && w.peer.Keys <= w.members && w.local.Keys <= w.members
  }

  lemma OneDeparts(w: World, u: string, k: string)
    requires Quiet(w, u) && k in w.members && k != u
    ensures Enabled(w, Depart(k))
    ensures var next := Next(w, Depart(k));
            && Quiet(next, u) && w.members == next.members + {k} && k !in next.members
            && Row(next.local, u) == Row(w.local, u) && next.history == w.history && next.used == w.used
  {
  }

  /** Every other unit may depart. */
  lemma {:induction false} DepartOthers(w0: World, before: seq<Event>, w: World, u: string)
    returns (es: seq<Event>, alone: World)
    requires Path(w0, before, w) && Quiet(w, u)
    ensures Path(w0, es, alone) && Quiet(alone, u) && alone.members == {u}
    ensures Row(alone.local, u) == Row(w.local, u) && alone.history == w.history && alone.used == w.used
    decreases |w.members|
  {
    hide Path, Next, Enabled, Row;
    if k :| k in w.members && k != u {
      OneDeparts(w, u, k);
      var next := Next(w, Depart(k));
      es := Step(w0, before, w, Depart(k), next);
      es, alone := DepartOthers(w0, es, next, u);
    } else {
      es, alone := before, w;
    }
  }

  /** Another unit joins, both see the relation, and the other one leads. */
  lemma OtherJoins(w0: World, before: seq<Event>, w: World, u: string, b: string) returns (es: seq<Event>, next: World)
    requires Path(w0, before, w) && Quiet(w, u) && w.members == {u} && b != u
    ensures Path(w0, es, next)
    ensures next == w.(members := {u, b}, joined := {u, b}, leader := Some(b))
  {
    hide Path;
    var w1 := Next(w, Join(b));
    var w2 := Next(w1, SeeRelation(u));
    var w3 := Next(w2, SeeRelation(b));
    next := Next(w3, Elect(Some(b)));
    assert next.members == {u, b} && next.joined == {u, b};
    es := Step(w0, before, w, Join(b), w1);
    es := Step(w0, es, w1, SeeRelation(u), w2);
    es := Step(w0, es, w2, SeeRelation(b), w3);
    es := Step(w0, es, w3, Elect(Some(b)), next);
  }

  /** Two units with a relation on which nothing is published, led by the one without any request. */
  predicate Empty(w: World, u: string, b: string) {
    u != b && w.members == {u, b} && w.joined == {u, b} && w.peer == map[] && w.leader == Some(b) &&
    w.history != [] && Row(w.local, b) == map[]
  }

  /** The leader's hook sees no request and drops every grant. */
  lemma OtherStarts(w0: World, before: seq<Event>, w: World, u: string, b: string)
    returns (es: seq<Event>, next: World)
    requires Path(w0, before, w) && Empty(w, u, b) && w.hooks == map[]
    ensures Path(w0, es, next) && InPhase(next, b, Running) && next.hooks.Keys == {b}
    ensures next == w.(hooks := next.hooks)
    ensures next.hooks[b].view == View(Handled(Published(w), Nothing(b)), Nothing(b))
  {
    var w1;
    es, w1 := LoadsNothing(w0, before, w, b, u, b, |w.history| - 1);
    hide Path, Handled;
    next := Next(w1, Start(b));
    es := Step(w0, es, w1, Start(b), next);
  }

  /** It takes the lock. */
  lemma OtherTakes(w0: World, before: seq<Event>, w: World, u: string, b: string, l: string, t: string)
    returns (es: seq<Event>, next: World)
    requires Path(w0, before, w) && Empty(w, u, b) && w.hooks == map[] && t != "" && Token(b, l, t) !in w.used
    ensures Path(w0, es, next) && Holds(next, b, l) && next.hooks.Keys == {b}
    ensures next == w.(used := next.used, hooks := next.hooks)
  {
    var w2;
    es, w2 := OtherStarts(w0, before, w, u, b);
    hide Path, Handled, Acquire;
    var v := w2.hooks[b].view;
    GrantsOnlyRequests(Published(w), b);
    next := Next(w2, Ask(b, l, t));
    EmptyGrants(v, b, l, t);
    es := Step(w0, es, w2, Ask(b, l, t), next);
  }

  lemma GrantsOnlyRequests(g: Table, b: string)
    ensures forall u, k :: Get(Handled(g, Nothing(b)), u, k) == None
  {
    forall u, k
      ensures Get(Handled(g, Nothing(b)), u, k) == None
    {
      HandleDecides(g, Nothing(b), u, k);
    }
  }

  /** A leader that sees neither grants nor requests grants itself what it asks for. */
  lemma EmptyGrants(v: View, b: string, l: string, t: string)
    requires v.requests == Nothing(b) && t != "" && forall u, k :: Get(v.grants, u, k) == None
    ensures Granted(Acquire(v, b, true, l, t), b, l)
  {
    var q := Request(v, b, l, t);
    RequestLookups(v, b, l, t, b, l);
    assert forall u :: u != b ==> Get(q.requests, u, l) == None;
    assert Wins(q.grants, q.requests, b, l) by {
      assert forall u :: u in q.grants && l in q.grants[u] ==> Get(q.grants, u, l).Some?;
      assert forall u :: u in q.requests && l in q.requests[u] ==> Get(q.requests, u, l).Some?;
    }
    GrantDecides(q.grants, q.requests, l, b, b, l);
  }

  /** The other unit's hook loads the grant and finds its request in its file. */
  lemma StrandedTakes(w0: World, before: seq<Event>, w: World, u: string, b: string, l: string)
    returns (es: seq<Event>, next: World)
    requires Path(w0, before, w) && Empty(w, u, b) && u !in w.hooks
    requires l in Row(w.local, u) && LiveNow(w, u, l) && Mine(w, u, l) != Some("")
    ensures Path(w0, es, next) && Holds(next, u, l)
    ensures next.hooks == w.hooks[u := next.hooks[u]]
  {
    var w1;
    es, w1 := LoadsNothing(w0, before, w, u, u, b, |w.history| - 1);
    hide Path;
    next := Next(w1, Start(u));
    assert next.hooks[u].view == View(Published(w), map[u := Row(w.local, u)]);
    es := Step(w0, es, w1, Start(u), next);
  }

  lemma OnlyOneStranded(w: World, u: string, k: string)
    requires Inv(w) && Stranded(w, u) && Stranded(w, k)
    ensures u == k
  {
    StrandedLeads(w, u);
    StrandedLeads(w, k);
  }

  lemma DroppedStranded(w: World, u: string, k: string)
    ensures Stranded(Dropped(w, u), k) <==> k != u && Stranded(w, k)
  {
    assert forall l :: LiveNow(Dropped(w, u), k, l) <==> LiveNow(w, k, l);
  }

  lemma DroppedQuiet(w: World, u: string)
    requires Shape(w) && Stranded(w, u) && Leads(w, u)
    ensures Quiet(Dropped(w, u).(hooks := map[]), u)
  {
  }

  lemma StrandedLosesExclusion(w: World, u: string)
    requires Inv(w) && Stranded(w, u)
    ensures ExclusionLost(Dropped(w, u))
  {
    var w0 := Dropped(w, u);
    var l :| l in Row(w.local, u) && LiveNow(w, u, l);
    HookKnows(w, u, u, l);
    HookIsOk(w, u);
    hide Inv, Stranded, Shape;
    StrandedLeads(w, u);
    DroppedQuiet(w, u);
    forall k | k in w0.hooks
      ensures !Stranded(w0, k)
    {
      DroppedStranded(w, u, k);
      if Stranded(w, k) {
        OnlyOneStranded(w, u, k);
      }
    }
    assert Path(w0, [], w0);
    hide Path, HookOk;
    var es := EndOthers(w0, [], w0, u);
    var alone;
    es, alone := DepartOthers(w0, es, w0.(hooks := map[]), u);
    TwoHolders(w0, es, alone, u, l);
  }

  lemma TwoHolders(w0: World, before: seq<Event>, alone: World, u: string, l: string)
    requires Path(w0, before, alone) && Quiet(alone, u) && alone.members == {u} && alone.history != []
    requires l in Row(alone.local, u) && LiveNow(alone, u, l) && Mine(alone, u, l) != Some("")
    ensures ExclusionLost(w0)
  {
    hide Path, Next, Enabled;
    var b := u + "'";
    var es, ready := OtherJoins(w0, before, alone, u, b);
    var t := UnusedTime(alone.used);
    var taken, both;
    es, taken := OtherTakes(w0, es, ready, u, b, l, t);
    es, both := StrandedTakes(w0, es, taken, u, b, l);
    assert Holds(both, b, l) && Holds(both, u, l);
  }

  /**
   The exact condition: for every state that the invariant holds of, so for every reachable one, dropping a hook
   at any point can lead to two holders of a lock if and only if the hook's unit is stranded.
   */
  lemma FailureIsHarmfulExactlyWhenStranded(w: World, u: string)
    requires Inv(w) && u in w.hooks
    ensures ExclusionLost(Dropped(w, u)) <==> Stranded(w, u)
  {
    if Stranded(w, u) {
      StrandedLosesExclusion(w, u);
    } else {
      StepInv(w, Fail(u));
      InvIsSafe(Dropped(w, u));
    }
  }

  /** And it does happen: from an initial state a run leads to a stranded unit, for any two units, lock and time. */
  lemma StrandedIsReachable(a: string, b: string, l: string, t: string) returns (es: seq<Event>, w: World)
    requires a != b && t != ""
    ensures IsInit(Two(a, b)) && Path(Two(a, b), es, w)
    ensures Stranded(w, a) && ExclusionLost(Dropped(w, a))
  {
    es := AskedEarly(a, b, l, t);
    es := HalfWay(a, b, l, t, es);
    w := Half(a, b, l, t);
    assert l in Row(w.local, a) && LiveNow(w, a, l);
    InitInv(Two(a, b));
    RunInv(Two(a, b), es);
    StrandedLosesExclusion(w, a);
  }
}
