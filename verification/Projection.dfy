/** Locks are independent: every run, seen through one lock, is a run of the protocol with that lock alone. */
module Projection {
  import opened Coordination
  import opened Protocol
  import opened Wrappers

  /** Two tables that say the same about lock `k`. */
  ghost predicate Agree(a: Table, b: Table, k: string) {
    forall u :: Get(a, u, k) == Get(b, u, k)
  }

  lemma AgreeTaken(a: Table, b: Table, k: string)
    requires Agree(a, b, k)
    ensures Taken(a, k) <==> Taken(b, k)
  {
    if u :| u in a && k in a[u] {
      assert Get(b, u, k).Some?;
    }
    if u :| u in b && k in b[u] {
      assert Get(a, u, k).Some?;
    }
  }

  lemma AgreeHandled(g: Table, h: Table, r: Table, s: Table, k: string)
    requires Agree(g, h, k) && Agree(r, s, k)
    ensures Agree(Handled(g, r), Handled(h, s), k)
  {
    forall u
      ensures Get(Handled(g, r), u, k) == Get(Handled(h, s), u, k)
    {
      assert forall v :: Live(g, r, v, k) == Live(h, s, v, k);
      HandleDecides(g, r, u, k);
      HandleDecides(h, s, u, k);
      HeadsByLookup(r, s, u, k);
    }
  }

  ghost predicate AgreeView(v: View, x: View, k: string) {
    Agree(v.grants, x.grants, k) && Agree(v.requests, x.requests, k)
  }

  /** An `acquire` of lock `k` itself does the same to both views. */
  lemma AgreeAcquire(v: View, x: View, me: string, leader: bool, k: string, now: string)
    requires AgreeView(v, x, k) && me in v.requests && me in x.requests
    ensures AgreeView(Acquire(v, me, leader, k, now), Acquire(x, me, leader, k, now), k)
  {
    var p, q := Request(v, me, k, now), Request(x, me, k, now);
    assert Get(v.requests, me, k) == Get(x.requests, me, k);
    forall u
      ensures Get(p.requests, u, k) == Get(q.requests, u, k)
    {
      RequestLookups(v, me, k, now, u, k);
      RequestLookups(x, me, k, now, u, k);
      assert Get(v.requests, u, k) == Get(x.requests, u, k);
    }
    AgreeTaken(p.grants, q.grants, k);
    HeadsByLookup(p.requests, q.requests, me, k);
    forall u
      ensures Get(Grant(p.grants, p.requests, k, me), u, k) == Get(Grant(q.grants, q.requests, k, me), u, k)
    {
      GrantDecides(p.grants, p.requests, k, me, u, k);
      GrantDecides(q.grants, q.requests, k, me, u, k);
      assert Get(p.grants, u, k) == Get(q.grants, u, k);
      assert Get(p.grants, me, k) == Get(q.grants, me, k);
      assert Get(p.requests, me, k) == Get(q.requests, me, k);
    }
    assert Get(p.grants, me, k) == Get(q.grants, me, k);
  }

  /** An `acquire` of another lock changes nothing about lock `k`. */
  lemma OtherAcquire(v: View, me: string, leader: bool, l: string, k: string, now: string)
    requires l != k && me in v.requests
    ensures AgreeView(Acquire(v, me, leader, l, now), v, k)
  {
    var q := Request(v, me, l, now);
    forall u
      ensures Get(q.requests, u, k) == Get(v.requests, u, k)
      ensures Get(Grant(q.grants, q.requests, l, me), u, k) == Get(v.grants, u, k)
    {
      RequestLookups(v, me, l, now, u, k);
      GrantDecides(q.grants, q.requests, l, me, u, k);
    }
  }

  /** Two hooks at the same point that see the same of lock `k`. */
  ghost predicate FollowsHook(h: Hook, x: Hook, k: string) {
    && h.phase == x.phase && h.relid == x.relid && h.todo == x.todo
    && AgreeView(h.view, x.view, k)
    && (h.phase == Loading ==> h.view.requests.Keys == x.view.requests.Keys)
  }

  /** The world `s` tells the same story as `w` about lock `k`. */
  ghost predicate Follows(w: World, s: World, k: string) {
    && s.members == w.members && s.joined == w.joined && s.leader == w.leader
    && |s.history| == |w.history|
    && (forall i :: 0 <= i < |w.history| ==> Agree(w.history[i], s.history[i], k))
    && s.peer.Keys == w.peer.Keys && Agree(w.peer, s.peer, k) && Agree(w.local, s.local, k)
    && (forall u, ts :: Token(u, k, ts) in w.used <==> Token(u, k, ts) in s.used)
    && s.hooks.Keys == w.hooks.Keys
    && (forall u :: u in w.hooks ==> FollowsHook(w.hooks[u], s.hooks[u], k))
    && (forall u :: u in w.hooks && w.hooks[u].phase != Loading ==>
          u in w.hooks[u].view.requests && u in s.hooks[u].view.requests)
  }

  predicate Concerns(e: Event, k: string) {
    e.Ask? ==> e.lock == k
  }

  ghost predicate Only(t: Table, k: string) {
    forall u, l :: Get(t, u, l).Some? ==> l == k
  }

  /** Nobody has ever asked for a lock other than `k`. */
  ghost predicate OnlyAbout(s: World, k: string) {
    Only(s.peer, k) && Only(s.local, k) && forall u :: u in s.hooks ==> Only(s.hooks[u].view.requests, k)
  }

  lemma OnlyAsked(v: View, me: string, leader: bool, k: string, now: string)
    requires me in v.requests && Only(v.requests, k)
    ensures Only(Acquire(v, me, leader, k, now).requests, k)
  {
    forall u, l | Get(Acquire(v, me, leader, k, now).requests, u, l).Some?
      ensures l == k
    {
      RequestLookups(v, me, k, now, u, l);
    }
  }

  lemma OnlyPut(t: Table, u: string, row: Locks, k: string)
    requires Only(t, k) && forall l :: l in row ==> l == k
    ensures Only(t[u := row], k)
  {
    var t2 := t[u := row];
    forall v, l | Get(t2, v, l).Some?
      ensures l == k
    {
      assert v != u ==> Get(t, v, l) == Get(t2, v, l);
    }
  }

  lemma OnlyRow(t: Table, u: string, k: string)
    requires Only(t, k)
    ensures forall l :: l in Row(t, u) ==> l == k
  {
    forall l | l in Row(t, u)
      ensures l == k
    {
      assert Get(t, u, l).Some?;
    }
  }

  lemma OnlyAboutStep(s: World, e: Event, k: string)
    requires OnlyAbout(s, k) && Enabled(s, e) && Concerns(e, k)
    ensures OnlyAbout(Next(s, e), k)
  {
    hide Only, Acquire, Stranded, Handled, Overlooks;
    match e {
      case Begin(_, _, _) =>
        assert Only(map[], k) by { OnlyEmpty(k); }
      case Read(u, v) =>
        OnlyRow(s.peer, v, k);
        OnlyPut(s.hooks[u].view.requests, v, Row(s.peer, v), k);
      case Start(u) =>
        OnlyRow(s.local, u, k);
        OnlyPut(s.hooks[u].view.requests, u, Row(s.local, u), k);
      case Ask(u, l, now) => OnlyAsked(s.hooks[u].view, u, Leads(s, u), l, now);
      case Publish(u) =>
        OnlyRow(s.hooks[u].view.requests, u, k);
        assert Row(s.hooks[u].view.requests, u) == s.hooks[u].view.requests[u];
        OnlyPut(s.hooks[u].view.requests, u, Release(s.hooks[u].view, u).requests[u], k);
      case Commit(u) =>
        OnlyRow(s.hooks[u].view.requests, u, k);
        assert Row(s.hooks[u].view.requests, u) == s.hooks[u].view.requests[u];
        OnlyPut(s.peer, u, s.hooks[u].view.requests[u], k);
        OnlyPut(s.local, u, s.hooks[u].view.requests[u], k);
      case Depart(u) =>
        OnlyLess(s.peer, u, k);
        OnlyLess(s.local, u, k);
      case _ =>
    }
  }

  lemma OnlyEmpty(k: string)
    ensures Only(map[], k)
  {
  }

  lemma OnlyLess(t: Table, u: string, k: string)
    requires Only(t, k)
    ensures Only(t - {u}, k)
  {
    var t2 := t - {u};
    forall v, l | Get(t2, v, l).Some?
      ensures l == k
    {
      assert Get(t, v, l).Some?;
    }
  }

  lemma FollowsStranded(w: World, s: World, u: string, k: string)
    requires Follows(w, s, k) && OnlyAbout(s, k) && w.history != [] && Stranded(s, u)
    ensures Stranded(w, u)
  {
    OnlyRow(s.local, u, k);
    assert FollowsHook(w.hooks[u], s.hooks[u], k);
    assert Agree(w.history[|w.history| - 1], s.history[|w.history| - 1], k);
    assert Get(w.local, u, k) == Get(s.local, u, k);
    assert Get(Published(w), u, k) == Get(Published(s), u, k);
    assert k in Row(w.local, u) && LiveNow(w, u, k);
  }

  lemma FollowsOverlooks(w: World, s: World, listed: set<string>, k: string)
    requires Follows(w, s, k) && OnlyAbout(s, k) && w.history != [] && Overlooks(s, listed)
    ensures Overlooks(w, listed)
  {
    var v, l :| v in s.members && v !in listed && l in Row(Published(s), v) && LiveNow(s, v, l);
    assert Agree(w.history[|w.history| - 1], s.history[|w.history| - 1], k);
    assert Get(w.local, v, k) == Get(s.local, v, k) && Get(w.peer, v, k) == Get(s.peer, v, k);
    assert Get(Published(w), v, k) == Get(Published(s), v, k);
    assert l == k && k in Row(Published(w), v) && LiveNow(w, v, k);
  }

  lemma FollowsEnabled(w: World, s: World, e: Event, k: string)
    requires Follows(w, s, k) && OnlyAbout(s, k) && w.history != [] && Enabled(w, e) && Concerns(e, k)
    ensures Enabled(s, e)
  {
    hide Stranded, Overlooks;
    if e.Fail? && Stranded(s, e.unit) {
      FollowsStranded(w, s, e.unit, k);
    }
    if e.Begin? && Overlooks(s, e.listed) {
      FollowsOverlooks(w, s, e.listed, k);
    }
  }

  /** Replacing one hook keeps the story the same if the new hooks agree. */
  lemma FollowsWithHook(w: World, s: World, u: string, h: Hook, x: Hook, k: string)
    requires Follows(w, s, k) && FollowsHook(h, x, k)
    requires h.phase != Loading ==> u in h.view.requests && u in x.view.requests
    ensures Follows(WithHook(w, u, h), WithHook(s, u, x), k)
  {
  }

  lemma AgreeAnswered(r: Table, x: Table, p: Table, q: Table, v: string, k: string)
    requires Agree(r, x, k) && Agree(p, q, k) && p.Keys == q.Keys
    ensures Agree(if v in p then r[v := p[v]] else r, if v in q then x[v := q[v]] else x, k)
  {
    var a, b := if v in p then r[v := p[v]] else r, if v in q then x[v := q[v]] else x;
    forall u
      ensures Get(a, u, k) == Get(b, u, k)
    {
      assert Get(r, u, k) == Get(x, u, k) && Get(p, u, k) == Get(q, u, k);
    }
  }

  lemma FollowsRead(w: World, s: World, e: Event, k: string)
    requires Follows(w, s, k) && Enabled(w, e) && Enabled(s, e) && e.Read?
    ensures Follows(Next(w, e), Next(s, e), k)
  {
    hide Stranded, Overlooks, Release, Acquire, Started, Agree, Get;
    var h, x := w.hooks[e.unit], s.hooks[e.unit];
    assert FollowsHook(h, x, k);
    AgreeAnswered(h.view.requests, x.view.requests, w.peer, s.peer, e.from, k);
    FollowsWithHook(w, s, e.unit, Next(w, e).hooks[e.unit], Next(s, e).hooks[e.unit], k);
  }

  lemma AgreeStarted(v: View, x: View, me: string, leader: bool, own: Locks, own2: Locks, k: string)
    requires AgreeView(v, x, k) && (me in v.requests <==> me in x.requests)
    requires k in own <==> k in own2
    requires k in own ==> own[k] == own2[k]
    ensures AgreeView(Started(v, me, leader, own), Started(x, me, leader, own2), k)
  {
    hide Handled;
    var r, t := Started(v, me, leader, own).requests, Started(x, me, leader, own2).requests;
    forall u
      ensures Get(r, u, k) == Get(t, u, k)
    {
      assert Get(v.requests, u, k) == Get(x.requests, u, k);
    }
    AgreeHandled(v.grants, x.grants, r, t, k);
  }

  lemma FollowsStart(w: World, s: World, e: Event, k: string)
    requires Follows(w, s, k) && Enabled(w, e) && Enabled(s, e) && e.Start?
    ensures Follows(Next(w, e), Next(s, e), k)
  {
    hide Handled;
    var u := e.unit;
    assert FollowsHook(w.hooks[u], s.hooks[u], k);
    assert Get(w.local, u, k) == Get(s.local, u, k);
    AgreeStarted(w.hooks[u].view, s.hooks[u].view, u, Leads(w, u), Row(w.local, u), Row(s.local, u), k);
    FollowsWithHook(w, s, u, Next(w, e).hooks[u], Next(s, e).hooks[u], k);
  }

  lemma FollowsAsk(w: World, s: World, e: Event, k: string)
    requires Follows(w, s, k) && Enabled(w, e) && Enabled(s, e) && e.Ask? && e.lock == k
    ensures Follows(Next(w, e), Next(s, e), k)
  {
    hide Acquire, Stranded, Release, Started;
    var u := e.unit;
    assert FollowsHook(w.hooks[u], s.hooks[u], k);
    AgreeAcquire(w.hooks[u].view, s.hooks[u].view, u, Leads(w, u), k, e.now);
    AcquireKeepsRow(w.hooks[u].view, u, Leads(w, u), k, e.now);
    AcquireKeepsRow(s.hooks[u].view, u, Leads(w, u), k, e.now);
    FollowsWithHook(w, s, u, Next(w, e).hooks[u], Next(s, e).hooks[u], k);
  }

  lemma AcquireKeepsRow(v: View, me: string, leader: bool, l: string, now: string)
    requires me in v.requests
    ensures me in Acquire(v, me, leader, l, now).requests
  {
  }

  lemma FollowsUsed(w: World, s: World, t: Token, k: string)
    requires Follows(w, s, k) && t.lock != k
    ensures Follows(w.(used := w.used + {t}), s, k)
  {
  }

  lemma FollowsRunning(w: World, s: World, u: string, v: View, k: string)
    requires Follows(w, s, k) && InPhase(w, u, Running) && u in v.requests && AgreeView(v, w.hooks[u].view, k)
    ensures u in s.hooks && FollowsHook(w.hooks[u].(view := v), s.hooks[u], k)
    ensures Follows(WithView(w, u, v), s, k)
  {
    hide Agree;
    assert FollowsHook(w.hooks[u], s.hooks[u], k);
    AgreeThrough(v, w.hooks[u].view, s.hooks[u].view, k);
    FollowsWithHook(w, s, u, w.hooks[u].(view := v), s.hooks[u], k);
    assert WithHook(s, u, s.hooks[u]) == s;
  }

  lemma FollowsOtherAsk(w: World, s: World, e: Event, k: string)
    requires Follows(w, s, k) && Enabled(w, e) && e.Ask? && e.lock != k
    ensures Follows(Next(w, e), s, k)
  {
    hide Acquire, Follows, AgreeView, Stranded, FollowsHook;
    var u := e.unit;
    var v := w.hooks[u].view;
    var v2 := Acquire(v, u, Leads(w, u), e.lock, e.now);
    OtherAcquire(v, u, Leads(w, u), e.lock, k, e.now);
    AcquireKeepsRow(v, u, Leads(w, u), e.lock, e.now);
    FollowsRunning(w, s, u, v2, k);
    FollowsUsed(WithView(w, u, v2), s, Token(u, e.lock, e.now), k);
  }

  lemma AgreeThrough(a: View, b: View, c: View, k: string)
    requires AgreeView(a, b, k) && AgreeView(b, c, k)
    ensures AgreeView(a, c, k)
  {
    hide Get;
  }

  lemma FollowsHistory(w: World, s: World, g: Table, x: Table, k: string)
    requires Follows(w, s, k) && Agree(g, x, k)
    ensures Follows(w.(history := w.history + [g]), s.(history := s.history + [x]), k)
  {
    hide Agree, FollowsHook, Get;
  }

  lemma FollowsRelease(h: Hook, x: Hook, u: string, k: string)
    requires FollowsHook(h, x, k) && u in h.view.requests && u in x.view.requests
    requires h.phase != Loading
    ensures FollowsHook(h.(phase := Closing, view := Release(h.view, u)), x.(phase := Closing, view := Release(x.view, u)), k)
    ensures u in Release(h.view, u).requests && u in Release(x.view, u).requests
  {
    forall v
      ensures Get(Release(h.view, u).requests, v, k) == Get(Release(x.view, u).requests, v, k)
    {
      assert Get(h.view.requests, v, k) == Get(x.view.requests, v, k);
      assert Get(h.view.grants, u, k) == Get(x.view.grants, u, k);
      assert Get(h.view.requests, u, k) == Get(x.view.requests, u, k);
    }
  }

  lemma FollowsPublish(w: World, s: World, e: Event, k: string)
    requires Follows(w, s, k) && Enabled(w, e) && Enabled(s, e) && e.Publish?
    ensures Follows(Next(w, e), Next(s, e), k)
  {
    hide Agree, Get, Release;
    var u := e.unit;
    var h, x := w.hooks[u], s.hooks[u];
    var h2, x2 := h.(phase := Closing, view := Release(h.view, u)), x.(phase := Closing, view := Release(x.view, u));
    assert FollowsHook(h, x, k);
    FollowsRelease(h, x, u, k);
    hide Follows, FollowsHook;
    FollowsWithHook(w, s, u, h2, x2, k);
    if Leads(w, u) {
      FollowsLeads(w, s, u, k);
      FollowsHistory(WithHook(w, u, h2), WithHook(s, u, x2), h.view.grants, x.view.grants, k);
    } else {
      FollowsLeads(w, s, u, k);
    }
  }

  lemma FollowsLeads(w: World, s: World, u: string, k: string)
    requires Follows(w, s, k)
    ensures Leads(s, u) <==> Leads(w, u)
    ensures u in w.hooks ==> Agree(w.hooks[u].view.grants, s.hooks[u].view.grants, k)
  {
  }

  lemma AgreePut(a: Table, b: Table, u: string, row: Locks, row2: Locks, k: string)
    requires Agree(a, b, k)
    requires k in row <==> k in row2
    requires k in row ==> row[k] == row2[k]
    ensures Agree(a[u := row], b[u := row2], k)
  {
    var p, q := a[u := row], b[u := row2];
    forall v
      ensures Get(p, v, k) == Get(q, v, k)
    {
      assert Get(a, v, k) == Get(b, v, k);
    }
  }

  lemma FollowsCommit(w: World, s: World, e: Event, k: string)
    requires Follows(w, s, k) && Enabled(w, e) && Enabled(s, e) && e.Commit?
    ensures Follows(Next(w, e), Next(s, e), k)
  {
    hide Agree, FollowsHook, Get, Stranded, Release, Acquire, Started;
    var u := e.unit;
    var row, row2 := w.hooks[u].view.requests[u], s.hooks[u].view.requests[u];
    FollowsRow(w.hooks[u], s.hooks[u], u, k);
    AgreePut(w.peer, s.peer, u, row, row2, k);
    AgreePut(w.local, s.local, u, row, row2, k);
  }

  lemma FollowsRow(h: Hook, x: Hook, u: string, k: string)
    requires FollowsHook(h, x, k) && u in h.view.requests && u in x.view.requests
    ensures k in h.view.requests[u] <==> k in x.view.requests[u]
    ensures k in h.view.requests[u] ==> h.view.requests[u][k] == x.view.requests[u][k]
    ensures h.relid == x.relid
  {
    assert Get(h.view.requests, u, k) == Get(x.view.requests, u, k);
  }

  lemma FollowsBegin(w: World, s: World, e: Event, k: string)
    requires Follows(w, s, k) && Enabled(w, e) && Enabled(s, e) && e.Begin?
    ensures Follows(Next(w, e), Next(s, e), k)
  {
    FollowsWithHook(w, s, e.unit, Next(w, e).hooks[e.unit], Next(s, e).hooks[e.unit], k);
  }

  lemma AgreeLess(a: Table, b: Table, u: string, k: string)
    requires Agree(a, b, k)
    ensures Agree(a - {u}, b - {u}, k)
  {
    var p, q := a - {u}, b - {u};
    forall v
      ensures Get(p, v, k) == Get(q, v, k)
    {
      assert Get(a, v, k) == Get(b, v, k);
    }
  }

  lemma FollowsRest(w: World, s: World, e: Event, k: string)
    requires Follows(w, s, k) && Enabled(w, e) && Enabled(s, e)
    requires e.Fail? || e.Elect? || e.Join? || e.Depart? || e.SeeRelation?
    ensures Follows(Next(w, e), Next(s, e), k)
  {
    hide FollowsHook, Stranded, Release, Acquire, Started, Agree, Get;
    if e.Depart? {
      AgreeLess(w.peer, s.peer, e.unit, k);
      AgreeLess(w.local, s.local, e.unit, k);
    }
  }

  lemma FollowsStep(w: World, s: World, e: Event, k: string)
    requires Follows(w, s, k) && OnlyAbout(s, k) && w.history != [] && Enabled(w, e)
    ensures Concerns(e, k) ==> Enabled(s, e) && Follows(Next(w, e), Next(s, e), k) && OnlyAbout(Next(s, e), k)
    ensures !Concerns(e, k) ==> Follows(Next(w, e), s, k)
  {
    hide Follows, Next, Enabled, OnlyAbout;
    if !Concerns(e, k) {
      FollowsOtherAsk(w, s, e, k);
    } else {
      FollowsEnabled(w, s, e, k);
      OnlyAboutStep(s, e, k);
      match e {
        case Begin(_, _, _) => FollowsBegin(w, s, e, k);
        case Read(_, _) => FollowsRead(w, s, e, k);
        case Start(_) => FollowsStart(w, s, e, k);
        case Ask(_, _, _) => FollowsAsk(w, s, e, k);
        case Publish(_) => FollowsPublish(w, s, e, k);
        case Commit(_) => FollowsCommit(w, s, e, k);
        case _ => FollowsRest(w, s, e, k);
      }
    }
  }

  /** The run without the `acquire` calls of other locks. */
  function Through(es: seq<Event>, k: string): (r: seq<Event>)
    ensures forall e :: e in r ==> Concerns(e, k)
  {
    if es == [] then []
    else (if Concerns(es[0], k) then [es[0]] else []) + Through(es[1..], k)
  }

  lemma HistoryStays(w: World, e: Event)
    requires Enabled(w, e) && w.history != []
    ensures Next(w, e).history != []
  {
  }

  lemma {:induction false} RunFollows(w: World, s: World, es: seq<Event>, k: string)
    requires Follows(w, s, k) && OnlyAbout(s, k) && w.history != [] && Possible(w, es)
    ensures Possible(s, Through(es, k))
    ensures Follows(After(w, es), After(s, Through(es, k)), k) && OnlyAbout(After(s, Through(es, k)), k)
    decreases |es|
  {
    hide Follows, Next, Enabled, OnlyAbout;
    if es != [] {
      HistoryStays(w, es[0]);
      FollowsStep(w, s, es[0], k);
      if Concerns(es[0], k) {
        RunFollows(Next(w, es[0]), Next(s, es[0]), es[1..], k);
        assert Through(es, k)[1..] == Through(es[1..], k);
      } else {
        RunFollows(Next(w, es[0]), s, es[1..], k);
        assert Through(es, k) == Through(es[1..], k);
      }
    }
  }

  /**
   Independence: dropping every other lock's `acquire` from a run leaves a possible run, in which only lock
   `k` is ever asked for, and in which the grants, requests and holders of `k` are the same.
   */
  lemma LocksAreIndependent(w: World, es: seq<Event>, k: string)
    requires IsInit(w) && Possible(w, es)
    ensures Possible(w, Through(es, k))
    ensures var a, b := After(w, es), After(w, Through(es, k));
            && Agree(Published(a), Published(b), k) && Agree(a.peer, b.peer, k)
            && a.hooks.Keys == b.hooks.Keys
            && (forall u :: u in a.hooks ==> AgreeView(a.hooks[u].view, b.hooks[u].view, k))
            && (forall u :: Holds(a, u, k) <==> Holds(b, u, k))
            && OnlyAbout(b, k)
  {
    RunFollows(w, w, es, k);
    var a, b := After(w, es), After(w, Through(es, k));
    forall u
      ensures Holds(a, u, k) <==> Holds(b, u, k)
    {
      if u in a.hooks {
        assert FollowsHook(a.hooks[u], b.hooks[u], k);
        assert Get(a.hooks[u].view.requests, u, k) == Get(b.hooks[u].view.requests, u, k);
        assert Get(a.hooks[u].view.grants, u, k) == Get(b.hooks[u].view.grants, u, k);
      }
    }
  }
}
