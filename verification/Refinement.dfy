/** What the coordinator object writes in one hook is what the protocol's steps publish for it. */
module Refinement {
  import opened Coordination
  import opened Coordinator
  import opened Lifecycle
  import opened Protocol
  import opened Wrappers

  /** The unit whose hook takes the step; the others are the environment's. */
  function Actor(e: Event): Option<string> {
    match e
    case Begin(u, _, _) => Some(u)
    case Read(u, _) => Some(u)
    case Start(u) => Some(u)
    case Ask(u, _, _) => Some(u)
    case Publish(u) => Some(u)
    case Commit(u) => Some(u)
    case Fail(u) => Some(u)
    case Elect(_) => None
    case Join(_) => None
    case Depart(_) => None
    case SeeRelation(_) => None
  }

  /** Nobody else's step touches a hook in flight, its unit's saved requests or whether its unit leads. */
  lemma OthersLeaveHook(w: World, e: Event, u: string)
    requires Enabled(w, e) && u in w.hooks && Actor(e) != Some(u)
    requires w.hooks.Keys <= w.members
    ensures var w2 := Next(w, e);
            && u in w2.hooks && w2.hooks[u] == w.hooks[u] && (Leads(w2, u) <==> Leads(w, u))
            && Row(w2.local, u) == Row(w.local, u) && (u in w2.peer <==> u in w.peer) && Row(w2.peer, u) == Row(w.peer, u)
  {
    hide Acquire, Handled, Started;
  }

  /** Each `relation_get` of a loading hook is one iteration of `_load_peer_state`. */
  lemma ReadIsOneAnswer(w: World, u: string, v: string)
    requires Enabled(w, Read(u, v))
    ensures Next(w, Read(u, v)).hooks[u].view.requests ==
            AddAnswer(w.hooks[u].view.requests, v, if v in w.peer then Some(w.peer[v]) else None)
  {
  }

  /** A hook that has read everything `a` says is answered opens as the object does. */
  ghost predicate HasRead(w: World, u: string, a: Answers) {
    InPhase(w, u, Loading) && w.hooks[u].todo == {} && Reading(w, u, a)
  }

  // ----- loading -----

  /** What the hook has been answered so far; the units still to ask have not been asked. */
  ghost predicate Reading(w: World, u: string, a: Answers) {
    && InPhase(w, u, Loading) && w.hooks[u].relid == a.relid
    && (a.relid ==> u in a.peers.Keys + w.hooks[u].todo)
    && a.peers.Keys !! w.hooks[u].todo && (!a.relid ==> w.hooks[u].todo == {} && a.peers == map[])
    && a.local == Row(w.local, u)
    && w.hooks[u].view == View(a.settings, PeerRequests(a.peers))
  }

  /** The answers that the unit's own reads get along the run, each from the relation as it is at that moment. */
  function Replies(w: World, es: seq<Event>, u: string): map<string, Option<Locks>>
    requires Possible(w, es)
    decreases |es|
  {
    if es == [] then map[]
    else
      var later := Replies(Next(w, es[0]), es[1..], u);
      if es[0].Read? && es[0].unit == u then map[es[0].from := Reply(w, es[0].from)] + later else later
  }

  function Reply(w: World, v: string): Option<Locks> {
    if v in w.peer then Some(w.peer[v]) else None
  }

  /** Everything the hook tools and the local file answer a hook that begins with `b` in `w` and loads along `load`. */
  function Heard(w: World, b: Event, load: seq<Event>): Answers
    requires b.Begin? && Enabled(w, b) && Possible(Next(w, b), load)
  {
    Answers(b.unit in w.joined, w.history[b.age], Replies(Next(w, b), load, b.unit), Row(w.local, b.unit))
  }

  ghost predicate OnlyReads(es: seq<Event>, u: string) {
    forall e :: e in es && Actor(e) == Some(u) ==> e.Read?
  }

  lemma OneMoreAnswer(peers: map<string, Option<Locks>>, v: string, answer: Option<Locks>)
    requires v !in peers
    ensures PeerRequests(peers[v := answer]) == AddAnswer(PeerRequests(peers), v, answer)
  {
  }

  lemma OwnRead(w: World, u: string, v: string, a: Answers)
    requires Reading(w, u, a) && Enabled(w, Read(u, v))
    ensures var w2 := Next(w, Read(u, v));
            && Reading(w2, u, a.(peers := a.peers[v := Reply(w, v)])) && (Leads(w2, u) <==> Leads(w, u))
            && v in Todo(w, u) && Todo(w2, u) == Todo(w, u) - {v}
  {
    ReadIsOneAnswer(w, u, v);
    OneMoreAnswer(a.peers, v, Reply(w, v));
  }

  lemma OthersLeaveReading(w: World, e: Event, u: string, a: Answers)
    requires Inv(w) && Reading(w, u, a) && Enabled(w, e) && Actor(e) != Some(u)
    ensures Reading(Next(w, e), u, a) && (Leads(Next(w, e), u) <==> Leads(w, u)) && Todo(Next(w, e), u) == Todo(w, u)
  {
    hide AllKnown, AllExclusive, Fenced, LocalUnseen, HookOk;
    OthersLeaveHook(w, e, u);
    hide Next, Enabled;
  }

  /** The units a hook has yet to ask. */
  function Todo(w: World, u: string): set<string> {
    if u in w.hooks then w.hooks[u].todo else {}
  }

  lemma RepliesUnfold(w: World, es: seq<Event>, u: string, peers: map<string, Option<Locks>>)
    requires Possible(w, es) && es != []
    ensures peers + Replies(w, es, u) ==
            (if es[0].Read? && es[0].unit == u then peers[es[0].from := Reply(w, es[0].from)] else peers)
            + Replies(Next(w, es[0]), es[1..], u)
  {
  }

  lemma RepliesNone(w: World, u: string)
    ensures Replies(w, [], u) == map[]
  {
  }

  /** Whatever others do meanwhile, what a loading hook has in memory is what it has been answered. */
  lemma {:induction false} LoadingReads(w: World, es: seq<Event>, u: string, a: Answers)
    requires Inv(w) && Possible(w, es) && OnlyReads(es, u) && Reading(w, u, a)
    ensures var w2, answered := After(w, es), a.peers + Replies(w, es, u);
            && Inv(w2) && Reading(w2, u, a.(peers := answered)) && (Leads(w2, u) <==> Leads(w, u))
            && answered.Keys + Todo(w2, u) == a.peers.Keys + Todo(w, u)
    decreases |es|
  {
    hide Inv, Reading, Next, Enabled, Leads, Todo, Reply, Replies;
    RepliesNone(w, u);
    if es == [] {
      assert a.peers + Replies(w, es, u) == a.peers;
    } else {
      var e, w1 := es[0], Next(w, es[0]);
      StepInv(w, e);
      assert e in es && forall x :: x in es[1..] ==> x in es;
      RepliesUnfold(w, es, u, a.peers);
      if Actor(e) == Some(u) {
        OwnRead(w, u, e.from, a);
        LoadingReads(w1, es[1..], u, a.(peers := a.peers[e.from := Reply(w, e.from)]));
      } else {
        OthersLeaveReading(w, e, u, a);
        LoadingReads(w1, es[1..], u, a);
      }
    }
  }

  lemma BeginsReading(w: World, b: Event)
    requires b.Begin? && Enabled(w, b)
    ensures var w2, u := Next(w, b), b.unit;
            && Reading(w2, u, Answers(u in w.joined, w.history[b.age], map[], Row(w.local, u)))
            && Todo(w2, u) == b.listed && (Leads(w2, u) <==> Leads(w, u))
  {
    hide Overlooks;
  }

  /**
   Loading, from its begin to its last read and interleaved with any steps of others, is the object's loading of
   the settings it began with and of one answer from each listed unit, each as it was when that unit was read.
   */
  lemma LoadingIsHeard(w: World, b: Event, load: seq<Event>)
    requires Inv(w) && b.Begin? && Enabled(w, b) && Possible(Next(w, b), load) && OnlyReads(load, b.unit)
    requires Enabled(After(Next(w, b), load), Start(b.unit))
    ensures var w2, u, a := After(Next(w, b), load), b.unit, Heard(w, b, load);
            Inv(w2) && HasRead(w2, u, a) && a.peers.Keys == b.listed && (Leads(w2, u) <==> Leads(w, u))
  {
    hide Inv, Reading, Next, Leads, After, Possible, Overlooks;
    var w1, u := Next(w, b), b.unit;
    StepInv(w, b);
    BeginsReading(w, b);
    LoadingReads(w1, load, u, Answers(u in w.joined, w.history[b.age], map[], Row(w.local, u)));
    assert map[] + Replies(w1, load, u) == Replies(w1, load, u);
    assert Heard(w, b, load) == Answers(u in w.joined, w.history[b.age], Replies(w1, load, u), Row(w.local, u));
  }

  lemma StartIsOpening(w: World, u: string, a: Answers)
    requires HasRead(w, u, a)
    ensures Next(w, Start(u)).hooks[u].view == Opening(u, Leads(w, u), a)
  {
  }

  /** The `acquire` calls of one unit in a run. */
  function AsksOf(es: seq<Event>, u: string): seq<Asking> {
    if es == [] then []
    else (if es[0].Ask? && es[0].unit == u then [Asking(es[0].lock, es[0].now)] else []) + AsksOf(es[1..], u)
  }

  ghost predicate OnlyAsks(es: seq<Event>, u: string) {
    forall e :: e in es && Actor(e) == Some(u) ==> e.Ask?
  }

  lemma OwnAsk(w: World, e: Event)
    requires e.Ask? && Enabled(w, e)
    ensures var w2, u := Next(w, e), e.unit;
            && InPhase(w2, u, Running) && (Leads(w2, u) <==> Leads(w, u))
            && w2.hooks[u] == w.hooks[u].(view := Acquire(w.hooks[u].view, u, Leads(w, u), e.lock, e.now))
  {
  }

  /** While a hook body runs, interleaved with anything, its view is that of its own `acquire` calls. */
  lemma {:induction false} BodyIsAskAll(w: World, es: seq<Event>, u: string)
    requires Inv(w) && Possible(w, es) && InPhase(w, u, Running) && OnlyAsks(es, u)
    ensures var w2 := After(w, es);
            && Inv(w2) && InPhase(w2, u, Running) && (Leads(w2, u) <==> Leads(w, u))
            && u in w.hooks[u].view.requests
            && w2.hooks[u] == w.hooks[u].(view := AskAll(w.hooks[u].view, u, Leads(w, u), AsksOf(es, u)))
    decreases |es|
  {
    hide AllKnown, AllExclusive, Fenced, LocalUnseen, HookOk, Acquire, Next;
    if es != [] {
      var e, w1 := es[0], Next(w, es[0]);
      StepInv(w, e);
      assert e in es;
      if Actor(e) == Some(u) {
        OwnAsk(w, e);
      } else {
        OthersLeaveHook(w, e, u);
      }
      assert forall x :: x in es[1..] ==> x in es;
      BodyIsAskAll(w1, es[1..], u);
      assert AsksOf(es, u) == (if Actor(e) == Some(u) then [Asking(e.lock, e.now)] else []) + AsksOf(es[1..], u);
      if Actor(e) != Some(u) {
        assert AsksOf(es, u) == AsksOf(es[1..], u);
      } else {
        assert AsksOf(es, u)[1..] == AsksOf(es[1..], u);
      }
    }
  }

  lemma {:induction false} WaitLeavesHook(w: World, es: seq<Event>, u: string)
    requires Inv(w) && Possible(w, es) && u in w.hooks
    requires forall e :: e in es ==> Actor(e) != Some(u)
    ensures var w2 := After(w, es);
            Inv(w2) && u in w2.hooks && w2.hooks[u] == w.hooks[u] && (Leads(w2, u) <==> Leads(w, u))
    decreases |es|
  {
    hide AllKnown, AllExclusive, Fenced, LocalUnseen, HookOk;
    if es != [] {
      StepInv(w, es[0]);
      assert es[0] in es;
      OthersLeaveHook(w, es[0], u);
      assert forall x :: x in es[1..] ==> x in es;
      WaitLeavesHook(Next(w, es[0]), es[1..], u);
    }
  }

  /** The steps of others between the parts of one hook, and its own steps in each part. */
  datatype Course = Course(load: seq<Event>, body: seq<Event>, wait: seq<Event>)

  /** The states in which a hook that begins with `b` in `w` starts its body, ends it and writes its own requests. */
  ghost predicate Runs(w: World, b: Event, c: Course, loaded: World, ended: World, last: World)
    requires b.Begin?
  {
    var u := b.unit;
    && Enabled(w, b) && Possible(Next(w, b), c.load) && OnlyReads(c.load, u)
    && loaded == After(Next(w, b), c.load) && Enabled(loaded, Start(u))
    && Possible(Next(loaded, Start(u)), c.body) && OnlyAsks(c.body, u)
    && ended == After(Next(loaded, Start(u)), c.body) && Enabled(ended, Publish(u))
    && Possible(Next(ended, Publish(u)), c.wait) && (forall e :: e in c.wait ==> Actor(e) != Some(u))
    && last == After(Next(ended, Publish(u)), c.wait) && Enabled(last, Commit(u))
  }

  /**
   A whole hook, from its begin to its commit and interleaved with any steps of others: the grants and requests it
   publishes are the ones the object's `Execute` writes when it is answered what the hook has heard.
   */
  lemma HookPublishesWrites(w: World, b: Event, c: Course, loaded: World, ended: World, last: World)
    requires Inv(w) && b.Begin? && Runs(w, b, c, loaded, ended, last)
    ensures Heard(w, b, c.load).peers.Keys == b.listed
    ensures var a, u := Heard(w, b, c.load), b.unit;
            (a.relid ==> u in a.peers) &&
            var saved := Writes(Opening(u, Leads(w, u), a), u, Leads(w, u), a.relid, AsksOf(c.body, u));
            && Next(ended, Publish(u)).history ==
                 ended.history + (if Leads(w, u) then [saved.leaderSet.value] else [])
            && (if a.relid then Row(Next(last, Commit(u)).peer, u) == saved.relationSet.value
                else Row(Next(last, Commit(u)).local, u) == saved.localFile.value)
  {
    hide Inv, HasRead, Heard, AskAll, Opening, After, Possible;
    LoadingIsHeard(w, b, c.load);
    LoadedHookPublishesWrites(loaded, b.unit, Heard(w, b, c.load), c.body, ended, c.wait, last);
  }

  lemma PublishWrites(w: World, u: string)
    requires Enabled(w, Publish(u))
    ensures var w2, h := Next(w, Publish(u)), w.hooks[u];
            && w2.history == w.history + (if Leads(w, u) then [h.view.grants] else [])
            && u in w2.hooks && w2.hooks[u] == h.(phase := Closing, view := Release(h.view, u))
            && (Leads(w2, u) <==> Leads(w, u))
  {
  }

  lemma CommitWrites(w: World, u: string)
    requires Enabled(w, Commit(u))
    ensures var w2, h := Next(w, Commit(u)), w.hooks[u];
            Row(if h.relid then w2.peer else w2.local, u) == h.view.requests[u]
  {
  }

  lemma LoadedHookPublishesWrites(w: World, u: string, a: Answers, body: seq<Event>, atEnd: World, wait: seq<Event>,
                                  last: World)
    requires Inv(w) && HasRead(w, u, a) && OnlyAsks(body, u)
    requires forall e :: e in wait ==> Actor(e) != Some(u)
    requires Possible(Next(w, Start(u)), body) && atEnd == After(Next(w, Start(u)), body) && Enabled(atEnd, Publish(u))
    requires Possible(Next(atEnd, Publish(u)), wait) && last == After(Next(atEnd, Publish(u)), wait)
    requires Enabled(last, Commit(u))
    ensures a.relid ==> u in a.peers
    ensures var saved := Writes(Opening(u, Leads(w, u), a), u, Leads(w, u), a.relid, AsksOf(body, u));
            && Next(atEnd, Publish(u)).history ==
                 atEnd.history + (if Leads(w, u) then [saved.leaderSet.value] else [])
            && (if a.relid then Row(Next(last, Commit(u)).peer, u) == saved.relationSet.value
                else Row(Next(last, Commit(u)).local, u) == saved.localFile.value)
  {
    hide Inv, Opening, AskAll, After, Possible;
    var w1 := Next(w, Start(u));
    StepInv(w, Start(u));
    StartIsOpening(w, u, a);
    StartFrame(w, u);
    hide HasRead;
    BodyIsAskAll(w1, body, u);
    StepInv(atEnd, Publish(u));
    PublishWrites(atEnd, u);
    hide Release;
    WaitLeavesHook(Next(atEnd, Publish(u)), wait, u);
    CommitWrites(last, u);
    hide Next, Enabled;
  }
}
