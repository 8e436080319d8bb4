/**
 The coordinator as a distributed protocol: units run hooks that interleave, publish requests on the peer
 relation, and whichever unit leads publishes grants in leader settings.
 */
module Protocol {
  import opened Coordination
  import opened Wrappers

  /**
   Loading: reading the peer relation, one unit at a time. Running: the hook body. Closing: locks released and,
   on the leader, grants published; the unit's own requests are not yet published.
   */
  datatype Phase = Loading | Running | Closing

  /** A hook in flight; `relid` says whether it saw the peer relation when it started. */
  datatype Hook = Hook(phase: Phase, relid: bool, todo: set<string>, view: View)

  /** A timestamp that a unit has put on a request for a lock. */
  datatype Token = Token(unit: string, lock: string, ts: string)

  /**
   `history` is every value leader settings have had, the current one last; `peer` is what each unit has set on
   the peer relation, `local` its fallback file. `joined` are the units that see the peer relation.
   */
  datatype World = World(
    members: set<string>,
    joined: set<string>,
    leader: Option<string>,
    history: seq<Table>,
    peer: Table,
    local: Table,
    used: set<Token>,
    hooks: map<string, Hook>)

  datatype Event =
    | Begin(unit: string, age: nat, listed: set<string>)
    | Read(unit: string, from: string)
    | Start(unit: string)
    | Ask(unit: string, lock: string, now: string)
    | Publish(unit: string)
    | Commit(unit: string)
    | Fail(unit: string)
    | Elect(who: Option<string>)
    | Join(unit: string)
    | Depart(unit: string)
    | SeeRelation(unit: string)

  /** The grants currently in leader settings. */
  function Published(w: World): Table {
    if w.history == [] then map[] else w.history[|w.history| - 1]
  }

  predicate Leads(w: World, u: string) {
    w.leader == Some(u)
  }

  predicate InPhase(w: World, u: string, p: Phase) {
    u in w.hooks && w.hooks[u].phase == p
  }

  /** The timestamp of the unit's outstanding request as the unit has saved it. */
  function Mine(w: World, u: string, l: string): Option<string> {
    if u in w.peer then Get(w.peer, u, l) else Get(w.local, u, l)
  }

  /** The grant in leader settings matches the unit's saved request. */
  predicate LiveNow(w: World, u: string, l: string) {
    Get(Published(w), u, l).Some? && Get(Published(w), u, l) == Mine(w, u, l)
  }

  /**
   The unit has published a grant, and ended the request that it answers, before it has published any request:
   if its hook ends here, that request stays in the unit's own file only.
   */
  predicate Stranded(w: World, u: string) {
    InPhase(w, u, Closing) && u !in w.peer && exists l :: l in Row(w.local, u) && LiveNow(w, u, l)
  }

  predicate IsInit(w: World) {
    w.hooks == map[] && w.peer == map[] && w.local == map[] && w.history == [map[]] &&
    w.used == {} && w.joined == {} && w.leader == None
  }

  /** The unit has no hook in flight; the units listed to it, if it sees the relation, are it and some that do. */
  predicate CanBegin(w: World, u: string, listed: set<string>) {
    u in w.members && u !in w.hooks && listed <= w.joined && if u in w.joined then u in listed else listed == {}
  }

  /** A unit that is not listed has a live grant. */
  predicate Overlooks(w: World, listed: set<string>) {
    exists v, l :: v in w.members && v !in listed && l in Row(Published(w), v) && LiveNow(w, v, l)
  }

  /** When a step can happen. The environment's obligations are in `Begin`, `Ask`, `Fail`, `Elect` and `Depart`. */
  predicate Enabled(w: World, e: Event) {
    match e
    case Begin(u, age, listed) =>
      CanBegin(w, u, listed) && age < |w.history| &&
      (Leads(w, u) ==> age == |w.history| - 1 && !Overlooks(w, listed))
    case Read(u, v) => InPhase(w, u, Loading) && v in w.hooks[u].todo
    case Start(u) => InPhase(w, u, Loading) && w.hooks[u].todo == {}
    case Ask(u, l, now) =>
      InPhase(w, u, Running) && u in w.hooks[u].view.requests && now != "" && Token(u, l, now) !in w.used
    case Publish(u) => InPhase(w, u, Running) && u in w.hooks[u].view.requests
    case Commit(u) => InPhase(w, u, Closing) && u in w.hooks[u].view.requests
    case Fail(u) => u in w.hooks && !Stranded(w, u)
    case Elect(who) =>
      (w.leader.Some? ==> w.leader.value !in w.hooks) &&
      (who.Some? ==> who.value in w.members && who.value !in w.hooks)
    case Join(u) => u !in w.members
    case Depart(u) => u in w.members && u !in w.hooks
    case SeeRelation(u) => u in w.members
  }

  function WithHook(w: World, u: string, h: Hook): World {
    w.(hooks := w.hooks[u := h])
  }

  function WithView(w: World, u: string, v: View): World
    requires u in w.hooks
  {
    WithHook(w, u, w.hooks[u].(view := v))
  }

  /** The end of `_load_state`, and `handle` if the unit leads. */
  function Started(v: View, me: string, leader: bool, own: Locks): View {
    var r := if me in v.requests then v.requests else v.requests[me := own];
    View(if leader then Handled(v.grants, r) else v.grants, r)
  }

  function Next(w: World, e: Event): World
    requires Enabled(w, e)
  {
    match e
    case Begin(u, age, listed) =>
      WithHook(w, u, Hook(Loading, u in w.joined, listed, View(w.history[age], map[])))
    case Read(u, v) =>
      var h := w.hooks[u];
      var r := if v in w.peer then h.view.requests[v := w.peer[v]] else h.view.requests;
      WithHook(w, u, h.(todo := h.todo - {v}, view := h.view.(requests := r)))
    case Start(u) =>
      var h := w.hooks[u];
      WithHook(w, u, h.(phase := Running, view := Started(h.view, u, Leads(w, u), Row(w.local, u))))
    case Ask(u, l, now) =>
      WithView(w, u, Acquire(w.hooks[u].view, u, Leads(w, u), l, now)).(used := w.used + {Token(u, l, now)})
    case Publish(u) =>
      var h := w.hooks[u];
      WithHook(w, u, h.(phase := Closing, view := Release(h.view, u)))
        .(history := if Leads(w, u) then w.history + [h.view.grants] else w.history)
    case Commit(u) =>
      var h := w.hooks[u];
      var done := w.(hooks := w.hooks - {u});
      if h.relid then done.(peer := w.peer[u := h.view.requests[u]])
      else done.(local := w.local[u := h.view.requests[u]])
    case Fail(u) => w.(hooks := w.hooks - {u})
    case Elect(who) => w.(leader := who)
    case Join(u) => w.(members := w.members + {u})
    case Depart(u) =>
      w.(members := w.members - {u}, joined := w.joined - {u}, peer := w.peer - {u}, local := w.local - {u},
         leader := if Leads(w, u) then None else w.leader)
    case SeeRelation(u) => w.(joined := w.joined + {u})
  }

  /** The unit is in a hook body in which `granted(l)` is true. */
  predicate Holds(w: World, u: string, l: string) {
    InPhase(w, u, Running) && Granted(w.hooks[u].view, u, l)
  }

  // ----- the invariant -----

  ghost predicate Shape(w: World) {
    && w.history != []
    && w.hooks.Keys <= w.members && w.joined <= w.members
    && w.peer.Keys <= w.joined && w.local.Keys <= w.members
    && (w.leader.Some? ==> w.leader.value in w.members)
    && (forall u :: u in w.hooks && w.hooks[u].phase != Loading ==> u in w.hooks[u].view.requests)
    && (forall u :: u in w.hooks ==> if w.hooks[u].relid then u in w.joined else u !in w.peer)
  }

  predicate Known(w: World, u: string, l: string, ts: Option<string>) {
    ts.Some? ==> ts.value != "" && Token(u, l, ts.value) in w.used
  }

  /** Every timestamp anywhere has been issued. */
  ghost predicate AllKnown(w: World) {
    && (forall g, u, l :: g in w.history ==> Known(w, u, l, Get(g, u, l)))
    && (forall u, l :: Known(w, u, l, Mine(w, u, l)))
    && (forall h, u, l :: h in w.hooks ==> Known(w, u, l, Get(w.hooks[h].view.grants, u, l)))
    && (forall h, u, l :: h in w.hooks ==> Known(w, u, l, Get(w.hooks[h].view.requests, u, l)))
  }

  ghost predicate AllExclusive(w: World) {
    && (forall g :: g in w.history ==> Exclusive(g))
    && (forall h :: h in w.hooks ==> Exclusive(w.hooks[h].view.grants))
  }

  /** A grant ever published that matches the unit's saved request has not been revoked since. */
  ghost predicate Fenced(w: World) {
    forall g, u, l :: g in w.history && Get(g, u, l).Some? && Get(g, u, l) == Mine(w, u, l)
                      ==> Get(Published(w), u, l) == Mine(w, u, l)
  }

  /** Neither leader settings, past or present, nor another unit's leader hook have met this timestamp. */
  ghost predicate Unseen(w: World, u: string, l: string, ts: Option<string>) {
    ts.Some? ==>
      && (forall g :: g in w.history ==> Get(g, u, l) != ts)
      && (forall k :: k in w.hooks && Leads(w, k) && k != u ==>
            Get(w.hooks[k].view.grants, u, l) != ts && Get(w.hooks[k].view.requests, u, l) != ts)
  }

  /** A request that only the unit's local file knows has never been granted. */
  ghost predicate LocalUnseen(w: World) {
    forall u, l :: u !in w.peer && !(Leads(w, u) && InPhase(w, u, Closing)) ==> Unseen(w, u, l, Get(w.local, u, l))
  }

  /** A hook's own requests are the saved ones, except for new ones nobody else has met. */
  ghost predicate OwnRequests(w: World, u: string)
    requires u in w.hooks
  {
    var h := w.hooks[u];
    && (h.phase == Running ==> forall l :: Mine(w, u, l).Some? ==> Get(h.view.requests, u, l) == Mine(w, u, l))
    && (h.phase == Closing ==> forall l :: Mine(w, u, l).Some? && Get(h.view.requests, u, l).Some? ==>
          Get(h.view.requests, u, l) == Mine(w, u, l))
    && (h.phase != Loading ==> forall l :: Get(h.view.requests, u, l) != Mine(w, u, l) ==>
          Unseen(w, u, l, Get(h.view.requests, u, l)))
    && (h.phase == Closing && Leads(w, u) ==> forall l :: Get(h.view.requests, u, l).Some? ==>
          Get(h.view.requests, u, l) != Get(Published(w), u, l))
  }

  /** What a hook that is still loading knows of its own requests. */
  ghost predicate OwnLoading(w: World, u: string)
    requires u in w.hooks
  {
    var h := w.hooks[u];
    h.phase == Loading ==>
      && (u in h.view.requests ==> u in w.peer && h.view.requests[u] == w.peer[u])
      && (u in w.peer ==> u in h.todo || u in h.view.requests)
  }

  /** A leader's hook never loses sight of a live grant, and after `handle` grants only what is requested. */
  ghost predicate LeaderView(w: World, k: string)
    requires k in w.hooks
  {
    var h := w.hooks[k];
    && (h.phase != Running ==> h.view.grants == Published(w))
    && (h.phase == Loading ==> forall v, l :: LiveNow(w, v, l) ==>
          v in h.todo || Get(h.view.requests, v, l) == Mine(w, v, l))
    && (h.phase == Running ==> forall v, l :: LiveNow(w, v, l) ==> Get(h.view.grants, v, l) == Mine(w, v, l))
    && (h.phase == Running ==> Settled(h.view))
  }

  ghost predicate HookOk(w: World, u: string)
    requires u in w.hooks
  {
    && OwnRequests(w, u)
    && OwnLoading(w, u)
    && (Leads(w, u) ==> LeaderView(w, u))
    && (!Leads(w, u) ==> w.hooks[u].view.grants in w.history)
  }

  ghost predicate Inv(w: World) {
    && Shape(w) && AllKnown(w) && AllExclusive(w) && Fenced(w) && LocalUnseen(w)
    && (forall u :: u in w.hooks ==> HookOk(w, u))
  }

  /** What the invariant says of one hook. */
  lemma HookIsOk(w: World, k: string)
    requires Inv(w) && k in w.hooks
    ensures Shape(w) && HookOk(w, k) && Exclusive(w.hooks[k].view.grants)
  {
  }

  lemma HistoryKnows(w: World, g: Table, u: string, l: string)
    requires Inv(w) && g in w.history
    ensures Known(w, u, l, Get(g, u, l))
  {
  }

  /** What it says of timestamps. */
  lemma HookKnows(w: World, k: string, u: string, l: string)
    requires Inv(w) && k in w.hooks
    ensures Known(w, u, l, Get(w.hooks[k].view.grants, u, l)) && Known(w, u, l, Get(w.hooks[k].view.requests, u, l))
    ensures Known(w, u, l, Mine(w, u, l))
  {
  }

  /** A held lock is granted in leader settings under the saved request, unless the holder leads. */
  lemma HolderIsPublished(w: World, u: string, l: string)
    requires Inv(w) && Holds(w, u, l) && !Leads(w, u)
    ensures LiveNow(w, u, l)
  {
    var v := w.hooks[u].view;
    assert HookOk(w, u);
    assert v.grants in w.history && Get(v.grants, u, l) == Get(v.requests, u, l);
  }

  /** Mutual exclusion in one state. */
  lemma InvExcludes(w: World, u: string, v: string, l: string)
    requires Inv(w) && Holds(w, u, l) && Holds(w, v, l)
    ensures u == v
  {
    assert HookOk(w, u) && HookOk(w, v);
    if Leads(w, u) && !Leads(w, v) {
      HolderIsPublished(w, v, l);
    } else if Leads(w, v) && !Leads(w, u) {
      HolderIsPublished(w, u, l);
    } else if !Leads(w, u) && !Leads(w, v) {
      HolderIsPublished(w, u, l);
      HolderIsPublished(w, v, l);
      assert Published(w) in w.history;
    }
  }

  lemma InitInv(w: World)
    requires IsInit(w)
    ensures Inv(w)
  {
  }

  // ----- steps that change one hook and nothing that is published -----

  ghost predicate HookOnly(w: World, w2: World, u: string) {
    && w2 == w.(hooks := w2.hooks, used := w2.used)
    && w.used <= w2.used
    && (forall k :: k != u ==> (k in w2.hooks <==> k in w.hooks))
    && (forall k :: k != u && k in w.hooks ==> w2.hooks[k] == w.hooks[k])
  }

  lemma SameSaved(w: World, w2: World)
    requires w2.peer == w.peer && w2.local == w.local
    ensures forall u, l {:trigger Mine(w2, u, l)} :: Mine(w2, u, l) == Mine(w, u, l)
  {
  }

  lemma HookOnlyKnown(w: World, w2: World, u: string)
    requires AllKnown(w) && HookOnly(w, w2, u)
    requires u in w2.hooks ==> forall v, l :: Known(w2, v, l, Get(w2.hooks[u].view.grants, v, l))
    requires u in w2.hooks ==> forall v, l :: Known(w2, v, l, Get(w2.hooks[u].view.requests, v, l))
    ensures AllKnown(w2)
  {
    SameSaved(w, w2);
    forall g, v, l | g in w2.history
      ensures Known(w2, v, l, Get(g, v, l))
    {
      assert Known(w, v, l, Get(g, v, l));
    }
    forall v, l
      ensures Known(w2, v, l, Mine(w2, v, l))
    {
      assert Known(w, v, l, Mine(w, v, l));
    }
    forall h, v, l | h in w2.hooks
      ensures Known(w2, v, l, Get(w2.hooks[h].view.grants, v, l))
      ensures Known(w2, v, l, Get(w2.hooks[h].view.requests, v, l))
    {
      if h != u {
        assert Known(w, v, l, Get(w.hooks[h].view.grants, v, l));
        assert Known(w, v, l, Get(w.hooks[h].view.requests, v, l));
      }
    }
  }

  lemma HookOnlyFenced(w: World, w2: World, u: string)
    requires Fenced(w) && HookOnly(w, w2, u)
    ensures Fenced(w2)
  {
    SameSaved(w, w2);
  }

  /** What a step lets the changed hook see of another unit was published, or seen by the hook before. */
  ghost predicate SeesNothingNew(w: World, w2: World, u: string) {
    u in w2.hooks && Leads(w, u) ==> forall v, l :: SeesNothingNewAt(w, w2, u, v, l)
  }

  predicate SeesNothingNewAt(w: World, w2: World, u: string, v: string, l: string)
    requires u in w2.hooks
  {
    var g, r := Get(w2.hooks[u].view.grants, v, l), Get(w2.hooks[u].view.requests, v, l);
    v != u ==>
      && (g.None? || g == Get(Published(w), v, l) ||
          (u in w.hooks && (g == Get(w.hooks[u].view.grants, v, l) || g == Get(w.hooks[u].view.requests, v, l))))
      && (r.None? || (v in w.peer && r == Mine(w, v, l)) ||
          (u in w.hooks && r == Get(w.hooks[u].view.requests, v, l)))
  }

  lemma HookOnlyUnseen(w: World, w2: World, u: string, v: string, l: string, ts: Option<string>)
    requires Unseen(w, v, l, ts) && HookOnly(w, w2, u) && SeesNothingNew(w, w2, u)
    requires v !in w.peer || ts != Mine(w, v, l)
    requires w.history != []
    ensures Unseen(w2, v, l, ts)
  {
    if ts.Some? && u in w2.hooks && Leads(w, u) && v != u {
      assert Published(w) in w.history;
      assert SeesNothingNewAt(w, w2, u, v, l);
    }
  }

  lemma HookOnlyOther(w: World, w2: World, u: string, k: string)
    requires Shape(w) && HookOnly(w, w2, u) && SeesNothingNew(w, w2, u)
    requires k in w.hooks && k != u && HookOk(w, k)
    ensures HookOk(w2, k)
  {
    SameSaved(w, w2);
    forall l | w2.hooks[k].phase != Loading && Get(w2.hooks[k].view.requests, k, l) != Mine(w2, k, l)
      ensures Unseen(w2, k, l, Get(w2.hooks[k].view.requests, k, l))
    {
      HookOnlyUnseen(w, w2, u, k, l, Get(w.hooks[k].view.requests, k, l));
    }
  }

  /** A hook stays as the invariant wants it when nothing it depends on is lost. */
  lemma HookStays(w: World, w2: World, k: string)
    requires k in w.hooks && k in w2.hooks && w2.hooks[k] == w.hooks[k] && HookOk(w, k)
    requires (Leads(w2, k) <==> Leads(w, k)) && (k in w2.peer <==> k in w.peer) && Row(w2.peer, k) == Row(w.peer, k)
    requires forall l :: Mine(w2, k, l) == Mine(w, k, l)
    requires forall l, ts :: Unseen(w, k, l, ts) ==> Unseen(w2, k, l, ts)
    requires if Leads(w, k) then Published(w2) == Published(w) else forall g :: g in w.history ==> g in w2.history
    requires Leads(w, k) ==> forall v, l :: LiveNow(w2, v, l) ==> LiveNow(w, v, l) && Mine(w2, v, l) == Mine(w, v, l)
    ensures HookOk(w2, k)
  {
    hide Unseen, Mine, LiveNow;
  }

  /** Unless a unit is stranded, a request that only its file knows has never been granted. */
  lemma LocalNowUnseen(w: World, u: string, l: string)
    requires Inv(w) && u !in w.peer && (Leads(w, u) ==> !Stranded(w, u))
    ensures Unseen(w, u, l, Get(w.local, u, l))
  {
    hide AllKnown, AllExclusive, HookOk, Shape;
    if Leads(w, u) && InPhase(w, u, Closing) && Get(w.local, u, l).Some? {
      assert !LiveNow(w, u, l);
      assert forall g :: g in w.history ==> Get(g, u, l) != Mine(w, u, l);
    }
  }

  lemma HookOnlyInv(w: World, w2: World, u: string)
    requires Inv(w) && HookOnly(w, w2, u) && SeesNothingNew(w, w2, u) && !Stranded(w, u)
    requires Shape(w2) && AllKnown(w2)
    requires u in w2.hooks ==> HookOk(w2, u) && Exclusive(w2.hooks[u].view.grants)
    ensures Inv(w2)
  {
    HookOnlyFenced(w, w2, u);
    forall v, l | v !in w2.peer && !(Leads(w2, v) && InPhase(w2, v, Closing))
      ensures Unseen(w2, v, l, Get(w2.local, v, l))
    {
      LocalNowUnseen(w, v, l);
      HookOnlyUnseen(w, w2, u, v, l, Get(w.local, v, l));
    }
    forall k | k in w2.hooks
      ensures HookOk(w2, k)
    {
      if k != u {
        HookOnlyOther(w, w2, u, k);
      }
    }
  }

  lemma BeginKnown(w: World, e: Event)
    requires Inv(w) && e.Begin? && Enabled(w, e)
    ensures AllKnown(Next(w, e))
  {
    assert w.history[e.age] in w.history;
    HookOnlyKnown(w, Next(w, e), e.unit);
  }

  lemma BeginHookOk(w: World, e: Event)
    requires Shape(w) && e.Begin? && Enabled(w, e)
    requires Leads(w, e.unit) ==> forall v, l :: LiveNow(w, v, l) ==> v in e.listed
    ensures HookOk(Next(w, e), e.unit)
  {
    assert w.history[e.age] in w.history;
    var w2 := Next(w, e);
    SameSaved(w, w2);
    assert forall v, l :: LiveNow(w2, v, l) <==> LiveNow(w, v, l);
  }

  lemma BeginShape(w: World, e: Event)
    requires Shape(w) && e.Begin? && Enabled(w, e)
    ensures var w2, u := Next(w, e), e.unit;
            && Shape(w2) && HookOnly(w, w2, u) && SeesNothingNew(w, w2, u)
            && w2.hooks[u].view.grants in w.history && !InPhase(w, u, Closing)
  {
  }

  lemma BeginInv(w: World, e: Event)
    requires Inv(w) && e.Begin? && Enabled(w, e)
    ensures Inv(Next(w, e))
  {
    hide Fenced, LocalUnseen, Unseen, HookOk, AllKnown;
    var u, w2 := e.unit, Next(w, e);
    BeginKnown(w, e);
    forall v, l | LiveNow(w, v, l) && Leads(w, u)
      ensures v in e.listed
    {
      LiveIsOnPeer(w, v, l);
      assert v in w.members && l in Row(Published(w), v);
    }
    BeginHookOk(w, e);
    BeginShape(w, e);
    hide Next, Enabled, Shape, HookOnly, SeesNothingNew;
    HookOnlyInv(w, w2, u);
  }

  /** A live grant goes to a request published on the peer relation, outside the publishing window of a leader. */
  lemma LiveIsOnPeer(w: World, v: string, l: string)
    requires Inv(w) && LiveNow(w, v, l) && !(Leads(w, v) && InPhase(w, v, Closing))
    ensures v in w.peer
  {
    assert Published(w) in w.history;
  }

  lemma ReadKnown(w: World, e: Event)
    requires Inv(w) && e.Read? && Enabled(w, e)
    ensures AllKnown(Next(w, e))
  {
    var u, w2 := e.unit, Next(w, e);
    forall v, l
      ensures Known(w2, v, l, Get(w2.hooks[u].view.requests, v, l))
    {
      assert Known(w, v, l, Mine(w, v, l));
      assert Known(w, v, l, Get(w.hooks[u].view.requests, v, l));
    }
    HookOnlyKnown(w, w2, u);
  }

  lemma ReadInv(w: World, e: Event)
    requires Inv(w) && e.Read? && Enabled(w, e)
    ensures Inv(Next(w, e))
  {
    hide AllKnown, Fenced, LocalUnseen, HookOk;
    var u, w2 := e.unit, Next(w, e);
    ReadKnown(w, e);
    ReadHookOk(w, u, e.from);
    HookIsOk(w, u);
    HookOnlyInv(w, w2, u);
  }

  lemma ReadHookOk(w: World, u: string, from: string)
    requires Inv(w) && Enabled(w, Read(u, from))
    ensures HookOk(Next(w, Read(u, from)), u)
  {
    hide Inv, Unseen;
    var w2 := Next(w, Read(u, from));
    SameSaved(w, w2);
    HookIsOk(w, u);
    forall v, l | Leads(w, u) && LiveNow(w2, v, l)
      ensures v in w2.hooks[u].todo || Get(w2.hooks[u].view.requests, v, l) == Mine(w2, v, l)
    {
      assert LiveNow(w, v, l);
      LiveIsOnPeer(w, v, l);
    }
  }

  lemma FailInv(w: World, e: Event)
    requires Inv(w) && e.Fail? && Enabled(w, e)
    ensures Inv(Next(w, e))
  {
    HookOnlyKnown(w, Next(w, e), e.unit);
    HookOnlyInv(w, Next(w, e), e.unit);
  }

  /** When loading ends a unit's own requests are exactly its saved ones. */
  lemma StartOwn(w: World, u: string, l: string)
    requires Inv(w) && Enabled(w, Start(u))
    ensures Get(Next(w, Start(u)).hooks[u].view.requests, u, l) == Mine(w, u, l)
  {
    assert OwnLoading(w, u);
  }

  lemma StartLookups(w: World, u: string, v: string, l: string)
    requires Enabled(w, Start(u))
    ensures var h, h2 := w.hooks[u], Next(w, Start(u)).hooks[u];
            && (v != u ==> Get(h2.view.requests, v, l) == Get(h.view.requests, v, l))
            && (Get(h2.view.grants, v, l).None? || Get(h2.view.grants, v, l) == Get(h.view.grants, v, l) ||
                Get(h2.view.grants, v, l) == Get(h2.view.requests, v, l))
            && (Leads(w, u) && Live(h.view.grants, h2.view.requests, v, l) ==>
                Get(h2.view.grants, v, l) == Get(h.view.grants, v, l))
  {
    hide Stranded, Overlooks, Acquire, Release, Handled;
    HandleDecides(w.hooks[u].view.grants, Next(w, Start(u)).hooks[u].view.requests, v, l);
  }

  lemma StartKnown(w: World, u: string)
    requires Inv(w) && Enabled(w, Start(u))
    ensures AllKnown(Next(w, Start(u)))
  {
    var w2 := Next(w, Start(u));
    forall v, l
      ensures Known(w2, v, l, Get(w2.hooks[u].view.grants, v, l))
      ensures Known(w2, v, l, Get(w2.hooks[u].view.requests, v, l))
    {
      StartLookups(w, u, v, l);
      StartOwn(w, u, l);
      assert Known(w, v, l, Mine(w, v, l));
      assert Known(w, v, l, Get(w.hooks[u].view.grants, v, l));
      assert Known(w, v, l, Get(w.hooks[u].view.requests, v, l));
    }
    HookOnlyKnown(w, w2, u);
  }

  lemma StartLeaderView(w: World, u: string)
    requires Inv(w) && Enabled(w, Start(u)) && Leads(w, u)
    ensures LeaderView(Next(w, Start(u)), u)
  {
    var w2 := Next(w, Start(u));
    SameSaved(w, w2);
    assert LeaderView(w, u);
    forall v, l | LiveNow(w2, v, l)
      ensures Get(w2.hooks[u].view.grants, v, l) == Mine(w2, v, l)
    {
      assert LiveNow(w, v, l);
      StartLookups(w, u, v, l);
      StartOwn(w, u, l);
    }
    HandleSettles(w.hooks[u].view.grants, w2.hooks[u].view.requests);
  }

  lemma StartFrame(w: World, u: string)
    requires Enabled(w, Start(u))
    ensures var w2 := Next(w, Start(u));
            && w2 == w.(hooks := w.hooks[u := w2.hooks[u]])
            && w2.hooks[u].phase == Running && w2.hooks[u].relid == w.hooks[u].relid && u in w2.hooks[u].view.requests
            && (!Leads(w, u) ==> w2.hooks[u].view.grants == w.hooks[u].view.grants)
  {
  }

  lemma StartHookOk(w: World, u: string)
    requires Inv(w) && Enabled(w, Start(u))
    ensures HookOk(Next(w, Start(u)), u)
  {
    hide Inv, LeaderView, Unseen, Handled;
    var w2 := Next(w, Start(u));
    SameSaved(w, w2);
    HookIsOk(w, u);
    StartFrame(w, u);
    forall l
      ensures Get(w2.hooks[u].view.requests, u, l) == Mine(w2, u, l)
    {
      StartOwn(w, u, l);
    }
    if Leads(w, u) {
      StartLeaderView(w, u);
    }
    hide Next, Enabled;
  }

  lemma StartSeesNothingNew(w: World, u: string)
    requires Inv(w) && Enabled(w, Start(u))
    ensures SeesNothingNew(w, Next(w, Start(u)), u)
  {
    hide Inv, Handled;
    var w2 := Next(w, Start(u));
    forall v, l
      ensures SeesNothingNewAt(w, w2, u, v, l)
    {
      StartLookups(w, u, v, l);
    }
  }

  lemma StartShape(w: World, u: string)
    requires Shape(w) && Enabled(w, Start(u))
    ensures var w2 := Next(w, Start(u)); Shape(w2) && HookOnly(w, w2, u)
  {
    hide Handled;
  }

  lemma StartInv(w: World, e: Event)
    requires Inv(w) && e.Start? && Enabled(w, e)
    ensures Inv(Next(w, e))
  {
    var u, w2 := e.unit, Next(w, e);
    StartKnown(w, u);
    StartSeesNothingNew(w, u);
    if Leads(w, u) {
      HandleExclusive(w.hooks[u].view.grants, w2.hooks[u].view.requests);
    }
    StartFrame(w, u);
    StartShape(w, u);
    StartHookOk(w, u);
    hide Next, Enabled, AllKnown, Fenced, LocalUnseen, HookOk, Handled, SeesNothingNew, Shape, HookOnly;
    HookOnlyInv(w, w2, u);
  }

  lemma AskLookups(w: World, e: Event, v: string, l: string)
    requires e.Ask? && Enabled(w, e)
    ensures var h, h2 := w.hooks[e.unit], Next(w, e).hooks[e.unit];
            && (Get(h2.view.requests, v, l) != Get(h.view.requests, v, l) ==>
                v == e.unit && l == e.lock && Get(h2.view.requests, v, l) == Some(e.now) &&
                (Get(h.view.requests, v, l).None? || Get(h.view.requests, v, l) == Some("")))
            && (Get(h2.view.grants, v, l) != Get(h.view.grants, v, l) ==>
                v == e.unit && l == e.lock && Leads(w, v) && Get(h.view.grants, v, l).None? &&
                Get(h2.view.grants, v, l) == Get(h2.view.requests, v, l))
  {
    var v0 := w.hooks[e.unit].view;
    var q := Request(v0, e.unit, e.lock, e.now);
    RequestLookups(v0, e.unit, e.lock, e.now, v, l);
    GrantDecides(q.grants, q.requests, e.lock, e.unit, v, l);
  }

  /** A fresh timestamp has been met nowhere. */
  lemma FreshUnseen(w: World, u: string, l: string, now: string)
    requires AllKnown(w) && Token(u, l, now) !in w.used
    ensures Unseen(w, u, l, Some(now))
  {
    forall g | g in w.history
      ensures Get(g, u, l) != Some(now)
    {
      assert Known(w, u, l, Get(g, u, l));
    }
    forall k | k in w.hooks
      ensures Get(w.hooks[k].view.grants, u, l) != Some(now) && Get(w.hooks[k].view.requests, u, l) != Some(now)
    {
      assert Known(w, u, l, Get(w.hooks[k].view.grants, u, l));
      assert Known(w, u, l, Get(w.hooks[k].view.requests, u, l));
    }
  }

  lemma AskKnown(w: World, e: Event)
    requires Inv(w) && e.Ask? && Enabled(w, e)
    ensures AllKnown(Next(w, e))
  {
    var u, w2 := e.unit, Next(w, e);
    forall v, l
      ensures Known(w2, v, l, Get(w2.hooks[u].view.grants, v, l))
      ensures Known(w2, v, l, Get(w2.hooks[u].view.requests, v, l))
    {
      AskLookups(w, e, v, l);
      assert Known(w, v, l, Get(w.hooks[u].view.grants, v, l));
      assert Known(w, v, l, Get(w.hooks[u].view.requests, v, l));
    }
    HookOnlyKnown(w, w2, u);
  }

  lemma AskOwn(w: World, e: Event, l: string)
    requires Inv(w) && e.Ask? && Enabled(w, e)
    ensures var r := Get(Next(w, e).hooks[e.unit].view.requests, e.unit, l);
            && (Mine(w, e.unit, l).Some? ==> r == Mine(w, e.unit, l))
            && (r != Mine(w, e.unit, l) ==> Unseen(w, e.unit, l, r))
  {
    hide AllExclusive, Fenced, LocalUnseen;
    assert HookOk(w, e.unit);
    AskLookups(w, e, e.unit, l);
    assert Known(w, e.unit, l, Mine(w, e.unit, l));
    if l == e.lock {
      FreshUnseen(w, e.unit, l, e.now);
    }
  }

  lemma AskHookOk(w: World, e: Event)
    requires Inv(w) && e.Ask? && Enabled(w, e) && SeesNothingNew(w, Next(w, e), e.unit)
    ensures HookOk(Next(w, e), e.unit)
  {
    hide AllKnown, AllExclusive, Fenced, LocalUnseen, Unseen, Acquire;
    var u, w2 := e.unit, Next(w, e);
    SameSaved(w, w2);
    assert HookOk(w, u);
    forall l
      ensures Mine(w2, u, l).Some? ==> Get(w2.hooks[u].view.requests, u, l) == Mine(w2, u, l)
      ensures Get(w2.hooks[u].view.requests, u, l) != Mine(w2, u, l) ==>
                Unseen(w2, u, l, Get(w2.hooks[u].view.requests, u, l))
    {
      AskOwn(w, e, l);
      AskUnseen(w, e, l, Get(w2.hooks[u].view.requests, u, l));
    }
    forall v, l | Leads(w, u) && LiveNow(w2, v, l)
      ensures Get(w2.hooks[u].view.grants, v, l) == Mine(w2, v, l)
    {
      assert LiveNow(w, v, l);
      AskLookups(w, e, v, l);
    }
    if Leads(w, u) {
      AskKeepsSettled(w, e);
    } else {
      AskKeepsGrants(w, e);
    }
  }

  lemma AskKeepsSettled(w: World, e: Event)
    requires Inv(w) && e.Ask? && Enabled(w, e) && Leads(w, e.unit)
    ensures Settled(Next(w, e).hooks[e.unit].view)
  {
    var v := w.hooks[e.unit].view;
    assert HookOk(w, e.unit);
    assert Known(w, e.unit, e.lock, Get(v.requests, e.unit, e.lock));
    AcquireKeepsSettled(v, e.unit, true, e.lock, e.now);
  }

  lemma AskUnseen(w: World, e: Event, l: string, ts: Option<string>)
    requires e.Ask? && Enabled(w, e)
    ensures Unseen(w, e.unit, l, ts) ==> Unseen(Next(w, e), e.unit, l, ts)
  {
  }

  lemma AskKeepsGrants(w: World, e: Event)
    requires e.Ask? && Enabled(w, e) && !Leads(w, e.unit)
    ensures Next(w, e).hooks[e.unit].view.grants == w.hooks[e.unit].view.grants
  {
  }

  lemma AskSeesNothingNew(w: World, e: Event)
    requires e.Ask? && Enabled(w, e)
    ensures SeesNothingNew(w, Next(w, e), e.unit)
  {
    hide Acquire;
    forall v, l
      ensures SeesNothingNewAt(w, Next(w, e), e.unit, v, l)
    {
      AskLookups(w, e, v, l);
    }
  }

  lemma AskShape(w: World, e: Event)
    requires Shape(w) && e.Ask? && Enabled(w, e)
    ensures var w2 := Next(w, e); Shape(w2) && HookOnly(w, w2, e.unit) && !Stranded(w, e.unit)
  {
    hide Acquire;
    AskKeepsRow(w, e);
  }

  lemma AskKeepsRow(w: World, e: Event)
    requires e.Ask? && Enabled(w, e)
    ensures e.unit in Acquire(w.hooks[e.unit].view, e.unit, Leads(w, e.unit), e.lock, e.now).requests
  {
  }

  lemma AskExclusive(w: World, e: Event)
    requires e.Ask? && Enabled(w, e) && Exclusive(w.hooks[e.unit].view.grants)
    ensures Exclusive(Next(w, e).hooks[e.unit].view.grants)
  {
    hide Exclusive;
    var q := Request(w.hooks[e.unit].view, e.unit, e.lock, e.now);
    GrantExclusive(q.grants, q.requests, e.lock, e.unit);
  }

  lemma AskInv(w: World, e: Event)
    requires Inv(w) && e.Ask? && Enabled(w, e)
    ensures Inv(Next(w, e))
  {
    hide AllKnown, HookOk, Fenced, LocalUnseen;
    var u, w2 := e.unit, Next(w, e);
    AskKnown(w, e);
    AskSeesNothingNew(w, e);
    AskHookOk(w, e);
    AskShape(w, e);
    HookIsOk(w, u);
    AskExclusive(w, e);
    hide Next, Enabled, Shape, HookOnly, SeesNothingNew, Exclusive;
    HookOnlyInv(w, w2, u);
  }

  // ----- publishing -----

  lemma PublishLookups(w: World, u: string, v: string, l: string)
    requires Enabled(w, Publish(u))
    ensures var h, h2 := w.hooks[u], Next(w, Publish(u)).hooks[u];
            && h2.view.grants == h.view.grants
            && Get(h2.view.requests, v, l) == if v == u && Granted(h.view, u, l) then None else Get(h.view.requests, v, l)
  {
  }

  /** What a closing hook still requests differs from what it has published as granted. */
  lemma PublishOwn(w: World, u: string, l: string)
    requires Inv(w) && Enabled(w, Publish(u))
    ensures var w2 := Next(w, Publish(u)); var r := Get(w2.hooks[u].view.requests, u, l);
            && r in {None, Get(w.hooks[u].view.requests, u, l)}
            && (r != Mine(w, u, l) ==> Unseen(w2, u, l, r))
            && (Leads(w, u) && r.Some? ==> r != Get(Published(w2), u, l))
  {
    hide Inv, LeaderView, OwnLoading;
    HookIsOk(w, u);
    HookKnows(w, u, u, l);
    PublishLookups(w, u, u, l);
    PublishFrame(w, u);
    hide Next, Enabled;
  }

  /** A publication changes its unit's hook and, on a leader, adds one value to the history. */
  lemma PublishFrame(w: World, u: string)
    requires Enabled(w, Publish(u))
    ensures var w2 := Next(w, Publish(u));
            && w2 == w.(hooks := w2.hooks, history := w2.history)
            && w2.hooks == w.hooks[u := w2.hooks[u]]
            && w2.hooks[u].phase == Closing && w2.hooks[u].view.grants == w.hooks[u].view.grants
            && u in w2.hooks[u].view.requests
            && (Leads(w, u) ==> Published(w2) == w.hooks[u].view.grants)
            && (forall g :: g in w2.history <==> g in w.history || (Leads(w, u) && g == w.hooks[u].view.grants))
  {
  }

  /** What the unit's hook looks like once it has released its locks and, if it leads, published grants. */
  lemma PublishHookOk(w: World, u: string)
    requires Inv(w) && Enabled(w, Publish(u))
    ensures HookOk(Next(w, Publish(u)), u)
  {
    hide Inv, Unseen;
    var w2 := Next(w, Publish(u));
    SameSaved(w, w2);
    HookIsOk(w, u);
    forall l
      ensures Get(w2.hooks[u].view.requests, u, l) != Mine(w2, u, l) ==>
                Unseen(w2, u, l, Get(w2.hooks[u].view.requests, u, l))
      ensures Get(w2.hooks[u].view.requests, u, l) in {None, Get(w.hooks[u].view.requests, u, l)}
      ensures Leads(w, u) && Get(w2.hooks[u].view.requests, u, l).Some? ==>
                Get(w2.hooks[u].view.requests, u, l) != Get(Published(w2), u, l)
    {
      PublishOwn(w, u, l);
    }
    PublishFrame(w, u);
    hide Next, Enabled;
  }

  lemma PublishKnown(w: World, u: string)
    requires Inv(w) && Enabled(w, Publish(u))
    ensures AllKnown(Next(w, Publish(u)))
  {
    hide Inv, Get, Mine, Granted;
    var w2 := Next(w, Publish(u));
    SameSaved(w, w2);
    PublishFrame(w, u);
    forall g, v, l | g in w2.history
      ensures Known(w2, v, l, Get(g, v, l))
    {
      if g in w.history {
        HistoryKnows(w, g, v, l);
      } else {
        HookKnows(w, u, v, l);
      }
    }
    forall h, v, l | h in w2.hooks
      ensures Known(w2, v, l, Get(w2.hooks[h].view.grants, v, l))
      ensures Known(w2, v, l, Get(w2.hooks[h].view.requests, v, l))
    {
      HookKnows(w, h, v, l);
      PublishLookups(w, u, v, l);
    }
    hide Next, Enabled;
    forall v, l
      ensures Known(w2, v, l, Mine(w2, v, l))
    {
      HookKnows(w, u, v, l);
    }
  }

  /** Publishing a leader's grants adds nothing that a protected timestamp could have been met in. */
  lemma PublishUnseen(w: World, u: string, v: string, l: string, ts: Option<string>)
    requires Inv(w) && Enabled(w, Publish(u)) && (v != u || !Leads(w, u)) && Unseen(w, v, l, ts)
    ensures Unseen(Next(w, Publish(u)), v, l, ts)
  {
    PublishLookups(w, u, v, l);
  }

  lemma PublishOther(w: World, u: string, k: string)
    requires Inv(w) && Enabled(w, Publish(u)) && k in w.hooks && k != u
    ensures HookOk(Next(w, Publish(u)), k)
  {
    hide Inv, Unseen, HookOk, Mine;
    var w2 := Next(w, Publish(u));
    SameSaved(w, w2);
    HookIsOk(w, k);
    PublishFrame(w, u);
    forall l, ts | Unseen(w, k, l, ts)
      ensures Unseen(w2, k, l, ts)
    {
      PublishUnseen(w, u, k, l, ts);
    }
    hide Next, Enabled;
    HookStays(w, w2, k);
  }

  lemma PublishFenced(w: World, u: string)
    requires Inv(w) && Enabled(w, Publish(u))
    ensures Fenced(Next(w, Publish(u)))
  {
    hide AllKnown, AllExclusive, LocalUnseen;
    var w2 := Next(w, Publish(u));
    SameSaved(w, w2);
    HookIsOk(w, u);
    PublishFrame(w, u);
    hide Next, Enabled, AllKnown, LocalUnseen, Shape, OwnRequests, OwnLoading;
    forall g, v, l | g in w2.history && Get(g, v, l).Some? && Get(g, v, l) == Mine(w2, v, l)
      ensures Get(Published(w2), v, l) == Mine(w2, v, l)
    {
      if g in w.history {
        assert LiveNow(w, v, l);
      }
    }
  }

  lemma PublishInv(w: World, e: Event)
    requires Inv(w) && e.Publish? && Enabled(w, e)
    ensures Inv(Next(w, e))
  {
    hide AllKnown, HookOk, Fenced, Unseen;
    PublishFrame(w, e.unit);
    var u, w2 := e.unit, Next(w, e);
    PublishKnown(w, u);
    PublishFenced(w, u);
    PublishHookOk(w, u);
    forall k | k in w2.hooks
      ensures HookOk(w2, k)
    {
      if k != u {
        PublishOther(w, u, k);
      }
    }
    forall v, l | v !in w2.peer && !(Leads(w2, v) && InPhase(w2, v, Closing))
      ensures Unseen(w2, v, l, Get(w2.local, v, l))
    {
      PublishUnseen(w, u, v, l, Get(w.local, v, l));
    }
  }

  lemma CommitSaves(w: World, u: string, v: string, l: string)
    requires Inv(w) && Enabled(w, Commit(u))
    ensures Mine(Next(w, Commit(u)), v, l) == if v == u then Get(w.hooks[u].view.requests, u, l) else Mine(w, v, l)
  {
    hide AllKnown, AllExclusive, Fenced, LocalUnseen, HookOk;
  }

  /** A newly saved request that was ever granted was saved before, and its grant stands. */
  lemma CommitFence(w: World, u: string, l: string, g: Table)
    requires Inv(w) && Enabled(w, Commit(u)) && g in w.history
    requires Get(g, u, l).Some? && Get(g, u, l) == Get(w.hooks[u].view.requests, u, l)
    ensures Get(g, u, l) == Mine(w, u, l) && LiveNow(w, u, l) && !Leads(w, u)
  {
    assert HookOk(w, u);
  }

  lemma CommitLive(w: World, u: string, v: string, l: string)
    requires Inv(w) && Enabled(w, Commit(u)) && LiveNow(Next(w, Commit(u)), v, l)
    ensures LiveNow(w, v, l) && Mine(Next(w, Commit(u)), v, l) == Mine(w, v, l)
  {
    hide Inv, Mine;
    CommitSaves(w, u, v, l);
    CommitFrame(w, u);
    hide Next, Enabled;
    if v == u {
      CommitFence(w, u, l, Published(w));
    }
  }

  lemma CommitUnseen(w: World, u: string, v: string, l: string, ts: Option<string>)
    requires Enabled(w, Commit(u)) && Unseen(w, v, l, ts)
    ensures Unseen(Next(w, Commit(u)), v, l, ts)
  {
  }

  /** A commit touches nothing but its unit's saved requests and its hook. */
  lemma CommitFrame(w: World, u: string)
    requires Enabled(w, Commit(u))
    ensures var w2 := Next(w, Commit(u));
            && w2 == w.(hooks := w.hooks - {u}, peer := w2.peer, local := w2.local)
            && (forall v, l :: v != u ==> Mine(w2, v, l) == Mine(w, v, l))
            && (forall v :: v != u ==> (v in w2.peer <==> v in w.peer) && Row(w2.peer, v) == Row(w.peer, v))
  {
  }

  lemma CommitOther(w: World, u: string, k: string)
    requires Inv(w) && Enabled(w, Commit(u)) && k in w.hooks && k != u
    ensures HookOk(Next(w, Commit(u)), k)
  {
    hide Inv, Unseen, HookOk, Mine, LiveNow;
    var w2 := Next(w, Commit(u));
    HookIsOk(w, k);
    CommitFrame(w, u);
    forall l, ts | Unseen(w, k, l, ts)
      ensures Unseen(w2, k, l, ts)
    {
      CommitUnseen(w, u, k, l, ts);
    }
    forall v, l | LiveNow(w2, v, l)
      ensures LiveNow(w, v, l) && Mine(w2, v, l) == Mine(w, v, l)
    {
      CommitLive(w, u, v, l);
    }
    hide Next, Enabled;
    HookStays(w, w2, k);
  }

  lemma CommitLocal(w: World, u: string)
    requires Inv(w) && Enabled(w, Commit(u))
    ensures LocalUnseen(Next(w, Commit(u)))
  {
    hide AllKnown, AllExclusive, Fenced, HookOk, Unseen;
    var w2 := Next(w, Commit(u));
    forall v, l | v !in w2.peer && !(Leads(w2, v) && InPhase(w2, v, Closing))
      ensures Unseen(w2, v, l, Get(w2.local, v, l))
    {
      if v != u {
        CommitUnseen(w, u, v, l, Get(w.local, v, l));
      } else {
        CommitOwnLocal(w, u, l);
      }
    }
  }

  /** A unit without the relation saves its requests in its file. */
  lemma CommitOwnRow(w: World, u: string)
    requires Shape(w) && Enabled(w, Commit(u)) && u !in Next(w, Commit(u)).peer
    ensures u !in w.peer && Row(Next(w, Commit(u)).local, u) == w.hooks[u].view.requests[u]
    ensures forall l :: Get(Next(w, Commit(u)).local, u, l) == Get(w.hooks[u].view.requests, u, l)
  {
  }

  lemma CommitOwnLocal(w: World, u: string, l: string)
    requires Inv(w) && Enabled(w, Commit(u)) && u !in Next(w, Commit(u)).peer
    ensures Unseen(Next(w, Commit(u)), u, l, Get(Next(w, Commit(u)).local, u, l))
  {
    hide Inv, LeaderView, OwnLoading;
    var w2 := Next(w, Commit(u));
    HookIsOk(w, u);
    CommitFrame(w, u);
    CommitOwnRow(w, u);
    hide Next, Enabled;
    if Get(w2.local, u, l).Some? {
      forall g | g in w.history
        ensures Get(g, u, l) != Get(w2.local, u, l)
      {
        if Get(g, u, l) == Get(w2.local, u, l) {
          CommitFence(w, u, l, g);
          LocalNowUnseen(w, u, l);
        }
      }
      if Get(w2.local, u, l) == Mine(w, u, l) && !Leads(w, u) {
        LocalNowUnseen(w, u, l);
      }
    }
  }

  lemma CommitKnown(w: World, u: string)
    requires Inv(w) && Enabled(w, Commit(u))
    ensures AllKnown(Next(w, Commit(u)))
  {
    hide AllExclusive, Fenced, LocalUnseen, HookOk, Shape, Mine;
    var w2 := Next(w, Commit(u));
    CommitFrame(w, u);
    forall v, l
      ensures Known(w2, v, l, Mine(w2, v, l))
    {
      CommitSaves(w, u, v, l);
      assert Known(w, v, l, Mine(w, v, l));
      assert Known(w, u, l, Get(w.hooks[u].view.requests, u, l));
    }
    hide Next, Enabled;
    CommitKeepsKnown(w, w2, u);
  }

  lemma CommitKeepsKnown(w: World, w2: World, u: string)
    requires AllKnown(w) && w2.history == w.history && w2.hooks == w.hooks - {u} && w2.used == w.used
    requires forall v, l :: Known(w2, v, l, Mine(w2, v, l))
    ensures AllKnown(w2)
  {
    hide Mine, Get;
    forall g, v, l | g in w2.history
      ensures Known(w2, v, l, Get(g, v, l))
    {
      assert Known(w, v, l, Get(g, v, l));
    }
    forall h, v, l | h in w2.hooks
      ensures Known(w2, v, l, Get(w2.hooks[h].view.grants, v, l))
      ensures Known(w2, v, l, Get(w2.hooks[h].view.requests, v, l))
    {
      assert Known(w, v, l, Get(w.hooks[h].view.grants, v, l));
      assert Known(w, v, l, Get(w.hooks[h].view.requests, v, l));
    }
  }

  lemma CommitFenced(w: World, u: string)
    requires Inv(w) && Enabled(w, Commit(u))
    ensures Fenced(Next(w, Commit(u)))
  {
    hide AllExclusive, AllKnown, LocalUnseen, HookOk, Shape, Mine;
    var w2 := Next(w, Commit(u));
    CommitFrame(w, u);
    hide Next, Enabled;
    forall g, v, l | g in w2.history && Get(g, v, l).Some? && Get(g, v, l) == Mine(w2, v, l)
      ensures Get(Published(w2), v, l) == Mine(w2, v, l)
    {
      CommitSaves(w, u, v, l);
      if v == u {
        CommitFence(w, u, l, g);
      }
    }
  }

  lemma CommitShape(w: World, u: string)
    requires Shape(w) && Enabled(w, Commit(u))
    ensures Shape(Next(w, Commit(u)))
  {
  }

  lemma CommitInv(w: World, e: Event)
    requires Inv(w) && e.Commit? && Enabled(w, e)
    ensures Inv(Next(w, e))
  {
    hide HookOk, AllKnown, Fenced, LocalUnseen;
    var u, w2 := e.unit, Next(w, e);
    CommitLocal(w, u);
    CommitKnown(w, u);
    CommitFenced(w, u);
    CommitFrame(w, u);
    CommitShape(w, u);
    hide Next, Enabled;
    forall k | k in w2.hooks
      ensures HookOk(w2, k)
    {
      CommitOther(w, u, k);
    }
  }

  // ----- elections and membership -----

  lemma ElectUnseen(w: World, e: Event, u: string, l: string, ts: Option<string>)
    requires e.Elect? && Enabled(w, e) && Unseen(w, u, l, ts)
    ensures Unseen(Next(w, e), u, l, ts)
  {
  }

  lemma ElectHookOk(w: World, e: Event, k: string)
    requires Inv(w) && e.Elect? && Enabled(w, e) && k in w.hooks
    ensures HookOk(Next(w, e), k)
  {
    hide Inv, Unseen, HookOk, Mine;
    var w2 := Next(w, e);
    SameSaved(w, w2);
    HookIsOk(w, k);
    forall l, ts | Unseen(w, k, l, ts)
      ensures Unseen(w2, k, l, ts)
    {
      ElectUnseen(w, e, k, l, ts);
    }
    HookStays(w, w2, k);
  }

  lemma ElectInv(w: World, e: Event)
    requires Inv(w) && e.Elect? && Enabled(w, e)
    ensures Inv(Next(w, e))
  {
    hide AllKnown, HookOk, Unseen;
    var w2 := Next(w, e);
    SameSaved(w, w2);
    HookFreeKnown(w, w2);
    forall u, l | u !in w2.peer && !(Leads(w2, u) && InPhase(w2, u, Closing))
      ensures Unseen(w2, u, l, Get(w2.local, u, l))
    {
      ElectUnseen(w, e, u, l, Get(w.local, u, l));
    }
    forall k | k in w2.hooks
      ensures HookOk(w2, k)
    {
      ElectHookOk(w, e, k);
    }
  }

  /** A step that keeps hooks and history and can only forget saved requests. */
  lemma HookFreeKnown(w: World, w2: World)
    requires AllKnown(w) && w2.hooks == w.hooks && w2.history == w.history && w2.used == w.used
    requires forall u, l :: Mine(w2, u, l) == Mine(w, u, l) || Mine(w2, u, l) == None
    ensures AllKnown(w2)
  {
    forall u, l
      ensures Known(w2, u, l, Mine(w2, u, l))
    {
      assert Known(w, u, l, Mine(w, u, l));
    }
    forall g, u, l | g in w2.history
      ensures Known(w2, u, l, Get(g, u, l))
    {
      assert Known(w, u, l, Get(g, u, l));
    }
    forall h, u, l | h in w2.hooks
      ensures Known(w2, u, l, Get(w2.hooks[h].view.grants, u, l))
      ensures Known(w2, u, l, Get(w2.hooks[h].view.requests, u, l))
    {
      assert Known(w, u, l, Get(w.hooks[h].view.grants, u, l));
      assert Known(w, u, l, Get(w.hooks[h].view.requests, u, l));
    }
  }

  lemma MemberUnseen(w: World, e: Event, u: string, l: string, ts: Option<string>)
    requires (e.Join? || e.Depart? || e.SeeRelation?) && Enabled(w, e) && Unseen(w, u, l, ts)
    ensures Unseen(Next(w, e), u, l, ts)
  {
  }

  /** Membership steps touch no hook; only a departure, of a unit without one, removes what was saved. */
  lemma MemberFrame(w: World, e: Event)
    requires (e.Join? || e.Depart? || e.SeeRelation?) && Enabled(w, e)
    ensures var w2 := Next(w, e);
            && w2.hooks == w.hooks && w2.history == w.history
            && (forall k :: k in w.hooks ==>
                  e != Depart(k) && (Leads(w2, k) <==> Leads(w, k)) && (k in w2.peer <==> k in w.peer) &&
                  Row(w2.peer, k) == Row(w.peer, k))
            && (forall u, l :: Mine(w2, u, l) == if e == Depart(u) then None else Mine(w, u, l))
  {
  }

  lemma MemberHookOk(w: World, e: Event, k: string)
    requires Inv(w) && (e.Join? || e.Depart? || e.SeeRelation?) && Enabled(w, e) && k in w.hooks
    ensures HookOk(Next(w, e), k)
  {
    hide Inv, Unseen, HookOk, Mine;
    var w2 := Next(w, e);
    HookIsOk(w, k);
    MemberFrame(w, e);
    forall l, ts | Unseen(w, k, l, ts)
      ensures Unseen(w2, k, l, ts)
    {
      MemberUnseen(w, e, k, l, ts);
    }
    hide Next, Enabled;
    HookStays(w, w2, k);
  }

  lemma MemberLocal(w: World, e: Event)
    requires Inv(w) && (e.Join? || e.Depart? || e.SeeRelation?) && Enabled(w, e)
    ensures LocalUnseen(Next(w, e))
  {
    hide HookOk, AllKnown, AllExclusive, Fenced;
    var w2 := Next(w, e);
    forall u, l | u !in w2.peer && !(Leads(w2, u) && InPhase(w2, u, Closing))
      ensures Unseen(w2, u, l, Get(w2.local, u, l))
    {
      if e != Depart(u) {
        assert Unseen(w, u, l, Get(w.local, u, l));
      }
    }
  }

  lemma MemberShape(w: World, e: Event)
    requires Shape(w) && (e.Join? || e.Depart? || e.SeeRelation?) && Enabled(w, e)
    ensures Shape(Next(w, e))
  {
  }

  lemma MemberInv(w: World, e: Event)
    requires Inv(w) && (e.Join? || e.Depart? || e.SeeRelation?) && Enabled(w, e)
    ensures Inv(Next(w, e))
  {
    hide HookOk, AllKnown, LocalUnseen;
    MemberFrame(w, e);
    var w2 := Next(w, e);
    HookFreeKnown(w, w2);
    MemberLocal(w, e);
    MemberShape(w, e);
    hide Next, Enabled, Mine;
    forall k | k in w2.hooks
      ensures HookOk(w2, k)
    {
      MemberHookOk(w, e, k);
    }
  }

  // ----- runs -----

  lemma StepInv(w: World, e: Event)
    requires Inv(w) && Enabled(w, e)
    ensures Inv(Next(w, e))
  {
    match e
    case Begin(_, _, _) => BeginInv(w, e);
    case Read(_, _) => ReadInv(w, e);
    case Start(_) => StartInv(w, e);
    case Ask(_, _, _) => AskInv(w, e);
    case Publish(_) => PublishInv(w, e);
    case Commit(_) => CommitInv(w, e);
    case Fail(_) => FailInv(w, e);
    case Elect(_) => ElectInv(w, e);
    case Join(_) => MemberInv(w, e);
    case Depart(_) => MemberInv(w, e);
    case SeeRelation(_) => MemberInv(w, e);
  }

  /** The events can happen one after the other, starting in `w`. */
  predicate Possible(w: World, es: seq<Event>)
    decreases |es|
  {
    es == [] || (Enabled(w, es[0]) && Possible(Next(w, es[0]), es[1..]))
  }

  /** The state they lead to. */
  function After(w: World, es: seq<Event>): World
    requires Possible(w, es)
    decreases |es|
  {
    if es == [] then w else After(Next(w, es[0]), es[1..])
  }

  lemma {:induction false} RunInv(w: World, es: seq<Event>)
    requires Inv(w) && Possible(w, es)
    ensures Inv(After(w, es))
    decreases |es|
  {
    if es != [] {
      StepInv(w, es[0]);
      RunInv(Next(w, es[0]), es[1..]);
    }
  }

  /**
   Mutual exclusion: whatever hooks interleave, units come and go, leadership moves, and however old the grants
   are that a unit reads, no two units are ever in hook bodies in which the same lock is granted.
   */
  lemma MutualExclusion(w: World, es: seq<Event>, u: string, v: string, l: string)
    requires IsInit(w) && Possible(w, es)
    requires Holds(After(w, es), u, l) && Holds(After(w, es), v, l)
    ensures u == v
  {
    InitInv(w);
    RunInv(w, es);
    InvExcludes(After(w, es), u, v, l);
  }

  /** A state some run from the beginning leads to. */
  ghost predicate Reachable(w: World) {
    exists w0, es :: IsInit(w0) && Possible(w0, es) && After(w0, es) == w
  }

  lemma ReachableInv(w: World)
    requires Reachable(w)
    ensures Inv(w)
  {
    var w0, es :| IsInit(w0) && Possible(w0, es) && After(w0, es) == w;
    InitInv(w0);
    RunInv(w0, es);
  }
}
