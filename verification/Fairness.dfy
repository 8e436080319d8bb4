/**
 First come, first served: what a unit that has published a request can count on, when new timestamps are later
 than every published one.
 */
module Fairness {
  import opened Coordination
  import opened Order
  import opened Protocol
  import opened Refinement
  import opened Wrappers

  /** A published request: unit, lock and timestamp. */
  datatype Ticket = Ticket(unit: string, lock: string, ts: string)

  predicate Waiting(w: World, t: Ticket) {
    t.unit in w.peer && Get(w.peer, t.unit, t.lock) == Some(t.ts)
  }

  /** A request that sorts before the ticket. */
  predicate Earlier(ts: string, v: string, t: Ticket) {
    v != t.unit && Before(Entry(ts, v), Entry(t.ts, t.unit))
  }

  /** A new request is later than every published request for the lock; a leader is listed all who have published. */
  ghost predicate Timely(w: World, e: Event) {
    && (e.Ask? ==> forall v :: Get(w.peer, v, e.lock).Some? ==> Less(w.peer[v][e.lock], e.now))
    && (e.Begin? && Leads(w, e.unit) ==> w.peer.Keys <= e.listed)
  }

  /** The ticket stays published along the run, in which clocks and listings behave. */
  ghost predicate WaitsThrough(w: World, es: seq<Event>, t: Ticket)
    requires Possible(w, es)
    decreases |es|
  {
    Waiting(w, t) && (es != [] ==> Timely(w, es[0]) && WaitsThrough(Next(w, es[0]), es[1..], t))
  }

  /** The unit has this timestamp on its request for the lock, saved or in its running hook. */
  predicate Asks(w: World, v: string, l: string, ts: string) {
    Mine(w, v, l) == Some(ts) ||
    (v in w.hooks && w.hooks[v].phase != Loading && Get(w.hooks[v].view.requests, v, l) == Some(ts))
  }

  lemma AsksOnce(w: World, v: string, l: string, a: string, b: string)
    requires Inv(w) && Asks(w, v, l, a) && Asks(w, v, l, b)
    ensures a == b
  {
    if v in w.hooks {
      assert HookOk(w, v);
    }
  }

  /** No step makes a new earlier request while the ticket is published. */
  lemma NoNewEarlier(w: World, e: Event, t: Ticket, v: string, ts: string)
    requires Inv(w) && Enabled(w, e) && Timely(w, e) && Waiting(w, t)
    requires Earlier(ts, v, t) && Asks(Next(w, e), v, t.lock, ts)
    ensures Asks(w, v, t.lock, ts)
  {
    hide Inv, Mine, Less, Acquire, Handled, Granted, Overlooks, Stranded;
    match e {
      case Start(k) =>
        StartOwn(w, k, t.lock);
        SameSaved(w, Next(w, e));
      case Ask(k, l, now) =>
        AskLookups(w, e, v, t.lock);
        if k == v && l == t.lock {
          BeforeAsymmetric(Entry(ts, v), Entry(t.ts, t.unit));
          assert Less(t.ts, now);
          assert Before(Entry(t.ts, t.unit), Entry(now, v));
        }
        SameSaved(w, Next(w, e));
      case Publish(k) =>
        PublishLookups(w, k, v, t.lock);
        SameSaved(w, Next(w, e));
      case Commit(k) => CommitSaves(w, k, v, t.lock);
      case Join(_) => MemberFrame(w, e);
      case Depart(_) => MemberFrame(w, e);
      case SeeRelation(_) => MemberFrame(w, e);
      case _ => SameSaved(w, Next(w, e));
    }
  }

  /** What a leader's hook in flight knows of the ticket and of earlier requests, against a base state. */
  ghost predicate Informed(base: World, w: World, t: Ticket, k: string)
    requires k in w.hooks
  {
    var h := w.hooks[k];
    && (Get(h.view.requests, t.unit, t.lock) == Some(t.ts) || (h.phase == Loading && t.unit in h.todo))
    && (forall v, ts :: Earlier(ts, v, t) && Get(h.view.requests, v, t.lock) == Some(ts) ==> Asks(base, v, t.lock, ts))
  }

  /** Since `base`, where no leader's hook was in flight, no earlier request has come up. */
  ghost predicate Watch(base: World, w: World, t: Ticket) {
    && Waiting(w, t)
    && (forall v, ts :: Earlier(ts, v, t) && Asks(w, v, t.lock, ts) ==> Asks(base, v, t.lock, ts))
    && (forall k :: k in w.hooks && Leads(w, k) && w.hooks[k].phase != Closing ==> Informed(base, w, t, k))
  }

  lemma WatchBegins(w: World, t: Ticket)
    requires Waiting(w, t) && forall k :: k in w.hooks ==> !Leads(w, k)
    ensures Watch(w, w, t)
  {
  }

  /** What a step shows a leader's hook of other units' requests: nothing, or what is published. */
  lemma StepShows(w: World, e: Event, k: string, v: string, l: string, ts: string)
    requires Inv(w) && Enabled(w, e) && Actor(e) == Some(k) && (e.Begin? || e.Read? || e.Start? || e.Ask?)
    requires Get(Next(w, e).hooks[k].view.requests, v, l) == Some(ts) && v != k
    ensures Mine(w, v, l) == Some(ts) || (k in w.hooks && Get(w.hooks[k].view.requests, v, l) == Some(ts))
  {
    hide Inv, Acquire, Handled;
    match e {
      case Start(_) => StartLookups(w, k, v, l);
      case Ask(_, _, _) => AskLookups(w, e, v, l);
      case _ =>
    }
  }

  /** And of a published ticket it never loses sight. */
  lemma StepKeepsTicket(w: World, e: Event, t: Ticket, k: string)
    requires Inv(w) && Enabled(w, e) && Waiting(w, t) && Actor(e) == Some(k)
    requires e.Begin? || e.Read? || e.Start? || e.Ask?
    requires k in w.hooks ==> var h := w.hooks[k];
               Get(h.view.requests, t.unit, t.lock) == Some(t.ts) || (h.phase == Loading && t.unit in h.todo)
    requires e.Begin? ==> t.unit in e.listed
    requires Leads(w, k)
    ensures var h := Next(w, e).hooks[k];
            Get(h.view.requests, t.unit, t.lock) == Some(t.ts) || (h.phase == Loading && t.unit in h.todo)
  {
    hide Inv, Acquire, Handled;
    match e {
      case Start(_) =>
        StartLookups(w, k, t.unit, t.lock);
        StartOwn(w, k, t.lock);
      case Ask(_, _, _) =>
        TicketHasTime(w, t);
        AskLookups(w, e, t.unit, t.lock);
      case _ =>
    }
  }

  /** The hook of a unit that leads, after one of its own steps. */
  lemma InformedStep(base: World, w: World, e: Event, t: Ticket, k: string)
    requires Inv(w) && Enabled(w, e) && Watch(base, w, t) && Timely(w, e)
    requires Actor(e) == Some(k) && Leads(w, k) && (e.Begin? || e.Read? || e.Start? || e.Ask?)
    requires forall v, ts :: Earlier(ts, v, t) && Asks(Next(w, e), v, t.lock, ts) ==> Asks(base, v, t.lock, ts)
    ensures Informed(base, Next(w, e), t, k)
  {
    hide Earlier, Mine;
    var w2 := Next(w, e);
    assert Timely(w, e);
    NextHasHook(w, e, k);
    hide Inv, Next, Enabled;
    StepKeepsTicket(w, e, t, k);
    forall v, ts | Earlier(ts, v, t) && Get(w2.hooks[k].view.requests, v, t.lock) == Some(ts)
      ensures Asks(base, v, t.lock, ts)
    {
      if v == k {
        OwnRequestIsAsked(w, e, k, t.lock, ts);
      } else {
        StepShows(w, e, k, v, t.lock, ts);
      }
    }
  }

  lemma NextHasHook(w: World, e: Event, k: string)
    requires Enabled(w, e) && Actor(e) == Some(k) && (e.Begin? || e.Read? || e.Start? || e.Ask?)
    ensures k in Next(w, e).hooks && (k in w.hooks ==> w.hooks[k].phase != Closing)
  {
  }

  /** A hook's own requests are asked, whether it has saved them or not. */
  lemma OwnRequestIsAsked(w: World, e: Event, k: string, l: string, ts: string)
    requires Inv(w) && Enabled(w, e) && Actor(e) == Some(k) && (e.Begin? || e.Read? || e.Start? || e.Ask?)
    requires Get(Next(w, e).hooks[k].view.requests, k, l) == Some(ts)
    ensures Asks(Next(w, e), k, l, ts)
  {
    hide Acquire, Handled, LeaderView, AllKnown, AllExclusive, Fenced, LocalUnseen;
    if k in w.hooks {
      HookIsOk(w, k);
    }
  }

  lemma TicketHasTime(w: World, t: Ticket)
    requires Inv(w) && Waiting(w, t)
    ensures t.ts != ""
  {
    assert Known(w, t.unit, t.lock, Mine(w, t.unit, t.lock));
  }

  lemma WatchStep(base: World, w: World, e: Event, t: Ticket)
    requires Inv(w) && Enabled(w, e) && Watch(base, w, t) && Timely(w, e) && Waiting(Next(w, e), t)
    ensures Watch(base, Next(w, e), t)
  {
    hide AllKnown, AllExclusive, Fenced, LocalUnseen, HookOk, Earlier, Informed, Asks;
    var w2 := Next(w, e);
    forall v, ts | Earlier(ts, v, t) && Asks(w2, v, t.lock, ts)
      ensures Asks(base, v, t.lock, ts)
    {
      NoNewEarlier(w, e, t, v, ts);
    }
    forall k | k in w2.hooks && Leads(w2, k) && w2.hooks[k].phase != Closing
      ensures Informed(base, w2, t, k)
    {
      if Actor(e) == Some(k) {
        InformedStep(base, w, e, t, k);
      } else {
        InformedFrame(base, w, w2, t, k);
      }
    }
  }

  lemma InformedFrame(base: World, w: World, w2: World, t: Ticket, k: string)
    requires k in w.hooks && k in w2.hooks && w2.hooks[k] == w.hooks[k] && Informed(base, w, t, k)
    ensures Informed(base, w2, t, k)
  {
  }

  lemma {:induction false} WatchRun(base: World, w: World, es: seq<Event>, t: Ticket)
    requires Inv(w) && Possible(w, es) && Watch(base, w, t) && WaitsThrough(w, es, t)
    ensures Inv(After(w, es)) && Watch(base, After(w, es), t)
    decreases |es|
  {
    hide Inv, Next, Enabled, Watch, Timely, Waiting;
    if es != [] {
      StepInv(w, es[0]);
      WaitsNext(w, es, t);
      WatchStep(base, w, es[0], t);
      WatchRun(base, Next(w, es[0]), es[1..], t);
    }
  }

  lemma WaitsNext(w: World, es: seq<Event>, t: Ticket)
    requires Possible(w, es) && es != [] && WaitsThrough(w, es, t)
    ensures Timely(w, es[0]) && Waiting(Next(w, es[0]), t) && WaitsThrough(Next(w, es[0]), es[1..], t)
  {
  }

  /** The step makes the leader grant the lock to `v` under timestamp `ts`, which it had not before. */
  predicate NewlyGrants(w: World, e: Event, v: string, l: string, ts: string)
    requires Enabled(w, e)
  {
    (e.Start? || e.Ask?) && Leads(w, e.unit) &&
    Get(w.hooks[e.unit].view.grants, v, l) != Some(ts) &&
    Get(Next(w, e).hooks[e.unit].view.grants, v, l) == Some(ts)
  }

  /** A lock newly granted past the ticket goes to an earlier request, made before the base state. */
  lemma GrantsGoToEarlier(base: World, w: World, e: Event, t: Ticket, v: string, ts: string)
    requires Inv(w) && Watch(base, w, t) && Enabled(w, e) && Timely(w, e)
    requires NewlyGrants(w, e, v, t.lock, ts) && v != t.unit
    ensures Earlier(ts, v, t) && Asks(base, v, t.lock, ts)
  {
    hide Inv, Acquire, Handled, LeaderView, OwnRequests;
    var k := e.unit;
    var before, after := w.hooks[k].view, Next(w, e).hooks[k].view;
    HookIsOk(w, k);
    assert Informed(base, w, t, k);
    TicketHasTime(w, t);
    if e.Start? {
      HandleDecides(before.grants, after.requests, v, t.lock);
      StartLookups(w, k, t.unit, t.lock);
      StartOwn(w, k, t.lock);
      StartLookups(w, k, v, t.lock);
    } else {
      AskLookups(w, e, v, t.lock);
      AskLookups(w, e, t.unit, t.lock);
      AskGrantHeads(w, e, v, t.lock);
    }
    assert Heads(after.requests, v, t.lock) && after.requests[v][t.lock] == ts;
    if v == k {
      NoNewEarlier(w, e, t, v, ts);
    }
  }

  lemma AskGrantHeads(w: World, e: Event, v: string, l: string)
    requires e.Ask? && Enabled(w, e)
    requires Get(Next(w, e).hooks[e.unit].view.grants, v, l) != Get(w.hooks[e.unit].view.grants, v, l)
    ensures Heads(Next(w, e).hooks[e.unit].view.requests, v, l)
  {
    var v0 := w.hooks[e.unit].view;
    var q := Request(v0, e.unit, e.lock, e.now);
    GrantDecides(q.grants, q.requests, e.lock, e.unit, v, l);
  }

  /** No leader's hook is in flight: every leader hook from here on starts after the ticket's publication. */
  ghost predicate NoLeaderHook(w: World) {
    forall k :: k in w.hooks ==> !Leads(w, k)
  }

  /** While the ticket waits through the run, its next event newly grants the lock to `v` under `ts`. */
  ghost predicate Bypasses(w: World, es: seq<Event>, e: Event, t: Ticket, v: string, ts: string) {
    Possible(w, es) && WaitsThrough(w, es, t) && Enabled(After(w, es), e) && Timely(After(w, es), e) &&
    NewlyGrants(After(w, es), e, v, t.lock, ts)
  }

  /**
   Bounded bypass: in leader hooks that start after the ticket is published, whatever is interleaved, another
   unit is newly granted the lock for at most one of its requests while the ticket waits.
   */
  lemma BoundedBypass(w: World, t: Ticket, v: string, es1: seq<Event>, e1: Event, ts1: string,
                      es2: seq<Event>, e2: Event, ts2: string)
    requires Reachable(w) && Waiting(w, t) && NoLeaderHook(w) && v != t.unit
    requires Bypasses(w, es1, e1, t, v, ts1) && Bypasses(w, es2, e2, t, v, ts2)
    ensures ts1 == ts2 && Earlier(ts1, v, t)
  {
    hide Inv, Watch, Next, Enabled, NewlyGrants, Earlier, Asks;
    ReachableInv(w);
    WatchBegins(w, t);
    WatchRun(w, w, es1, t);
    GrantsGoToEarlier(w, After(w, es1), e1, t, v, ts1);
    WatchRun(w, w, es2, t);
    GrantsGoToEarlier(w, After(w, es2), e2, t, v, ts2);
    AsksOnce(w, v, t.lock, ts1, ts2);
  }

  /** The units whose request for the ticket's lock, saved or in flight, sorts before the ticket. */
  ghost function Ahead(w: World, t: Ticket): set<string> {
    set v | v in w.members && exists ts :: Asks(w, v, t.lock, ts) && Earlier(ts, v, t)
  }

  /** The event publishes the end of an earlier request: its unit has held the lock and released it. */
  predicate ReleasesEarlier(w: World, e: Event, t: Ticket)
    requires Enabled(w, e)
  {
    e.Commit? && Mine(w, e.unit, t.lock).Some? && Earlier(Mine(w, e.unit, t.lock).value, e.unit, t) &&
    Get(w.hooks[e.unit].view.requests, e.unit, t.lock).None?
  }

  lemma AskerIsMember(w: World, v: string, l: string, ts: string)
    requires Inv(w) && Asks(w, v, l, ts)
    ensures v in w.members
  {
  }

  lemma AheadShrinks(w: World, e: Event, t: Ticket)
    requires Inv(w) && Enabled(w, e) && Timely(w, e) && Waiting(w, t)
    ensures Ahead(Next(w, e), t) <= Ahead(w, t)
    ensures ReleasesEarlier(w, e, t) ==> e.unit in Ahead(w, t) - Ahead(Next(w, e), t)
  {
    hide Inv, Earlier;
    forall v | v in Ahead(Next(w, e), t)
      ensures v in Ahead(w, t)
    {
      var ts :| Asks(Next(w, e), v, t.lock, ts) && Earlier(ts, v, t);
      EarlierIsOther(ts, v, t);
      NoNewEarlier(w, e, t, v, ts);
      AskerIsMember(w, v, t.lock, ts);
    }
    if ReleasesEarlier(w, e, t) {
      var u := e.unit;
      assert Asks(w, u, t.lock, Mine(w, u, t.lock).value);
      AskerIsMember(w, u, t.lock, Mine(w, u, t.lock).value);
      ReleasedAsksNothing(w, u, t.lock);
    }
  }

  lemma EarlierIsOther(ts: string, v: string, t: Ticket)
    requires Earlier(ts, v, t)
    ensures v != t.unit
  {
  }

  lemma ReleasedAsksNothing(w: World, u: string, l: string)
    requires Inv(w) && Enabled(w, Commit(u)) && Get(w.hooks[u].view.requests, u, l).None?
    ensures forall ts :: !Asks(Next(w, Commit(u)), u, l, ts)
  {
    CommitSaves(w, u, u, l);
  }

  /** How many earlier requests are served and released along the run. */
  ghost function Releases(w: World, es: seq<Event>, t: Ticket): nat
    requires Possible(w, es)
    decreases |es|
  {
    if es == [] then 0
    else (if ReleasesEarlier(w, es[0], t) then 1 else 0) + Releases(Next(w, es[0]), es[1..], t)
  }

  /**
   The queue ahead of a published request only shrinks: along any run in which it waits, every release by
   an earlier request takes one unit out of the set ahead, and nobody ever enters it.
   */
  lemma {:induction false} QueueAheadDrains(w: World, es: seq<Event>, t: Ticket)
    requires Inv(w) && Possible(w, es) && WaitsThrough(w, es, t)
    ensures Ahead(After(w, es), t) <= Ahead(w, t)
    ensures Releases(w, es, t) + |Ahead(After(w, es), t)| <= |Ahead(w, t)|
    decreases |es|
  {
    hide Inv, Next, Enabled, Ahead, Timely, Earlier, Mine;
    if es != [] {
      StepInv(w, es[0]);
      WaitsNext(w, es, t);
      AheadShrinks(w, es[0], t);
      var w1 := Next(w, es[0]);
      if ReleasesEarlier(w, es[0], t) {
        SmallerSet(Ahead(w1, t), Ahead(w, t) - {es[0].unit});
      } else {
        SmallerSet(Ahead(w1, t), Ahead(w, t));
      }
      QueueAheadDrains(w1, es[1..], t);
    }
  }

  lemma SmallerSet<T>(a: set<T>, b: set<T>)
    requires a <= b
    ensures |a| <= |b|
  {
    if a != {} {
      var x :| x in a;
      SmallerSet(a - {x}, b - {x});
    }
  }

  lemma HolderIsAhead(base: World, w: World, t: Ticket, k: string, h: string)
    requires Inv(w) && Inv(base) && Watch(base, w, t) && Enabled(w, Start(k)) && Leads(w, k)
    requires Get(Next(w, Start(k)).hooks[k].view.grants, h, t.lock).Some?
    requires Get(Next(w, Start(k)).hooks[k].view.requests, t.unit, t.lock) == Some(t.ts)
    ensures var before, after := w.hooks[k].view, Next(w, Start(k)).hooks[k].view;
            && (h == t.unit || Live(before.grants, after.requests, h, t.lock) || h in Ahead(base, t))
            && (h == t.unit ==> Get(after.grants, h, t.lock) == Some(t.ts))
  {
    hide AllKnown, AllExclusive, Fenced, LocalUnseen, HookOk;
    var before, after := w.hooks[k].view, Next(w, Start(k)).hooks[k].view;
    HandleDecides(before.grants, after.requests, h, t.lock);
    if h != t.unit && !Live(before.grants, after.requests, h, t.lock) {
      var ts := after.requests[h][t.lock];
      assert Earlier(ts, h, t);
      StartLookups(w, k, h, t.lock);
      if h == k {
        StartOwn(w, k, t.lock);
        assert Asks(w, h, t.lock, ts);
      } else {
        assert Informed(base, w, t, k);
      }
      assert Asks(base, h, t.lock, ts);
      AskerIsMember(base, h, t.lock, ts);
    }
  }

  /** What a loaded leader's `handle` does to the ticket's lock. */
  lemma LoadedLeaderServes(base: World, w: World, t: Ticket, k: string)
    requires Inv(w) && Inv(base) && Watch(base, w, t) && Enabled(w, Start(k)) && Leads(w, k)
    ensures var before, after := w.hooks[k].view, Next(w, Start(k)).hooks[k].view;
            && Get(after.requests, t.unit, t.lock) == Some(t.ts)
            && (exists h :: Get(after.grants, h, t.lock).Some? &&
                  (h == t.unit || Live(before.grants, after.requests, h, t.lock) || h in Ahead(base, t)))
            && (Ahead(base, t) == {} && (forall h :: !Live(before.grants, after.requests, h, t.lock)) ==>
                  Get(after.grants, t.unit, t.lock) == Some(t.ts))
  {
    hide AllKnown, AllExclusive, Fenced, LocalUnseen, HookOk;
    var before, after := w.hooks[k].view, Next(w, Start(k)).hooks[k].view;
    assert Informed(base, w, t, k);
    StartLookups(w, k, t.unit, t.lock);
    StartOwn(w, k, t.lock);
    HandleServes(before.grants, after.requests, t.lock);
    var h :| h in after.grants && t.lock in after.grants[h];
    HolderIsAhead(base, w, t, k, h);
  }

  /**
   Progress: when the leader handles the queue, the lock is held, by the ticket's unit, by the holder it finds,
   or by a unit that was ahead of the ticket. With nobody ahead and no live holder the ticket is granted.
   */
  lemma HandleServesTicket(base: World, es: seq<Event>, t: Ticket, k: string)
    requires Reachable(base) && Waiting(base, t) && NoLeaderHook(base)
    requires Possible(base, es) && WaitsThrough(base, es, t)
    requires Enabled(After(base, es), Start(k)) && Leads(After(base, es), k)
    ensures var before := After(base, es).hooks[k].view;
            var after := Next(After(base, es), Start(k)).hooks[k].view;
            exists h :: Get(after.grants, h, t.lock).Some? &&
                        (h == t.unit || Live(before.grants, after.requests, h, t.lock) || h in Ahead(base, t))
    ensures var before := After(base, es).hooks[k].view;
            var after := Next(After(base, es), Start(k)).hooks[k].view;
            Ahead(base, t) == {} && (forall h :: !Live(before.grants, after.requests, h, t.lock)) ==>
              Get(after.grants, t.unit, t.lock) == Some(t.ts)
  {
    hide Inv, Watch, Enabled;
    ReachableInv(base);
    WatchBegins(base, t);
    WatchRun(base, base, es, t);
    LoadedLeaderServes(base, After(base, es), t, k);
  }

  /**
   Progress: once every earlier request has been served and released, the next leader hook to begin gives the
   ticket the lock, unless the leader finds a live holder.
   */
  lemma ServedWhenAllAheadReleased(w: World, es: seq<Event>, t: Ticket, load: seq<Event>, k: string)
    requires Reachable(w) && Possible(w, es) && WaitsThrough(w, es, t) && Releases(w, es, t) >= |Ahead(w, t)|
    requires var base := After(w, es);
             && NoLeaderHook(base) && Possible(base, load) && WaitsThrough(base, load, t)
             && Enabled(After(base, load), Start(k)) && Leads(After(base, load), k)
    ensures var before := After(After(w, es), load).hooks[k].view;
            var after := Next(After(After(w, es), load), Start(k)).hooks[k].view;
            (forall h :: !Live(before.grants, after.requests, h, t.lock)) ==>
              Get(after.grants, t.unit, t.lock) == Some(t.ts)
  {
    hide Inv, Watch, Next, Enabled, Ahead;
    ReachableInv(w);
    QueueAheadDrains(w, es, t);
    var base := After(w, es);
    assert Ahead(base, t) == {};
    RunInv(w, es);
    WaitsNow(base, load, t);
    WatchBegins(base, t);
    WatchRun(base, base, load, t);
    LoadedLeaderServes(base, After(base, load), t, k);
  }

  lemma WaitsNow(w: World, es: seq<Event>, t: Ticket)
    requires Possible(w, es) && WaitsThrough(w, es, t)
    ensures Waiting(w, t)
  {
  }
}
