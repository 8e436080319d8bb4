/** What `acquire` promises over a whole hook, however often and for whatever locks it is called. */
module AcquireContract {
  import opened Coordination
  import opened Lifecycle
  import opened Protocol
  import opened Wrappers

  /** The time of the first call for the lock. */
  function FirstAsk(asks: seq<Asking>, l: string): Option<string> {
    if asks == [] then None
    else if asks[0].lock == l then Some(asks[0].now)
    else FirstAsk(asks[1..], l)
  }

  predicate Stamped(asks: seq<Asking>) {
    forall a :: a in asks ==> a.now != ""
  }

  /** The unit has an outstanding request: a lookup that is not empty. */
  predicate Outstanding(v: View, me: string, l: string) {
    Get(v.requests, me, l).Some? && Get(v.requests, me, l).value != ""
  }

  /**
   The request timestamp after any calls: an outstanding request keeps the timestamp it had when the hook
   started; otherwise the first call for the lock sets it and later calls do not change it.
   */
  lemma {:induction false} FirstTimestampStays(v: View, me: string, leader: bool, asks: seq<Asking>, l: string)
    requires me in v.requests && Stamped(asks)
    ensures Get(AskAll(v, me, leader, asks).requests, me, l) ==
            if Outstanding(v, me, l) || FirstAsk(asks, l).None? then Get(v.requests, me, l) else FirstAsk(asks, l)
    decreases |asks|
  {
    if asks != [] {
      var a := asks[0];
      assert a in asks && forall x :: x in asks[1..] ==> x in asks;
      RequestLookups(v, me, a.lock, a.now, me, l);
      FirstTimestampStays(Acquire(v, me, leader, a.lock, a.now), me, leader, asks[1..], l);
    }
  }

  lemma AcquireKeepsGranted(v: View, me: string, leader: bool, l: string, now: string, held: string)
    requires me in v.requests && Granted(v, me, held)
    ensures Granted(Acquire(v, me, leader, l, now), me, held)
  {
    var q := Request(v, me, l, now);
    RequestLookups(v, me, l, now, me, held);
    GrantDecides(q.grants, q.requests, l, me, me, held);
  }

  /** A lock that is held stays held until the hook ends, whatever else the hook asks for. */
  lemma {:induction false} HeldUntilTheEnd(v: View, me: string, leader: bool, asks: seq<Asking>, l: string)
    requires me in v.requests && Granted(v, me, l)
    ensures Granted(AskAll(v, me, leader, asks), me, l)
    decreases |asks|
  {
    if asks != [] {
      AcquireKeepsGranted(v, me, leader, asks[0].lock, asks[0].now, l);
      HeldUntilTheEnd(Acquire(v, me, leader, asks[0].lock, asks[0].now), me, leader, asks[1..], l);
    }
  }

  /** In every hook of every run, `acquire` returns True exactly when its unit holds the lock afterwards. */
  lemma AcquireReportsHolding(w: World, u: string, l: string, now: string)
    requires Inv(w) && Enabled(w, Ask(u, l, now))
    ensures Acquires(w.hooks[u].view, u, Leads(w, u), l, now) <==> Holds(Next(w, Ask(u, l, now)), u, l)
  {
    hide Inv, OwnRequests, OwnLoading, Overlooks, Stranded, Unseen, LiveNow;
    var v := w.hooks[u].view;
    HookIsOk(w, u);
    HookKnows(w, u, u, l);
    hide Acquires, Acquire, Settled;
    AcquireReports(v, u, Leads(w, u), l, now);
  }

  /** A unit that does not lead acquires exactly what was granted to it before the hook. */
  lemma {:induction false} OthersOnlyCollect(v: View, me: string, asks: seq<Asking>, l: string)
    requires me in v.requests && Stamped(asks) && (forall a :: a in asks ==> Get(v.grants, me, a.lock) != Some(a.now))
    ensures AskAll(v, me, false, asks).grants == v.grants
    ensures Granted(AskAll(v, me, false, asks), me, l) <==> Granted(v, me, l)
    decreases |asks|
  {
    if asks != [] {
      var a := asks[0];
      assert a in asks && forall x :: x in asks[1..] ==> x in asks;
      RequestLookups(v, me, a.lock, a.now, me, l);
      OthersOnlyCollect(Acquire(v, me, false, a.lock, a.now), me, asks[1..], l);
    }
  }

  /** The end of the hook gives up exactly the granted locks and keeps every other request as it is. */
  lemma ReleaseGivesUpGranted(v: View, me: string, l: string)
    requires me in v.requests
    ensures Get(Release(v, me).requests, me, l) == if Granted(v, me, l) then None else Get(v.requests, me, l)
    ensures !Granted(Release(v, me), me, l)
  {
  }

  // ----- `acquire` also adds an empty row named after the lock; a tidy `acquire` would not -----

  function TidyRequest(v: View, me: string, l: string, now: string): View
    requires me in v.requests
  {
    if Outstanding(v, me, l) then v else v.(requests := v.requests[me := v.requests[me][l := now]])
  }

  function TidyAcquire(v: View, me: string, leader: bool, l: string, now: string): View
    requires me in v.requests
  {
    var q := TidyRequest(v, me, l, now);
    if Granted(q, me, l) || !leader then q else q.(grants := Grant(q.grants, q.requests, l, me))
  }

  function TidyAskAll(v: View, me: string, leader: bool, asks: seq<Asking>): (r: View)
    requires me in v.requests
    ensures me in r.requests
    decreases |asks|
  {
    if asks == [] then v
    else TidyAskAll(TidyAcquire(v, me, leader, asks[0].lock, asks[0].now), me, leader, asks[1..])
  }

  /** Same grants, same own requests, same answer to every lookup. */
  ghost predicate Alike(v: View, x: View, me: string) {
    && me in v.requests && me in x.requests && v.requests[me] == x.requests[me]
    && v.grants == x.grants
    && (forall u, l :: Get(v.requests, u, l) == Get(x.requests, u, l))
  }

  lemma RequestAlike(v: View, x: View, me: string, l: string, now: string)
    requires Alike(v, x, me)
    ensures Alike(Request(v, me, l, now), TidyRequest(x, me, l, now), me)
  {
    var p, q := Request(v, me, l, now), TidyRequest(x, me, l, now);
    assert Get(v.requests, me, l) == Get(x.requests, me, l);
    forall u, m
      ensures Get(p.requests, u, m) == Get(q.requests, u, m)
    {
      RequestLookups(v, me, l, now, u, m);
      assert Get(v.requests, u, m) == Get(x.requests, u, m);
    }
  }

  lemma AcquireAlike(v: View, x: View, me: string, leader: bool, l: string, now: string)
    requires Alike(v, x, me)
    ensures Alike(Acquire(v, me, leader, l, now), TidyAcquire(x, me, leader, l, now), me)
  {
    hide Request, TidyRequest, Heads;
    var p, q := Request(v, me, l, now), TidyRequest(x, me, l, now);
    RequestAlike(v, x, me, l, now);
    HeadsByLookup(p.requests, q.requests, me, l);
  }

  lemma {:induction false} AskAllAlike(v: View, x: View, me: string, leader: bool, asks: seq<Asking>)
    requires Alike(v, x, me)
    ensures Alike(AskAll(v, me, leader, asks), TidyAskAll(x, me, leader, asks), me)
    decreases |asks|
  {
    if asks != [] {
      var a := asks[0];
      AcquireAlike(v, x, me, leader, a.lock, a.now);
      AskAllAlike(Acquire(v, me, leader, a.lock, a.now), TidyAcquire(x, me, leader, a.lock, a.now), me, leader, asks[1..]);
    }
  }

  /**
   The stray row is harmless: a hook decides every grant, and writes to leader settings, to the relation and to
   the local file, exactly what it would without the stray rows.
   */
  lemma StrayRowsNeverShow(v: View, me: string, leader: bool, relid: bool, asks: seq<Asking>)
    requires me in v.requests
    ensures var tidy := TidyAskAll(v, me, leader, asks);
            var row := Release(tidy, me).requests[me];
            Writes(v, me, leader, relid, asks) ==
              Saved(if leader then Some(tidy.grants) else None, if relid then None else Some(row), if relid then Some(row) else None)
    ensures forall u, l :: Get(AskAll(v, me, leader, asks).requests, u, l) ==
                           Get(TidyAskAll(v, me, leader, asks).requests, u, l)
  {
    AskAllAlike(v, v, me, leader, asks);
    var a, b := AskAll(v, me, leader, asks), TidyAskAll(v, me, leader, asks);
    assert forall l :: Granted(a, me, l) <==> Granted(b, me, l);
    assert Release(a, me).requests[me] == Release(b, me).requests[me];
  }
}
