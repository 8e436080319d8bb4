/**
 The data of the lock coordinator and what its operations mean, as functions on values.
 The class `Serial` is proved to compute these functions, and the protocol's steps are built from them.
 */
module Coordination {
  import opened Order
  import opened Wrappers

  /** lock name -> timestamp */
  type Locks = map<string, string>

  /** unit name -> lock name -> timestamp: the shape of both `self.grants` and `self.requests`. */
  type Table = map<string, Locks>

  /** What one hook has in memory: `self.grants` and `self.requests`. */
  datatype View = View(grants: Table, requests: Table)

  /** `t.get(u, {}).get(l)` */
  function Get(t: Table, u: string, l: string): Option<string> {
    if u in t && l in t[u] then Some(t[u][l]) else None
  }

  function Row(t: Table, u: string): Locks {
    if u in t then t[u] else map[]
  }

  /** The unit has been granted the lock under the timestamp it is asking with. */
  predicate Live(g: Table, r: Table, u: string, l: string) {
    Get(g, u, l).Some? && Get(r, u, l) == Get(g, u, l)
  }

  /** Some unit has an entry for the lock. */
  predicate Taken(t: Table, l: string) {
    exists u :: u in t && l in t[u]
  }

  /** No two units have an entry for the same lock. */
  ghost predicate Exclusive(g: Table) {
    forall u, v, l :: Get(g, u, l).Some? && Get(g, v, l).Some? ==> u == v
  }

  /** The unit heads the queue for the lock: its (timestamp, unit) pair is the least requested. */
  predicate Heads(r: Table, u: string, l: string) {
    u in r && l in r[u] &&
    forall v :: v in r && l in r[v] && v != u ==> Before(Entry(r[u][l], u), Entry(r[v][l], v))
  }

  /** The unit may be given the lock: nobody has it and the unit heads the queue. */
  predicate Wins(g: Table, r: Table, u: string, l: string) {
    !Taken(g, l) && Heads(r, u, l)
  }

  /** What `BaseCoordinator.grant` leaves in `self.grants`, on the leader. */
  function Grant(g: Table, r: Table, l: string, u: string): Table {
    if Get(g, u, l).None? && Wins(g, r, u, l) then g[u := Row(g, u)[l := r[u][l]]] else g
  }

  /** What `BaseCoordinator.grant` returns, on the leader. */
  predicate Grants(g: Table, r: Table, l: string, u: string) {
    Get(g, u, l).Some? || Wins(g, r, u, l)
  }

  /** The grants whose timestamp is still the requested one; every unit keeps its row. */
  function Kept(g: Table, r: Table): Table {
    map u | u in g :: KeptRow(g[u], Row(r, u))
  }

  function KeptRow(granted: Locks, requested: Locks): Locks {
    map l | l in granted && l in requested && requested[l] == granted[l] :: granted[l]
  }

  /** What `BaseCoordinator.handle` leaves in `self.grants`, on the leader. */
  function Handled(g: Table, r: Table): Table {
    var k := Kept(g, r);
    map u | u in k.Keys + r.Keys && (u in k || HandledRow(k, r, u) != map[]) :: HandledRow(k, r, u)
  }

  /** One unit's row of it: the locks it keeps and the free locks it heads the queue for. */
  function HandledRow(kept: Table, r: Table, u: string): Locks {
    map l | l in Row(r, u) && (l in Row(kept, u) || Wins(kept, r, u, l)) :: Row(r, u)[l]
  }

  /** `BaseCoordinator.granted` for the unit running the hook: an empty timestamp is no request. */
  predicate Granted(v: View, me: string, l: string) {
    Get(v.requests, me, l).Some? && Get(v.requests, me, l).value != "" &&
    Get(v.grants, me, l) == Get(v.requests, me, l)
  }

  /** The first half of `acquire`: record a request unless one is outstanding. */
  function Request(v: View, me: string, l: string, now: string): View
    requires me in v.requests
  {
    if Get(v.requests, me, l).Some? && v.requests[me][l] != "" then
      v
    else
      var r := if l in v.requests then v.requests else v.requests[l := map[]];
      v.(requests := r[me := r[me][l := now]])
  }

  /** The view after `acquire`. */
  function Acquire(v: View, me: string, leader: bool, l: string, now: string): View
    requires me in v.requests
  {
    var q := Request(v, me, l, now);
    if Granted(q, me, l) || !leader then q else q.(grants := Grant(q.grants, q.requests, l, me))
  }

  /** What `acquire` returns. */
  predicate Acquires(v: View, me: string, leader: bool, l: string, now: string)
    requires me in v.requests
  {
    var q := Request(v, me, l, now);
    Granted(q, me, l) || (leader && Grants(q.grants, q.requests, l, me))
  }

  /** The view after `_release_granted`. */
  function Release(v: View, me: string): View
    requires me in v.requests
  {
    v.(requests := v.requests[me := map l | l in v.requests[me] && !Granted(v, me, l) :: v.requests[me][l]])
  }

  /** Every grant in the view matches a request in the view. */
  ghost predicate Settled(v: View) {
    forall u, l :: Get(v.grants, u, l).Some? ==> Get(v.requests, u, l) == Get(v.grants, u, l)
  }

  lemma HeadsUnique(r: Table, u: string, v: string, l: string)
    requires Heads(r, u, l) && Heads(r, v, l)
    ensures u == v
  {
    if u != v {
      BeforeAsymmetric(Entry(r[u][l], u), Entry(r[v][l], v));
    }
  }

  /** A lock that is requested at all has a head of the queue. */
  lemma QueueHasHead(r: Table, l: string) returns (head: string)
    requires Taken(r, l)
    ensures Heads(r, head, l)
  {
    var entries := set u | u in r && l in r[u] :: Entry(r[u][l], u);
    var w :| w in r && l in r[w];
    assert Entry(r[w][l], w) in entries;
    var least := LeastEntry(entries);
    head := least.unit;
    forall v | v in r && l in r[v] && v != head
      ensures Before(Entry(r[head][l], head), Entry(r[v][l], v))
    {
      assert Entry(r[v][l], v) in entries;
    }
  }

  lemma GetKept(g: Table, r: Table, u: string, l: string)
    ensures Get(Kept(g, r), u, l) == if Live(g, r, u, l) then Get(g, u, l) else None
  {
  }

  lemma TakenKept(g: Table, r: Table, l: string)
    ensures Taken(Kept(g, r), l) <==> exists u :: Live(g, r, u, l)
  {
    if u :| Live(g, r, u, l) {
      GetKept(g, r, u, l);
    }
    if Taken(Kept(g, r), l) {
      var u :| u in Kept(g, r) && l in Kept(g, r)[u];
      GetKept(g, r, u, l);
      assert Live(g, r, u, l);
    }
  }

  lemma GetHandled(g: Table, r: Table, u: string, l: string)
    ensures Get(Handled(g, r), u, l) ==
            if Get(Kept(g, r), u, l).Some? || Wins(Kept(g, r), r, u, l) then Get(r, u, l) else None
  {
    GetKept(g, r, u, l);
  }

  /** Two tables are equal when they answer every lookup alike and have empty rows for the same units only. */
  lemma TableByLookup(a: Table, b: Table, common: set<string>)
    requires forall u, l :: Get(a, u, l) == Get(b, u, l)
    requires common <= a.Keys && common <= b.Keys
    requires forall u :: u in a && u !in common ==> a[u] != map[]
    requires forall u :: u in b && u !in common ==> b[u] != map[]
    ensures a == b
  {
    forall u
      ensures u in a <==> u in b
      ensures u in a ==> a[u] == b[u]
    {
      RowByLookup(a, b, u);
    }
  }

  /**
   What a leader's `handle` decides, without reference to how it iterates: a live holder keeps the lock;
   if there is none the head of the queue gets it; nobody else has it.
   */
  lemma HandleDecides(g: Table, r: Table, u: string, l: string)
    ensures Get(Handled(g, r), u, l) ==
            if Live(g, r, u, l) then Get(g, u, l)
            else if (forall v :: !Live(g, r, v, l)) && Heads(r, u, l) then Get(r, u, l)
            else None
  {
    GetKept(g, r, u, l);
    TakenKept(g, r, l);
  }

  /** After `handle` every grant carries the requested timestamp. */
  lemma HandleSettles(g: Table, r: Table)
    ensures Settled(View(Handled(g, r), r))
  {
    forall u, l | Get(Handled(g, r), u, l).Some?
      ensures Get(r, u, l) == Get(Handled(g, r), u, l)
    {
      HandleDecides(g, r, u, l);
    }
  }

  lemma HandleExclusive(g: Table, r: Table)
    requires Exclusive(g)
    ensures Exclusive(Handled(g, r))
  {
    forall u, v, l | Get(Handled(g, r), u, l).Some? && Get(Handled(g, r), v, l).Some?
      ensures u == v
    {
      HandleDecides(g, r, u, l);
      HandleDecides(g, r, v, l);
      if Heads(r, u, l) && Heads(r, v, l) {
        HeadsUnique(r, u, v, l);
      }
    }
  }

  /** After `handle` a lock is held exactly when somebody requests it. */
  lemma HandleServes(g: Table, r: Table, l: string)
    ensures Taken(Handled(g, r), l) <==> Taken(r, l)
  {
    if Taken(r, l) {
      var head := QueueHasHead(r, l);
      if u :| Live(g, r, u, l) {
        HandleDecides(g, r, u, l);
      } else {
        HandleDecides(g, r, head, l);
      }
    }
    if Taken(Handled(g, r), l) {
      var u :| u in Handled(g, r) && l in Handled(g, r)[u];
      HandleDecides(g, r, u, l);
    }
  }

  /** Two request tables that answer every lookup alike are handled alike, so empty rows never matter. */
  lemma HandleIgnoresEmptyRows(g: Table, r: Table, s: Table)
    requires forall u, l :: Get(r, u, l) == Get(s, u, l)
    ensures Handled(g, r) == Handled(g, s)
  {
    KeptByLookup(g, r, s);
    forall u
      ensures u in Handled(g, r) <==> u in Handled(g, s)
      ensures u in Handled(g, r) ==> Handled(g, r)[u] == Handled(g, s)[u]
    {
      HandledRowByLookup(Kept(g, r), r, s, u);
      if u !in r || u !in s {
        RowByLookup(r, s, u);
      }
    }
  }

  lemma KeptByLookup(g: Table, r: Table, s: Table)
    requires forall u, l :: Get(r, u, l) == Get(s, u, l)
    ensures Kept(g, r) == Kept(g, s)
  {
    forall u | u in g
      ensures Kept(g, r)[u] == Kept(g, s)[u]
    {
      RowByLookup(r, s, u);
    }
  }

  lemma HandledRowByLookup(k: Table, r: Table, s: Table, u: string)
    requires forall v, l :: Get(r, v, l) == Get(s, v, l)
    ensures HandledRow(k, r, u) == HandledRow(k, s, u)
  {
    RowByLookup(r, s, u);
    forall l
      ensures Wins(k, r, u, l) <==> Wins(k, s, u, l)
    {
      HeadsByLookup(r, s, u, l);
    }
  }

  lemma RowByLookup(r: Table, s: Table, u: string)
    requires forall l :: Get(r, u, l) == Get(s, u, l)
    ensures Row(r, u) == Row(s, u)
  {
    forall l
      ensures l in Row(r, u) <==> l in Row(s, u)
      ensures l in Row(r, u) ==> Row(r, u)[l] == Row(s, u)[l]
    {
      assert Get(r, u, l) == Get(s, u, l);
    }
  }

  lemma HeadsByLookup(r: Table, s: Table, u: string, l: string)
    requires forall v :: Get(r, v, l) == Get(s, v, l)
    ensures Heads(r, u, l) <==> Heads(s, u, l)
  {
    assert Get(r, u, l) == Get(s, u, l);
    forall v
      ensures v in r && l in r[v] <==> v in s && l in s[v]
      ensures v in r && l in r[v] ==> r[v][l] == s[v][l]
    {
      assert Get(r, v, l) == Get(s, v, l);
    }
  }

  lemma GrantDecides(g: Table, r: Table, l: string, u: string, v: string, k: string)
    ensures Get(Grant(g, r, l, u), v, k) ==
            if v == u && k == l && Get(g, u, l).None? && Wins(g, r, u, l) then Get(r, u, l) else Get(g, v, k)
  {
  }

  lemma GrantExclusive(g: Table, r: Table, l: string, u: string)
    requires Exclusive(g)
    ensures Exclusive(Grant(g, r, l, u))
  {
    var h := Grant(g, r, l, u);
    forall v, w, k | Get(h, v, k).Some? && Get(h, w, k).Some?
      ensures v == w
    {
      GrantDecides(g, r, l, u, v, k);
      GrantDecides(g, r, l, u, w, k);
    }
  }

  /** The lookups of a view after a request: only the requester's own entry can have changed. */
  lemma RequestLookups(v: View, me: string, l: string, now: string, u: string, k: string)
    requires me in v.requests
    ensures Get(Request(v, me, l, now).requests, u, k) ==
            if u == me && k == l && (Get(v.requests, me, l).None? || v.requests[me][l] == "") then Some(now)
            else Get(v.requests, u, k)
  {
  }

  /**
   The contract of `acquire`: where a leader's grants match its requests, `acquire` returns True
   exactly when `granted` holds afterwards, and the match is kept.
   */
  lemma AcquireReports(v: View, me: string, leader: bool, l: string, now: string)
    requires me in v.requests && now != "" && Get(v.requests, me, l) != Some("")
    requires leader ==> Settled(v)
    ensures Acquires(v, me, leader, l, now) <==> Granted(Acquire(v, me, leader, l, now), me, l)
  {
    var q := Request(v, me, l, now);
    RequestLookups(v, me, l, now, me, l);
    if leader && !Granted(q, me, l) {
      GrantDecides(q.grants, q.requests, l, me, me, l);
    }
  }

  lemma AcquireKeepsSettled(v: View, me: string, leader: bool, l: string, now: string)
    requires me in v.requests && Get(v.requests, me, l) != Some("") && Settled(v)
    ensures Settled(Acquire(v, me, leader, l, now))
  {
    var q := Request(v, me, l, now);
    forall u, k | Get(Acquire(v, me, leader, l, now).grants, u, k).Some?
      ensures Get(q.requests, u, k) == Get(Acquire(v, me, leader, l, now).grants, u, k)
    {
      RequestLookups(v, me, l, now, u, k);
      GrantDecides(q.grants, q.requests, l, me, u, k);
    }
  }
}
