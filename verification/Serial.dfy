/** The coordinator object of one hook: `BaseCoordinator` with `Serial`'s grant rule. */
module Coordinator {
  import opened Coordination
  import opened Order
  import opened Wrappers

  /** `Serial.default_grant`: first come, first served, one holder at a time. */
  predicate DefaultGrant(unit: string, granted: set<string>, queue: seq<string>)
    requires unit in queue
  {
    unit == queue[0] && granted == {}
  }

  /** The requests read from the peer relation, given what each `relation_get` answered. */
  function PeerRequests(answers: map<string, Option<Locks>>): Table {
    map u | u in answers && answers[u].Some? :: answers[u].value
  }

  /** One iteration of `_load_peer_state`. */
  function AddAnswer(requests: Table, u: string, answer: Option<Locks>): Table {
    if answer.Some? then requests[u := answer.value] else requests
  }

  /** `g` is what the kept grants `k` become once the requests in `done` have been considered. */
  ghost predicate SoFar(k: Table, r: Table, done: set<(string, string)>, g: Table) {
    && (forall u, l :: Get(g, u, l) == if Get(k, u, l).None? && (u, l) in done && Wins(k, r, u, l) then Get(r, u, l)
                                       else Get(k, u, l))
    && k.Keys <= g.Keys
    && (forall u :: u in g && u !in k ==> g[u] != map[])
  }

  /** Considering one more request does to the grants what `grant` does. */
  lemma SoFarStep(k: Table, r: Table, done: set<(string, string)>, g: Table, u: string, l: string)
    requires u in r && l in r[u] && SoFar(k, r, done, g)
    ensures SoFar(k, r, done + {(u, l)}, Grant(g, r, l, u))
  {
    var h := Grant(g, r, l, u);
    forall v, m
      ensures Get(h, v, m) == if Get(k, v, m).None? && (v, m) in done + {(u, l)} && Wins(k, r, v, m) then Get(r, v, m)
                              else Get(k, v, m)
    {
      GrantDecides(g, r, l, u, v, m);
      if v == u && m == l {
        SoFarFree(k, r, done, g, u, l);
      }
    }
    assert forall v :: v in h && v !in g ==> v == u && l in h[v];
  }

  /** A lock that is still free so far was free to begin with, and its winner has not been considered. */
  lemma SoFarFree(k: Table, r: Table, done: set<(string, string)>, g: Table, u: string, l: string)
    requires SoFar(k, r, done, g)
    ensures Wins(g, r, u, l) <==> Wins(k, r, u, l) && (u, l) !in done
  {
    if Taken(k, l) {
      var v :| v in k && l in k[v];
      assert Get(k, v, l).Some?;
      assert Get(g, v, l).Some?;
    } else if Heads(r, u, l) {
      if (u, l) in done {
        assert Get(k, u, l).None?;
        assert Get(g, u, l).Some?;
      } else if Taken(g, l) {
        var v :| v in g && l in g[v];
        assert Get(g, v, l).Some?;
        assert Get(k, v, l).None?;
        HeadsUnique(r, u, v, l);
      }
    }
  }

  lemma SoFarFinishes(before: Table, r: Table, done: set<(string, string)>, g: Table)
    requires SoFar(Kept(before, r), r, done, g)
    requires forall u, l :: u in r && l in r[u] ==> (u, l) in done
    ensures g == Handled(before, r)
  {
    var k := Kept(before, r);
    forall u, l
      ensures Get(g, u, l) == Get(Handled(before, r), u, l)
    {
      GetHandled(before, r, u, l);
    }
    TableByLookup(g, Handled(before, r), k.Keys);
  }

  /** The units' requests for the lock are in the strict order of (timestamp, unit). */
  predicate InOrder(r: Table, queue: seq<string>, l: string) {
    forall i, j :: 0 <= i < j < |queue| && queue[i] in r && l in r[queue[i]] && queue[j] in r && l in r[queue[j]] ==>
      Before(Entry(r[queue[i]][l], queue[i]), Entry(r[queue[j]][l], queue[j]))
  }

  lemma GrantedAlike(v: View, x: View, me: string, l: string)
    requires v.grants == x.grants && Get(v.requests, me, l) == Get(x.requests, me, l)
    ensures Granted(v, me, l) <==> Granted(x, me, l)
  {
  }

  class Serial {
    const unit: string
    const leader: bool
    var ready: bool
    var relid: bool
    var grants: Table
    var requests: Table

    constructor (unit: string, leader: bool)
      ensures this.unit == unit && this.leader == leader && !ready
    {
      this.unit, this.leader := unit, leader;
      ready, relid, grants, requests := false, false, map[], map[];
    }

    ghost predicate Valid()
      reads this
    {
      ready && unit in requests
    }

    function State(): View
      reads this
    {
      View(grants, requests)
    }

    /** `initialize` with `_load_state`; a coordinator that is already initialized is left alone. */
    method Initialize(relid: bool, settings: Table, answers: map<string, Option<Locks>>, localState: Locks)
      requires relid ==> unit in answers
      requires ready ==> Valid()
      modifies this
      ensures Valid()
      ensures old(ready) ==> State() == old(State()) && this.relid == old(this.relid)
      ensures !old(ready) ==>
                && this.relid == relid
                && grants == settings
                && requests == if !relid then map[unit := localState]
                               else if answers[unit].Some? then PeerRequests(answers)
                               else PeerRequests(answers)[unit := localState]
    {
      if ready {
        return;
      }
      this.relid := relid;
      grants := settings;
      if !relid {
        requests := map[unit := localState];
      } else {
        requests := LoadPeerState(answers);
        if unit !in requests {
          requests := requests[unit := localState];
        }
      }
      ready := true;
    }

    /** `_load_peer_state`: one `relation_get` for each unit, in any order. */
    method LoadPeerState(answers: map<string, Option<Locks>>) returns (r: Table)
      ensures r == PeerRequests(answers)
    {
      r := map[];
      var todo := answers.Keys;
      while todo != {}
        invariant todo <= answers.Keys
        invariant r == PeerRequests(map u | u in answers && u !in todo :: answers[u])
      {
        var u :| u in todo;
        r := AddAnswer(r, u, answers[u]);
        todo := todo - {u};
      }
      assert (map u | u in answers && u !in todo :: answers[u]) == answers;
    }

    /** `granted` */
    method IsGranted(lock: string) returns (b: bool)
      requires Valid()
      ensures b == Granted(State(), unit, lock)
      ensures b <==> && lock in requests[unit] && requests[unit][lock] != ""
                     && unit in grants && lock in grants[unit] && grants[unit][lock] == requests[unit][lock]
    {
      if lock !in requests[unit] {
        return false;
      }
      var ts := requests[unit][lock];
      b := ts != "" && unit in grants && lock in grants[unit] && grants[unit][lock] == ts;
    }

    /** `acquire`, where `now` is the timestamp a new request would get. */
    method AcquireLock(lock: string, now: string) returns (b: bool)
      requires Valid()
      modifies this`grants, this`requests
      ensures Valid()
      ensures State() == Acquire(old(State()), unit, leader, lock, now)
      ensures b == Acquires(old(State()), unit, leader, lock, now)
    {
      if lock !in requests[unit] || requests[unit][lock] == "" {
        if lock !in requests {
          requests := requests[lock := map[]];
        }
        requests := requests[unit := requests[unit][lock := now]];
      }
      var mine := IsGranted(lock);
      if mine {
        return true;
      }
      if leader {
        b := GrantLock(lock, unit);
        return;
      }
      return false;
    }

    /** `grant` */
    method GrantLock(lock: string, u: string) returns (b: bool)
      requires Valid()
      modifies this`grants
      ensures leader ==> grants == Grant(old(grants), requests, lock, u) && b == Grants(old(grants), requests, lock, u)
      ensures !leader ==> grants == old(grants) && !b
    {
      if !leader {
        return false;
      }
      var granted := UnitsGranted(lock);
      if u in granted {
        return true;
      }
      var queue := Queue(lock, granted);
      if u !in queue {
        return false;
      }
      if DefaultGrant(u, granted, queue) {
        assert !Taken(grants, lock) by {
          assert forall v :: v in grants && lock in grants[v] ==> v in granted;
        }
        grants := grants[u := Row(grants, u)[lock := requests[u][lock]]];
        return true;
      }
      if Wins(grants, requests, u, lock) {
        HeadsUnique(requests, u, queue[0], lock);
      }
      return false;
    }

    /** The set of units already granted the lock. */
    method UnitsGranted(lock: string) returns (granted: set<string>)
      ensures granted == set v | v in grants && lock in grants[v]
    {
      granted := {};
      var todo := grants.Keys;
      while todo != {}
        invariant todo <= grants.Keys
        invariant granted == set v | v in grants && v !in todo && lock in grants[v]
      {
        var v :| v in todo;
        if lock in grants[v] {
          granted := granted + {v};
        }
        todo := todo - {v};
      }
    }

    /** The units waiting for the lock, ordered by time of request. */
    method Queue(lock: string, granted: set<string>) returns (queue: seq<string>)
      ensures forall v :: v in queue <==> v in requests && lock in requests[v] && v !in granted
      ensures InOrder(requests, queue, lock)
      ensures granted == {} && queue != [] ==> Heads(requests, queue[0], lock)
    {
      var reqs: set<Entry> := {};
      var todo := requests.Keys;
      while todo != {}
        invariant todo <= requests.Keys
        invariant reqs == set v | v in requests && v !in todo && v !in granted && lock in requests[v]
                            :: Entry(requests[v][lock], v)
      {
        var v :| v in todo;
        if v !in granted && lock in requests[v] {
          reqs := reqs + {Entry(requests[v][lock], v)};
        }
        todo := todo - {v};
      }
      var entries := Sorted(reqs);
      queue := seq(|entries|, i requires 0 <= i < |entries| => entries[i].unit);
      forall v
        ensures v in queue <==> v in requests && lock in requests[v] && v !in granted
      {
        if v in queue {
          var i :| 0 <= i < |queue| && queue[i] == v;
          assert entries[i] in reqs;
        }
        if v in requests && lock in requests[v] && v !in granted {
          assert Entry(requests[v][lock], v) in reqs;
          var i :| 0 <= i < |entries| && entries[i] == Entry(requests[v][lock], v);
          assert queue[i] == v;
        }
      }
      forall i | 0 <= i < |queue|
        ensures queue[i] in requests && lock in requests[queue[i]] && entries[i] == Entry(requests[queue[i]][lock], queue[i])
      {
        assert entries[i] in reqs;
      }
      if granted == {} && queue != [] {
        assert entries[0] in reqs;
        forall v | v in requests && lock in requests[v] && v != queue[0]
          ensures Before(entries[0], Entry(requests[v][lock], v))
        {
          assert Entry(requests[v][lock], v) in reqs;
        }
      }
    }

    /** `handle`: first every released grant is cleared, then every request is considered, in any order. */
    method Handle()
      requires Valid()
      modifies this`grants
      ensures grants == if leader then Handled(old(grants), requests) else old(grants)
    {
      if !leader {
        return;
      }
      ghost var before := grants;
      var todo := grants.Keys;
      while todo != {}
        invariant grants.Keys == before.Keys && todo <= before.Keys
        invariant forall u :: u in before ==>
                                grants[u] == if u in todo then before[u] else KeptRow(before[u], Row(requests, u))
      {
        var u :| u in todo;
        ClearReleased(u);
        todo := todo - {u};
      }
      assert grants == Kept(before, requests);
      GrantRequests(before);
    }

    /** The inner loop of `handle` over one unit's grants. */
    method ClearReleased(u: string)
      requires u in grants
      modifies this`grants
      ensures grants == old(grants)[u := KeptRow(old(grants)[u], Row(requests, u))]
    {
      ghost var before := grants;
      var items := grants[u].Keys;
      while items != {}
        invariant u in grants && items <= before[u].Keys
        invariant grants == before[u := grants[u]]
        invariant grants[u] == map l | l in before[u] && (l in items || l in KeptRow(before[u], Row(requests, u)))
                                 :: before[u][l]
      {
        var lock :| lock in items;
        if Get(requests, u, lock) != Some(grants[u][lock]) {
          grants := grants[u := grants[u] - {lock}];
        }
        items := items - {lock};
      }
      assert grants[u] == KeptRow(before[u], Row(requests, u));
    }

    /** The second loop of `handle`. */
    method GrantRequests(ghost before: Table)
      requires Valid() && leader && grants == Kept(before, requests)
      modifies this`grants
      ensures grants == Handled(before, requests)
    {
      ghost var k := grants;
      ghost var done: set<(string, string)> := {};
      var todo := requests.Keys;
      while todo != {}
        invariant todo <= requests.Keys
        invariant SoFar(k, requests, done, grants)
        invariant forall u, l :: u in requests && u !in todo && l in requests[u] ==> (u, l) in done
      {
        var u :| u in todo;
        var locks := requests[u].Keys;
        while locks != {}
          invariant locks <= requests[u].Keys
          invariant SoFar(k, requests, done, grants)
          invariant forall v, l :: v in requests && v !in todo && l in requests[v] ==> (v, l) in done
          invariant forall l :: l in requests[u] && l !in locks ==> (u, l) in done
        {
          var lock :| lock in locks;
          SoFarStep(k, requests, done, grants, u, lock);
          var _ := GrantLock(lock, u);
          done := done + {(u, lock)};
          locks := locks - {lock};
        }
        todo := todo - {u};
      }
      SoFarFinishes(before, requests, done, grants);
    }

    /** `_release_granted` */
    method ReleaseGranted()
      requires Valid()
      modifies this`requests
      ensures Valid()
      ensures State() == Release(old(State()), unit)
    {
      hide Granted;
      ghost var before := State();
      var items := requests[unit].Keys;
      while items != {}
        invariant Valid() && items <= before.requests[unit].Keys
        invariant requests == before.requests[unit := requests[unit]]
        invariant requests[unit] == map l | l in before.requests[unit] && (l in items || !Granted(before, unit, l))
                                      :: before.requests[unit][l]
      {
        var lock :| lock in items;
        var mine := IsGranted(lock);
        GrantedAlike(State(), before, unit, lock);
        if mine {
          requests := requests[unit := requests[unit] - {lock}];
        }
        items := items - {lock};
      }
      assert requests[unit] == Release(before, unit).requests[unit];
    }

    /** `_save_state`: what is written to leader settings, to the local file and to the peer relation. */
    method SaveState() returns (leaderSet: Option<Table>, localFile: Option<Locks>, relationSet: Option<Locks>)
      requires Valid()
      ensures leaderSet == if leader then Some(grants) else None
      ensures localFile == if relid then None else Some(requests[unit])
      ensures relationSet == if relid then Some(requests[unit]) else None
    {
      leaderSet, localFile, relationSet := None, None, None;
      if leader {
        leaderSet := Some(grants);
      }
      if !relid {
        localFile := Some(requests[unit]);
      } else {
        relationSet := Some(requests[unit]);
      }
    }
  }
}
