/** What the locks give the charm: restarts, package upgrades and cluster joins that never overlap across units. */
module Restarts {
  import opened AcquireContract
  import opened Coordination
  import opened Coordinator
  import opened Lifecycle
  import opened Protocol
  import opened Refinement
  import opened Wrappers

  const RESTART := "restart"
  const PKG_UPGRADE := "pkg_upgrade"
  const CLUSTER := "cluster"
  const LOCKS := {RESTART, PKG_UPGRADE, CLUSTER}

  /**
   What a decorated function comes to: whether the unit is paused, whether the function changed a watched file,
   whether it runs in the deferred-hooks action, and the time of the request it may make.
   */
  datatype Change = Change(paused: bool, changed: bool, inAction: bool, now: string)

  predicate Asks(c: Change) {
    !c.paused && c.changed && !c.inAction
  }

  /** The coordinator's view after the decorator. */
  function AfterChange(v: View, me: string, leader: bool, c: Change): (r: View)
    requires me in v.requests
    ensures me in r.requests
  {
    if Asks(c) then Acquire(v, me, leader, RESTART, c.now) else v
  }

  /** One run of a function that a lock guards: the coordinator's view at that moment, and whether the lock was passed over. */
  datatype Run = Run(lock: string, view: View, forced: bool)

  predicate Ran(runs: seq<Run>, k: string) {
    exists x :: x in runs && x.lock == k
  }

  function Times(runs: seq<Run>, k: string): nat {
    if runs == [] then 0 else (if runs[0].lock == k then 1 else 0) + Times(runs[1..], k)
  }

  /** The restarts that the decorator runs. */
  function ChangeRuns(v: View, me: string, leader: bool, c: Change): seq<Run>
    requires me in v.requests
  {
    if c.paused || !c.changed then []
    else if c.inAction then [Run(RESTART, v, true)]
    else if Acquires(v, me, leader, RESTART, c.now) then [Run(RESTART, AfterChange(v, me, leader, c), false)]
    else []
  }

  /** The unit's request for a restart is no empty text, and a leader's grants match its requests. */
  ghost predicate Sane(v: View, me: string, leader: bool) {
    me in v.requests && Get(v.requests, me, RESTART) != Some("") && (leader ==> Settled(v))
  }

  lemma ChangeKeepsSane(v: View, me: string, leader: bool, c: Change)
    requires Sane(v, me, leader) && c.now != ""
    ensures Sane(AfterChange(v, me, leader, c), me, leader)
  {
    RequestLookups(v, me, RESTART, c.now, me, RESTART);
    if leader {
      AcquireKeepsSettled(v, me, leader, RESTART, c.now);
    }
  }

  /**
   What a decorated function takes and runs: no lock but the restart's, none is given up, and a restart runs, once,
   under the lock or in the deferred-hooks action.
   */
  lemma ChangeRunsWhatItTakes(v: View, me: string, leader: bool, c: Change, k: string)
    requires Sane(v, me, leader) && c.now != ""
    ensures var w, runs := AfterChange(v, me, leader, c), ChangeRuns(v, me, leader, c);
            && (Granted(v, me, k) ==> Granted(w, me, k))
            && (Granted(w, me, k) && !Granted(v, me, k) ==> k == RESTART && Ran(runs, k))
            && (forall x :: x in runs ==> x.lock == RESTART && x.view == w)
            && (c.paused || !c.changed ==> runs == [] && w == v)
            && (!c.paused && c.changed && c.inAction ==> |runs| == 1 && runs[0].forced && w == v)
            && (!c.paused && c.changed && !c.inAction ==>
                  |runs| == (if Granted(w, me, RESTART) then 1 else 0) && forall x :: x in runs ==> !x.forced)
  {
    if Asks(c) {
      var q := Request(v, me, RESTART, c.now);
      AcquireReports(v, me, leader, RESTART, c.now);
      RequestLookups(v, me, RESTART, c.now, me, k);
      GrantDecides(q.grants, q.requests, RESTART, me, me, k);
      assert Granted(AfterChange(v, me, leader, c), me, RESTART) ==>
               Run(RESTART, AfterChange(v, me, leader, c), false) in ChangeRuns(v, me, leader, c);
    }
  }

  /** The view after `check_coordinated_functions`, and what it runs: upgrade, join and restart, each under its lock. */
  function AfterCheck(v: View, me: string, leader: bool, c: Change): (r: View)
    requires me in v.requests
    ensures me in r.requests
  {
    if Granted(v, me, PKG_UPGRADE) then AfterChange(v, me, leader, c) else v
  }

  function CheckRuns(v: View, me: string, leader: bool, c: Change): seq<Run>
    requires me in v.requests
  {
    var w := AfterCheck(v, me, leader, c);
    (if Granted(v, me, PKG_UPGRADE) then [Run(PKG_UPGRADE, v, false)] + ChangeRuns(v, me, leader, c) else []) +
    (if Granted(w, me, CLUSTER) then [Run(CLUSTER, w, false)] else []) +
    (if Granted(w, me, RESTART) then [Run(RESTART, w, false)] else [])
  }

  lemma LocksDiffer()
    ensures RESTART != PKG_UPGRADE && RESTART != CLUSTER && PKG_UPGRADE != CLUSTER
  {
    assert |PKG_UPGRADE| == 11 && |RESTART| == 7 && |CLUSTER| == 7 && RESTART[0] != CLUSTER[0];
  }

  lemma {:induction false} TimesAppend(a: seq<Run>, b: seq<Run>, k: string)
    ensures Times(a + b, k) == Times(a, k) + Times(b, k)
  {
    if a == [] {
      assert a + b == b;
    } else {
      assert (a + b)[1..] == a[1..] + b;
      TimesAppend(a[1..], b, k);
    }
  }

  lemma {:induction false} TimesOther(a: seq<Run>, k: string)
    requires forall x :: x in a ==> x.lock != k
    ensures Times(a, k) == 0
  {
    if a != [] {
      assert a[0] in a && forall x :: x in a[1..] ==> x in a;
      TimesOther(a[1..], k);
    }
  }

  lemma TimesOne(x: Run, k: string)
    ensures Times([x], k) == if x.lock == k then 1 else 0
    ensures Times([], k) == 0
  {
    assert [x][1..] == [];
  }

  /** The check gives nothing up, and has run all that is held after it. */
  lemma CheckRunsWhatIsHeld(v: View, me: string, leader: bool, c: Change, k: string)
    requires me in v.requests && Sane(v, me, leader) && c.now != ""
    ensures Sane(AfterCheck(v, me, leader, c), me, leader)
    ensures Granted(v, me, k) ==> Granted(AfterCheck(v, me, leader, c), me, k)
    ensures k != RESTART ==> (Granted(AfterCheck(v, me, leader, c), me, k) <==> Granted(v, me, k))
    ensures k in LOCKS && Granted(AfterCheck(v, me, leader, c), me, k) ==> Ran(CheckRuns(v, me, leader, c), k)
  {
    hide Granted, AfterChange, ChangeRuns, Sane;
    LocksDiffer();
    ChangeKeepsSane(v, me, leader, c);
    ChangeRunsWhatItTakes(v, me, leader, c, k);
    var runs, w := CheckRuns(v, me, leader, c), AfterCheck(v, me, leader, c);
    assert Granted(v, me, PKG_UPGRADE) ==> Run(PKG_UPGRADE, v, false) in runs;
    assert Granted(w, me, CLUSTER) ==> Run(CLUSTER, w, false) in runs;
    assert Granted(w, me, RESTART) ==> Run(RESTART, w, false) in runs;
  }

  /**
   And runs nothing else. The upgrade runs once, if its lock is granted at the start; the join once, if its lock is
   granted after the upgrade; the restart once more at the end, if its lock is granted then, besides the one that the
   upgrade's configuration step may come to.
   */
  lemma CheckRunsNothingElse(v: View, me: string, leader: bool, c: Change)
    requires me in v.requests && Sane(v, me, leader) && c.now != ""
    ensures var w, runs := AfterCheck(v, me, leader, c), CheckRuns(v, me, leader, c);
            var upgrades := Granted(v, me, PKG_UPGRADE);
            var nested := if upgrades then |ChangeRuns(v, me, leader, c)| else 0;
            && Times(runs, PKG_UPGRADE) == (if upgrades then 1 else 0)
            && Times(runs, CLUSTER) == (if Granted(w, me, CLUSTER) then 1 else 0)
            && Times(runs, RESTART) == nested + (if Granted(w, me, RESTART) then 1 else 0)
            && nested <= 1
            && |runs| == Times(runs, PKG_UPGRADE) + Times(runs, CLUSTER) + Times(runs, RESTART)
  {
    hide Granted, AfterChange, ChangeRuns, Sane, Times;
    LocksDiffer();
    ChangeRunsWhatItTakes(v, me, leader, c, RESTART);
    var w, changes := AfterCheck(v, me, leader, c), ChangeRuns(v, me, leader, c);
    var a := if Granted(v, me, PKG_UPGRADE) then [Run(PKG_UPGRADE, v, false)] + changes else [];
    var b := if Granted(w, me, CLUSTER) then [Run(CLUSTER, w, false)] else [];
    var d := if Granted(w, me, RESTART) then [Run(RESTART, w, false)] else [];
    forall k | k in LOCKS
      ensures Times(a + b + d, k) == (if k == PKG_UPGRADE && a != [] then 1 else 0)
                + (if k == CLUSTER then |b| else 0) + (if k == RESTART then |d| + (if a != [] then |changes| else 0) else 0)
    {
      TimesAppend(a + b, d, k);
      TimesAppend(a, b, k);
      TimesAppend([Run(PKG_UPGRADE, v, false)], changes, k);
      TimesOne(Run(PKG_UPGRADE, v, false), k);
      ChangesTimes(changes, k);
      TimesOne(Run(CLUSTER, w, false), k);
      TimesOne(Run(RESTART, w, false), k);
    }
  }

  lemma ChangesTimes(changes: seq<Run>, k: string)
    requires |changes| <= 1 && forall x :: x in changes ==> x.lock == RESTART
    ensures Times(changes, k) == if k == RESTART then |changes| else 0
  {
    if changes != [] {
      assert changes == [changes[0]] && changes[0] in changes;
      TimesOne(changes[0], k);
    }
  }

  /** Upgrade, join, restart: nothing but restarts follows a join, and no upgrade follows anything. */
  lemma CheckRunsInOrder(v: View, me: string, leader: bool, c: Change, i: nat, j: nat)
    requires me in v.requests && Sane(v, me, leader) && c.now != "" && i < j < |CheckRuns(v, me, leader, c)|
    ensures CheckRuns(v, me, leader, c)[j].lock != PKG_UPGRADE
    ensures CheckRuns(v, me, leader, c)[i].lock == CLUSTER ==> CheckRuns(v, me, leader, c)[j].lock == RESTART
  {
    hide Granted, AfterChange, ChangeRuns, Sane;
    LocksDiffer();
    ChangeRunsWhatItTakes(v, me, leader, c, RESTART);
    var changes := ChangeRuns(v, me, leader, c);
    assert forall n :: 0 <= n < |changes| ==> changes[n] in changes;
  }

  /** What the check runs is run under its lock, but for a restart that a deferred-hooks action forces. */
  lemma CheckRunsUnderLocks(v: View, me: string, leader: bool, c: Change, x: Run)
    requires me in v.requests && Sane(v, me, leader) && c.now != "" && x in CheckRuns(v, me, leader, c)
    ensures !x.forced ==> Granted(x.view, me, x.lock)
    ensures x.forced ==> x.lock == RESTART && c.inAction && Granted(v, me, PKG_UPGRADE)
    ensures x.view == v || (Granted(v, me, PKG_UPGRADE) && x.view == AfterChange(v, me, leader, c))
  {
    hide Granted, AfterChange, ChangeRuns, Sane;
    ChangeRunsWhatItTakes(v, me, leader, c, RESTART);
  }

  /** Any decorated functions, one after the other. */
  function AfterChanges(v: View, me: string, leader: bool, cs: seq<Change>): (r: View)
    requires me in v.requests
    ensures me in r.requests
    decreases |cs|
  {
    if cs == [] then v else AfterChanges(AfterChange(v, me, leader, cs[0]), me, leader, cs[1..])
  }

  function ChangesRun(v: View, me: string, leader: bool, cs: seq<Change>): seq<Run>
    requires me in v.requests
    decreases |cs|
  {
    if cs == [] then []
    else ChangeRuns(v, me, leader, cs[0]) + ChangesRun(AfterChange(v, me, leader, cs[0]), me, leader, cs[1..])
  }

  lemma ChangesUnfold(v: View, me: string, leader: bool, cs: seq<Change>, i: nat)
    requires me in v.requests && i < |cs|
    ensures var w := AfterChange(v, me, leader, cs[i]);
            && AfterChanges(v, me, leader, cs[i..]) == AfterChanges(w, me, leader, cs[i + 1..])
            && ChangesRun(v, me, leader, cs[i..]) == ChangeRuns(v, me, leader, cs[i]) + ChangesRun(w, me, leader, cs[i + 1..])
  {
    assert cs[i..][0] == cs[i] && cs[i..][1..] == cs[i + 1..];
  }

  lemma ChangesEnd(v: View, me: string, leader: bool, cs: seq<Change>)
    requires me in v.requests
    ensures AfterChanges(v, me, leader, cs[|cs|..]) == v && ChangesRun(v, me, leader, cs[|cs|..]) == []
  {
  }

  lemma RanAppend(a: seq<Run>, b: seq<Run>, k: string)
    ensures Ran(a + b, k) <==> Ran(a, k) || Ran(b, k)
  {
  }

  lemma {:induction false} ChangesRunWhatTheyTake(v: View, me: string, leader: bool, cs: seq<Change>, k: string)
    requires me in v.requests && Sane(v, me, leader) && forall x :: x in cs ==> x.now != ""
    ensures var w := AfterChanges(v, me, leader, cs);
            && Sane(w, me, leader)
            && (Granted(v, me, k) ==> Granted(w, me, k))
            && (Granted(w, me, k) ==> Granted(v, me, k) || Ran(ChangesRun(v, me, leader, cs), k))
            && (k in v.requests[me] ==> k in w.requests[me])
    decreases |cs|
  {
    hide Granted, AfterChange, ChangeRuns, Sane, Ran;
    if cs != [] {
      assert cs[0] in cs && forall x :: x in cs[1..] ==> x in cs;
      var w := AfterChange(v, me, leader, cs[0]);
      ChangeKeepsSane(v, me, leader, cs[0]);
      ChangeRunsWhatItTakes(v, me, leader, cs[0], k);
      ChangeKeepsRequests(v, me, leader, cs[0]);
      ChangesRunWhatTheyTake(w, me, leader, cs[1..], k);
      RanAppend(ChangeRuns(v, me, leader, cs[0]), ChangesRun(w, me, leader, cs[1..]), k);
    }
  }

  lemma ChangeKeepsRequests(v: View, me: string, leader: bool, c: Change)
    requires me in v.requests
    ensures forall k :: k in v.requests[me] ==> k in AfterChange(v, me, leader, c).requests[me]
  {
  }

  /** What a hook runs from `check_coordinated_functions` to its end. */
  function HookRuns(v: View, me: string, leader: bool, c: Change, later: seq<Change>): seq<Run>
    requires me in v.requests
  {
    CheckRuns(v, me, leader, c) + ChangesRun(AfterCheck(v, me, leader, c), me, leader, later)
  }

  /**
   What a hook runs from the check to its end, and what it still requests then: nothing that was held when the check
   began is left requested, and every request given up has been run.
   */
  lemma GivenUpHasRun(v: View, me: string, leader: bool, c: Change, later: seq<Change>, k: string)
    requires me in v.requests && Sane(v, me, leader) && c.now != "" && forall x :: x in later ==> x.now != ""
    ensures var last := AfterChanges(AfterCheck(v, me, leader, c), me, leader, later);
            var rest, ran := Release(last, me).requests[me], HookRuns(v, me, leader, c, later);
            && (k in LOCKS && Granted(v, me, k) ==> k !in rest && Ran(ran, k))
            && (k in LOCKS && k in v.requests[me] && k !in rest ==> Ran(ran, k))
  {
    hide Granted, AfterCheck, CheckRuns, AfterChanges, ChangesRun, Sane, LOCKS, Ran;
    var checked := AfterCheck(v, me, leader, c);
    CheckRunsWhatIsHeld(v, me, leader, c, k);
    ChangesRunWhatTheyTake(checked, me, leader, later, k);
    CheckKeepsRequests(v, me, leader, c);
    RanAppend(CheckRuns(v, me, leader, c), ChangesRun(checked, me, leader, later), k);
  }

  /** The decorated functions, one of which came to a change on a unit that is not paused. */
  predicate SomeChange(cs: seq<Change>) {
    exists c :: c in cs && !c.paused && c.changed
  }

  /** While the restart lock is held every change runs the restart, and nothing else is ever run. */
  lemma {:induction false} HeldRestartRuns(v: View, me: string, leader: bool, cs: seq<Change>)
    requires me in v.requests && Sane(v, me, leader) && forall x :: x in cs ==> x.now != ""
    ensures forall x :: x in ChangesRun(v, me, leader, cs) ==> x.lock == RESTART
    ensures Granted(v, me, RESTART) ==> (Ran(ChangesRun(v, me, leader, cs), RESTART) <==> SomeChange(cs))
    decreases |cs|
  {
    hide Granted, Sane, AfterChange, ChangeRuns;
    if cs != [] {
      var c := cs[0];
      assert c in cs && forall x :: x in cs <==> x == c || x in cs[1..];
      ChangeKeepsSane(v, me, leader, c);
      ChangeRunsWhatItTakes(v, me, leader, c, RESTART);
      var w, first := AfterChange(v, me, leader, c), ChangeRuns(v, me, leader, c);
      HeldRestartRuns(w, me, leader, cs[1..]);
      RanAppend(first, ChangesRun(w, me, leader, cs[1..]), RESTART);
      assert |first| == 1 ==> first[0] in first;
      assert Granted(v, me, RESTART) ==> (Ran(first, RESTART) <==> !c.paused && c.changed);
      assert SomeChange(cs) <==> (!c.paused && c.changed) || SomeChange(cs[1..]);
    }
  }

  /**
   A hook that does not reach `check_coordinated_functions` gives up a lock it has not run the function of, exactly
   where it held the lock from the start and the lock is not the restart's or no decorated function came to a change.
   */
  lemma GivenUpUnrun(v: View, me: string, leader: bool, cs: seq<Change>, k: string)
    requires me in v.requests && Sane(v, me, leader) && forall x :: x in cs ==> x.now != ""
    ensures var last := AfterChanges(v, me, leader, cs);
            && (Granted(last, me, k) ==> k !in Release(last, me).requests[me])
            && (Granted(last, me, k) && !Ran(ChangesRun(v, me, leader, cs), k) <==>
                  Granted(v, me, k) && (k != RESTART || !SomeChange(cs)))
  {
    hide Granted, Sane, AfterChanges, ChangesRun;
    ChangesRunWhatTheyTake(v, me, leader, cs, k);
    HeldRestartRuns(v, me, leader, cs);
  }

  lemma CheckKeepsRequests(v: View, me: string, leader: bool, c: Change)
    requires me in v.requests
    ensures forall k :: k in v.requests[me] ==> k in AfterCheck(v, me, leader, c).requests[me]
  {
    ChangeKeepsRequests(v, me, leader, c);
  }

  // ----- in the protocol -----

  /** The `acquire` calls of decorated functions. */
  function AsksIn(cs: seq<Change>): seq<Asking> {
    if cs == [] then [] else (if Asks(cs[0]) then [Asking(RESTART, cs[0].now)] else []) + AsksIn(cs[1..])
  }

  lemma {:induction false} ChangesAreAsks(v: View, me: string, leader: bool, cs: seq<Change>)
    requires me in v.requests
    ensures AfterChanges(v, me, leader, cs) == AskAll(v, me, leader, AsksIn(cs))
    decreases |cs|
  {
    hide Acquire;
    if cs != [] {
      ChangesAreAsks(AfterChange(v, me, leader, cs[0]), me, leader, cs[1..]);
      assert Asks(cs[0]) ==> AsksIn(cs)[1..] == AsksIn(cs[1..]);
      assert !Asks(cs[0]) ==> AsksIn(cs) == AsksIn(cs[1..]);
    }
  }

  lemma {:induction false} AsksInAppend(a: seq<Change>, b: seq<Change>)
    ensures AsksIn(a + b) == AsksIn(a) + AsksIn(b)
  {
    if a == [] {
      assert a + b == b;
    } else {
      assert (a + b)[1..] == a[1..] + b;
      AsksInAppend(a[1..], b);
    }
  }

  /** The decorated functions a hook comes to from the check on: the upgrade's, if it runs, and the later ones. */
  function Changes(v: View, me: string, c: Change, later: seq<Change>): seq<Change> {
    (if Granted(v, me, PKG_UPGRADE) then [c] else []) + later
  }

  /** Each run of decorated functions is under the lock or forced, in the view after some of them. */
  lemma {:induction false} ChangesRunUnderLock(v: View, me: string, leader: bool, cs: seq<Change>, x: Run) returns (n: nat)
    requires me in v.requests && Sane(v, me, leader) && (forall y :: y in cs ==> y.now != "")
    requires x in ChangesRun(v, me, leader, cs)
    ensures n <= |cs| && x.view == AfterChanges(v, me, leader, cs[..n])
    ensures !x.forced ==> Granted(x.view, me, x.lock)
    ensures x.forced ==> exists c :: c in cs && c.inAction
    decreases |cs|
  {
    hide Granted, Sane, AfterChange, ChangeRuns;
    var c := cs[0];
    assert c in cs && forall y :: y in cs[1..] ==> y in cs;
    var w := AfterChange(v, me, leader, c);
    ChangeKeepsSane(v, me, leader, c);
    ChangeRunsWhatItTakes(v, me, leader, c, RESTART);
    if x in ChangeRuns(v, me, leader, c) {
      n := 1;
      assert cs[..1] == [c] && [c][1..] == [];
      assert AfterChanges(v, me, leader, [c]) == AfterChanges(w, me, leader, []);
    } else {
      var m := ChangesRunUnderLock(w, me, leader, cs[1..], x);
      n := m + 1;
      assert cs[..n][1..] == cs[1..][..m];
    }
  }

  /** The same for all that a hook runs from the check on. */
  lemma HookRunsUnderLocks(v: View, me: string, leader: bool, c: Change, later: seq<Change>, x: Run) returns (n: nat)
    requires me in v.requests && Sane(v, me, leader) && c.now != "" && forall y :: y in later ==> y.now != ""
    requires x in HookRuns(v, me, leader, c, later)
    ensures n <= |Changes(v, me, c, later)| && x.view == AfterChanges(v, me, leader, Changes(v, me, c, later)[..n])
    ensures !x.forced ==> Granted(x.view, me, x.lock)
    ensures x.forced ==> exists d :: d in [c] + later && d.inAction
  {
    hide Granted, Sane, AfterChange, ChangeRuns, CheckRuns, ChangesRun;
    var all, checked := Changes(v, me, c, later), AfterCheck(v, me, leader, c);
    var upgrades := Granted(v, me, PKG_UPGRADE);
    assert [c][1..] == [] && c in [c] + later;
    assert AfterChanges(v, me, leader, [c]) == AfterChanges(AfterChange(v, me, leader, c), me, leader, []);
    if x in CheckRuns(v, me, leader, c) {
      CheckRunsUnderLocks(v, me, leader, c, x);
      n := if x.view == v then 0 else 1;
      assert all[..0] == [];
      assert upgrades ==> all[..1] == [c];
    } else {
      CheckRunsWhatIsHeld(v, me, leader, c, RESTART);
      var m := ChangesRunUnderLock(checked, me, leader, later, x);
      n := if upgrades then m + 1 else m;
      assert upgrades ==> all[..n][0] == c && all[..n][1..] == later[..m];
      assert !upgrades ==> all[..n] == later[..m];
    }
  }

  lemma RunningIsSane(w: World, u: string)
    requires Inv(w) && InPhase(w, u, Running)
    ensures u in w.hooks[u].view.requests && Sane(w.hooks[u].view, u, Leads(w, u))
  {
    hide OwnRequests, OwnLoading;
    HookIsOk(w, u);
    HookKnows(w, u, u, RESTART);
  }

  /**
   In the protocol: a hook that reaches the check runs each function, outside the deferred-hooks action, while its
   unit and no other holds the function's lock. Whatever others do meanwhile, this is so once the hook has made the
   first `n` of its `acquire` calls and before it makes the next.
   */
  lemma RunsWhileHolding(w: World, u: string, c: Change, later: seq<Change>, x: Run) returns (n: nat)
    requires Inv(w) && InPhase(w, u, Running) && u in w.hooks[u].view.requests
    requires c.now != "" && forall y :: y in later ==> y.now != ""
    requires x in HookRuns(w.hooks[u].view, u, Leads(w, u), c, later) && !x.forced
    ensures n <= |AsksIn(Changes(w.hooks[u].view, u, c, later))|
    ensures forall es :: Possible(w, es) && OnlyAsks(es, u) && AsksOf(es, u) == AsksIn(Changes(w.hooks[u].view, u, c, later))[..n]
              ==> Holds(After(w, es), u, x.lock) && forall v :: Holds(After(w, es), v, x.lock) ==> v == u
  {
    hide Inv, Granted, HookRuns, AfterChanges, OnlyAsks, AskAll;
    var v, leads := w.hooks[u].view, Leads(w, u);
    RunningIsSane(w, u);
    var m := HookRunsUnderLocks(v, u, leads, c, later, x);
    var all := Changes(v, u, c, later);
    ChangesAreAsks(v, u, leads, all[..m]);
    AsksInAppend(all[..m], all[m..]);
    assert all == all[..m] + all[m..];
    n := |AsksIn(all[..m])|;
    assert AsksIn(all)[..n] == AsksIn(all[..m]);
    forall es | Possible(w, es) && OnlyAsks(es, u) && AsksOf(es, u) == AsksIn(all)[..n]
      ensures Holds(After(w, es), u, x.lock) && forall other :: Holds(After(w, es), other, x.lock) ==> other == u
    {
      BodyIsAskAll(w, es, u);
      var at := After(w, es);
      assert at.hooks[u].view == x.view;
      forall other | Holds(at, other, x.lock)
        ensures other == u
      {
        InvExcludes(at, u, other, x.lock);
      }
    }
  }

  /** The functions that run under a lock, as part of the code of one hook. */
  class Charm {
    const serial: Serial
    var ran: seq<Run>

    constructor (serial: Serial)
      ensures this.serial == serial && ran == []
    {
      this.serial, ran := serial, [];
    }

    ghost predicate Has(lock: string)
      reads this, serial
    {
      Granted(serial.State(), serial.unit, lock)
    }

    ghost predicate Ready()
      reads this, serial
    {
      serial.Valid() && Sane(serial.State(), serial.unit, serial.leader)
    }

    /** `manage_restart` */
    method ManageRestart(coordinate: bool)
      requires serial.Valid()
      modifies this`ran
      ensures ran == old(ran) + if !coordinate || Has(RESTART) then [Run(RESTART, serial.State(), !coordinate)] else []
    {
      var runRestart := true;
      if coordinate {
        runRestart := serial.IsGranted(RESTART);
      }
      if runRestart {
        ran := ran + [Run(RESTART, serial.State(), !coordinate)];
      }
    }

    /** `coordinated_upgrade`; configuring the upgraded broker may itself change a watched file. */
    method CoordinatedUpgrade(c: Change)
      requires Ready() && c.now != ""
      modifies this`ran, serial`grants, serial`requests
      ensures Ready()
      ensures old(Has(PKG_UPGRADE)) ==>
                && ran == old(ran) + [Run(PKG_UPGRADE, old(serial.State()), false)]
                          + old(ChangeRuns(serial.State(), serial.unit, serial.leader, c))
                && serial.State() == old(AfterChange(serial.State(), serial.unit, serial.leader, c))
      ensures !old(Has(PKG_UPGRADE)) ==> ran == old(ran) && serial.State() == old(serial.State())
    {
      var granted := serial.IsGranted(PKG_UPGRADE);
      if granted {
        ran := ran + [Run(PKG_UPGRADE, serial.State(), false)];
        CoordinatedRestartOnChange(c);
      }
    }

    /** `coordinated_cluster` */
    method CoordinatedCluster()
      requires serial.Valid()
      modifies this`ran
      ensures ran == old(ran) + if Has(CLUSTER) then [Run(CLUSTER, serial.State(), false)] else []
    {
      var granted := serial.IsGranted(CLUSTER);
      if granted {
        ran := ran + [Run(CLUSTER, serial.State(), false)];
      }
    }

    /** `check_coordinated_functions` */
    method CheckCoordinatedFunctions(c: Change)
      requires Ready() && c.now != ""
      modifies this`ran, serial`grants, serial`requests
      ensures Ready()
      ensures serial.State() == old(AfterCheck(serial.State(), serial.unit, serial.leader, c))
      ensures ran == old(ran) + old(CheckRuns(serial.State(), serial.unit, serial.leader, c))
    {
      hide Granted, ChangeRuns, AfterChange, Sane;
      CoordinatedUpgrade(c);
      CoordinatedCluster();
      ManageRestart(true);
    }

    /**
     The decorated function of `coordinated_restart_on_change`: files changed or not. A paused unit and an
     unchanged file ask for nothing; outside the deferred-hooks action the restart runs only under the lock, and
     an outstanding request keeps its time.
     */
    method CoordinatedRestartOnChange(c: Change)
      requires Ready() && c.now != ""
      modifies this`ran, serial`grants, serial`requests
      ensures Ready()
      ensures serial.State() == old(AfterChange(serial.State(), serial.unit, serial.leader, c))
      ensures ran == old(ran) + old(ChangeRuns(serial.State(), serial.unit, serial.leader, c))
      ensures c.paused || !c.changed ==> ran == old(ran) && serial.State() == old(serial.State())
      ensures !c.paused && c.changed && c.inAction ==>
                ran == old(ran) + [Run(RESTART, serial.State(), true)] && serial.State() == old(serial.State())
      ensures !c.paused && c.changed && !c.inAction ==>
                && ran == old(ran) + (if Has(RESTART) then [Run(RESTART, serial.State(), false)] else [])
                && Get(serial.requests, serial.unit, RESTART) ==
                     if old(Get(serial.requests, serial.unit, RESTART)).Some?
                     then old(Get(serial.requests, serial.unit, RESTART)) else Some(c.now)
    {
      ghost var v := serial.State();
      ChangeKeepsSane(v, serial.unit, serial.leader, c);
      ChangeRunsWhatItTakes(v, serial.unit, serial.leader, c, RESTART);
      if c.paused || !c.changed {
        return;
      }
      if c.inAction {
        ManageRestart(false);
      } else {
        AcquireReports(v, serial.unit, serial.leader, RESTART, c.now);
        RequestLookups(v, serial.unit, RESTART, c.now, serial.unit, RESTART);
        var _ := serial.AcquireLock(RESTART, c.now);
        ManageRestart(true);
      }
    }

    /** The rest of a hook that reaches `check_coordinated_functions`, with any decorated functions after it. */
    method CheckThenRelease(c: Change, later: seq<Change>)
      requires Ready() && c.now != "" && forall x :: x in later ==> x.now != ""
      modifies this`ran, serial`grants, serial`requests
      ensures serial.Valid()
      ensures serial.State() == old(Release(AfterChanges(AfterCheck(serial.State(), serial.unit, serial.leader, c),
                                                         serial.unit, serial.leader, later), serial.unit))
      ensures ran == old(ran) + old(HookRuns(serial.State(), serial.unit, serial.leader, c, later))
    {
      hide Granted, AfterCheck, CheckRuns, AfterChange, ChangeRuns, Release, Sane, AfterChanges, ChangesRun;
      CheckCoordinatedFunctions(c);
      ghost var v, before := serial.State(), ran;
      var me, leads := serial.unit, serial.leader;
      var i := 0;
      assert later[0..] == later;
      while i < |later|
        invariant 0 <= i <= |later| && Ready()
        invariant AfterChanges(serial.State(), me, leads, later[i..]) == AfterChanges(v, me, leads, later)
        invariant ran + ChangesRun(serial.State(), me, leads, later[i..]) == before + ChangesRun(v, me, leads, later)
      {
        ChangesUnfold(serial.State(), me, leads, later, i);
        CoordinatedRestartOnChange(later[i]);
        i := i + 1;
      }
      ChangesEnd(serial.State(), me, leads, later);
      assert ran + [] == ran;
      serial.ReleaseGranted();
    }
  }

  /** The protocol together with the coordinated functions that are running: (unit, lock) pairs. */
  datatype Site = Site(world: World, busy: set<(string, string)>)

  datatype Move = Step(event: Event) | Enter(unit: string, lock: string) | Leave(unit: string, lock: string)

  /**
   A unit enters a coordinated function when its check of `granted` succeeds; its code is serial, so until it
   leaves the unit's own hook can only make further `acquire` calls, or fail.
   */
  predicate CanMove(s: Site, m: Move) {
    match m
    case Step(e) =>
      Enabled(s.world, e) &&
      (e.Publish? || e.Commit? ==> forall p :: p in s.busy ==> p.0 != e.unit)
    case Enter(u, l) => Holds(s.world, u, l)
    case Leave(u, l) => (u, l) in s.busy
  }

  function Moved(s: Site, m: Move): Site
    requires CanMove(s, m)
  {
    match m
    case Step(e) =>
      Site(Next(s.world, e), if e.Fail? then set p | p in s.busy && p.0 != e.unit else s.busy)
    case Enter(u, l) => s.(busy := s.busy + {(u, l)})
    case Leave(u, l) => s.(busy := s.busy - {(u, l)})
  }

  ghost predicate SiteInv(s: Site) {
    Inv(s.world) && forall u, l :: (u, l) in s.busy ==> Holds(s.world, u, l)
  }

  lemma HoldsWhileBusy(w: World, e: Event, u: string, l: string)
    requires Inv(w) && Enabled(w, e) && Holds(w, u, l)
    requires e != Publish(u) && e != Commit(u) && e != Fail(u)
    ensures Holds(Next(w, e), u, l)
  {
    hide AllKnown, AllExclusive, Fenced, LocalUnseen, HookOk, Granted, Acquire;
    if Actor(e) == Some(u) {
      AcquireKeepsGranted(w.hooks[u].view, u, Leads(w, u), e.lock, e.now, l);
    } else {
      OthersLeaveHook(w, e, u);
    }
  }

  lemma MovePreserves(s: Site, m: Move)
    requires SiteInv(s) && CanMove(s, m)
    ensures SiteInv(Moved(s, m))
  {
    hide Inv, Holds, Next, Enabled;
    if m.Step? {
      StepInv(s.world, m.event);
      forall u, l | (u, l) in Moved(s, m).busy
        ensures Holds(Next(s.world, m.event), u, l)
      {
        HoldsWhileBusy(s.world, m.event, u, l);
      }
    }
  }

  predicate Moves(s: Site, ms: seq<Move>)
    decreases |ms|
  {
    ms == [] || (CanMove(s, ms[0]) && Moves(Moved(s, ms[0]), ms[1..]))
  }

  function Final(s: Site, ms: seq<Move>): Site
    requires Moves(s, ms)
    decreases |ms|
  {
    if ms == [] then s else Final(Moved(s, ms[0]), ms[1..])
  }

  lemma {:induction false} MovesPreserve(s: Site, ms: seq<Move>)
    requires SiteInv(s) && Moves(s, ms)
    ensures SiteInv(Final(s, ms))
    decreases |ms|
  {
    if ms != [] {
      MovePreserves(s, ms[0]);
      MovesPreserve(Moved(s, ms[0]), ms[1..]);
    }
  }

  /** Two units are never inside the same coordinated function at the same time. */
  lemma CoordinatedFunctionsNeverOverlap(w: World, ms: seq<Move>, u: string, v: string, l: string)
    requires IsInit(w) && Moves(Site(w, {}), ms)
    requires (u, l) in Final(Site(w, {}), ms).busy && (v, l) in Final(Site(w, {}), ms).busy
    ensures u == v
  {
    InitInv(w);
    MovesPreserve(Site(w, {}), ms);
    InvExcludes(Final(Site(w, {}), ms).world, u, v, l);
  }

  /** The unit's hook ends having been granted the lock, so that the request is given up. */
  predicate GivesUp(w: World, e: Event, u: string, l: string) {
    e == Publish(u) && InPhase(w, u, Running) && Granted(w.hooks[u].view, u, l)
  }

  /** The saved request, which a hook that is closing is about to save again. */
  ghost predicate Requested(w: World, u: string, l: string, ts: string) {
    Mine(w, u, l) == Some(ts) && (InPhase(w, u, Closing) ==> Get(w.hooks[u].view.requests, u, l) == Some(ts))
  }

  lemma RequestKept(w: World, e: Event, u: string, l: string, ts: string)
    requires Inv(w) && Enabled(w, e) && Requested(w, u, l, ts)
    requires e != Depart(u) && !GivesUp(w, e, u, l)
    ensures Requested(Next(w, e), u, l, ts)
  {
    hide Inv, Mine, HookOk, Granted;
    match e {
      case Publish(k) => PublishKeepsRequest(w, k, u, l, ts);
      case Commit(k) => CommitSaves(w, k, u, l);
      case Join(_) => MemberFrame(w, e);
      case Depart(_) => MemberFrame(w, e);
      case SeeRelation(_) => MemberFrame(w, e);
      case _ => SameSaved(w, Next(w, e));
    }
  }

  lemma PublishKeepsRequest(w: World, k: string, u: string, l: string, ts: string)
    requires Inv(w) && Enabled(w, Publish(k)) && Requested(w, u, l, ts) && !GivesUp(w, Publish(k), u, l)
    ensures Requested(Next(w, Publish(k)), u, l, ts)
  {
    hide Inv, Mine, Granted, LeaderView, OwnLoading, Unseen;
    SameSaved(w, Next(w, Publish(k)));
    PublishFrame(w, k);
    PublishLookups(w, k, u, l);
    HookIsOk(w, k);
    hide Next, Enabled;
  }

  ghost predicate NeverGivesUp(w: World, es: seq<Event>, u: string, l: string)
    requires Possible(w, es)
    decreases |es|
  {
    es != [] ==> !GivesUp(w, es[0], u, l) && NeverGivesUp(Next(w, es[0]), es[1..], u, l)
  }

  /** An ungranted request keeps its timestamp through any number of hooks, failed ones included. */
  lemma {:induction false} UngrantedRequestKeepsItsTime(w: World, es: seq<Event>, u: string, l: string, ts: string)
    requires Inv(w) && Possible(w, es) && Requested(w, u, l, ts)
    requires Depart(u) !in es && NeverGivesUp(w, es, u, l)
    ensures Requested(After(w, es), u, l, ts)
    decreases |es|
  {
    hide Inv, Requested, Next, Enabled, GivesUp;
    if es != [] {
      StepInv(w, es[0]);
      assert es[0] in es;
      RequestKept(w, es[0], u, l, ts);
      assert forall x :: x in es[1..] ==> x in es;
      UngrantedRequestKeepsItsTime(Next(w, es[0]), es[1..], u, l, ts);
    }
  }
}
