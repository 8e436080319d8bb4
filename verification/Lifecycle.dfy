/**
 The life of one hook: `Hooks.execute` with its start and exit callbacks, driving the coordinator object.
 What a whole hook computes and writes is stated with the functions the protocol's steps are built from.
 */
module Lifecycle {
  import opened Coordination
  import opened Coordinator
  import opened Wrappers

  /** The callbacks the coordinator registers, and anybody else's. */
  datatype Callback = Initialize | Handle | ReleaseGranted | SaveState | Other(name: string)

  /** What a hook does, in order. */
  datatype Effect = Ran(callback: Callback) | Body

  /** How the hook function ends. */
  datatype Outcome = Returns | Exits(code: Option<int>) | Raises

  /** One call of `acquire` in the hook body, and the time at which it happens. */
  datatype Asking = Asking(lock: string, now: string)

  /** What the hook tools and the local file answer during this hook. */
  datatype Answers = Answers(relid: bool, settings: Table, peers: map<string, Option<Locks>>, local: Locks)

  /** What `_save_state` writes. */
  datatype Saved = Saved(leaderSet: Option<Table>, localFile: Option<Locks>, relationSet: Option<Locks>)

  /** The exit callbacks run only for a hook that returns, or exits with no code or with code 0. */
  predicate Succeeds(outcome: Outcome) {
    outcome == Returns || outcome == Exits(None) || outcome == Exits(Some(0))
  }

  function Reversed<T>(s: seq<T>): (r: seq<T>)
    ensures |r| == |s| && forall i :: 0 <= i < |s| ==> r[i] == s[|s| - 1 - i]
  {
    if s == [] then [] else Reversed(s[1..]) + [s[0]]
  }

  function Effects(callbacks: seq<Callback>): seq<Effect> {
    seq(|callbacks|, i requires 0 <= i < |callbacks| => Ran(callbacks[i]))
  }

  /** `self.requests` after loading. */
  function Loaded(me: string, a: Answers): Table
    requires a.relid ==> me in a.peers
  {
    if !a.relid then map[me := a.local]
    else if a.peers[me].Some? then PeerRequests(a.peers)
    else PeerRequests(a.peers)[me := a.local]
  }

  /** The coordinator's state when the hook body starts. */
  function Opening(me: string, leader: bool, a: Answers): (v: View)
    requires a.relid ==> me in a.peers
    ensures me in v.requests
  {
    var r := Loaded(me, a);
    View(if leader then Handled(a.settings, r) else a.settings, r)
  }

  /** The state after the calls of `acquire` in the body. */
  function AskAll(v: View, me: string, leader: bool, asks: seq<Asking>): (r: View)
    requires me in v.requests
    ensures me in r.requests
    decreases |asks|
  {
    if asks == [] then v
    else AskAll(Acquire(v, me, leader, asks[0].lock, asks[0].now), me, leader, asks[1..])
  }

  lemma AskAllNone(v: View, me: string, leader: bool)
    requires me in v.requests
    ensures AskAll(v, me, leader, []) == v
  {
  }

  lemma {:induction false} AskAllSnoc(v: View, me: string, leader: bool, asks: seq<Asking>, a: Asking)
    requires me in v.requests
    ensures AskAll(v, me, leader, asks + [a]) == Acquire(AskAll(v, me, leader, asks), me, leader, a.lock, a.now)
    decreases |asks|
  {
    if asks == [] {
      assert [] + [a] == [a];
      assert AskAll(Acquire(v, me, leader, a.lock, a.now), me, leader, []) == Acquire(v, me, leader, a.lock, a.now);
    } else {
      assert (asks + [a])[1..] == asks[1..] + [a];
      AskAllSnoc(Acquire(v, me, leader, asks[0].lock, asks[0].now), me, leader, asks[1..], a);
    }
  }

  /** What a hook that starts in view `v` and asks for `asks` writes when it succeeds. */
  function Writes(v: View, me: string, leader: bool, relid: bool, asks: seq<Asking>): Saved
    requires me in v.requests
  {
    var last := AskAll(v, me, leader, asks);
    var row := Release(last, me).requests[me];
    Saved(if leader then Some(last.grants) else None, if relid then None else Some(row), if relid then Some(row) else None)
  }

  class Hook {
    const coordinator: Serial
    const answers: Answers
    var atstart: seq<Callback>
    var atexit: seq<Callback>
    var trace: seq<Effect>
    var saved: Option<Saved>

    /** Creating the coordinator registers `initialize` and then `handle`. */
    constructor (unit: string, leader: bool, answers: Answers, before: seq<Callback>, after: seq<Callback>)
      requires answers.relid ==> unit in answers.peers
      requires forall c :: c in before + after ==> c.Other?
      ensures fresh(coordinator) && coordinator.unit == unit && coordinator.leader == leader && !coordinator.ready
      ensures this.answers == answers && atexit == [] && trace == [] && saved == None
      ensures atstart == before + [Initialize, Handle] + after
    {
      coordinator := new Serial(unit, leader);
      this.answers := answers;
      atstart := before + [Initialize, Handle] + after;
      atexit, trace, saved := [], [], None;
    }

    ghost predicate Ready()
      reads this, coordinator
    {
      (answers.relid ==> coordinator.unit in answers.peers) && (coordinator.ready ==> coordinator.Valid())
    }

    /** One callback, dispatched to the coordinator. */
    method Call(c: Callback)
      requires Ready() && (c in {Handle, ReleaseGranted, SaveState} ==> coordinator.ready)
      modifies this, coordinator
      ensures Ready() && atstart == old(atstart) && trace == old(trace) + [Ran(c)]
      ensures old(coordinator.ready) ==> coordinator.ready
      ensures c == Initialize && !old(coordinator.ready) ==>
                && coordinator.ready && coordinator.relid == answers.relid
                && coordinator.State() == View(answers.settings, Loaded(coordinator.unit, answers))
                && atexit == old(atexit) + [SaveState, ReleaseGranted]
      ensures c == Initialize && old(coordinator.ready) ==> atexit == old(atexit)
      ensures c != Initialize ==> atexit == old(atexit) && coordinator.relid == old(coordinator.relid)
      ensures c == Handle ==>
                var v := old(coordinator.State());
                coordinator.State() == View(if coordinator.leader then Handled(v.grants, v.requests) else v.grants, v.requests)
      ensures c == ReleaseGranted ==> coordinator.State() == Release(old(coordinator.State()), coordinator.unit)
      ensures c == SaveState || c.Other? || (c == Initialize && old(coordinator.ready)) ==>
                coordinator.State() == old(coordinator.State()) && coordinator.ready == old(coordinator.ready) &&
                coordinator.relid == old(coordinator.relid)
      ensures c == SaveState ==>
                var v, me := coordinator.State(), coordinator.unit;
                saved == Some(Saved(if coordinator.leader then Some(v.grants) else None,
                                    if coordinator.relid then None else Some(v.requests[me]),
                                    if coordinator.relid then Some(v.requests[me]) else None))
      ensures c != SaveState ==> saved == old(saved)
    {
      match c {
        case Initialize =>
          var registered := coordinator.ready;
          coordinator.Initialize(answers.relid, answers.settings, answers.peers, answers.local);
          if !registered {
            atexit := atexit + [SaveState, ReleaseGranted];
          }
        case Handle => coordinator.Handle();
        case ReleaseGranted => coordinator.ReleaseGranted();
        case SaveState =>
          var leaderSet, localFile, relationSet := coordinator.SaveState();
          saved := Some(Saved(leaderSet, localFile, relationSet));
        case Other(_) =>
      }
      trace := trace + [Ran(c)];
    }

    /** `_run_atstart`, for callbacks of others around the coordinator's two. */
    method RunAtstart(ghost before: seq<Callback>, ghost after: seq<Callback>)
      requires Ready() && !coordinator.ready && atstart == before + [Initialize, Handle] + after
      requires forall c :: c in before + after ==> c.Other?
      modifies this, coordinator
      ensures Ready() && coordinator.ready && coordinator.relid == answers.relid
      ensures coordinator.State() == Opening(coordinator.unit, coordinator.leader, answers)
      ensures atstart == [] && atexit == old(atexit) + [SaveState, ReleaseGranted]
      ensures trace == old(trace) + Effects(old(atstart)) && saved == old(saved)
    {
      var me, leads := coordinator.unit, coordinator.leader;
      ghost var b := |before|;
      var i := 0;
      while i < |atstart|
        invariant 0 <= i <= |atstart| && atstart == old(atstart) && Ready()
        invariant trace == old(trace) + Effects(atstart[..i]) && saved == old(saved)
        invariant coordinator.ready <==> i > b
        invariant i <= b ==> atexit == old(atexit)
        invariant i > b ==> atexit == old(atexit) + [SaveState, ReleaseGranted] && coordinator.relid == answers.relid
        invariant i == b + 1 ==> coordinator.State() == View(answers.settings, Loaded(me, answers))
        invariant i > b + 1 ==> coordinator.State() == Opening(me, leads, answers)
      {
        assert i < b ==> atstart[i] == before[i] && before[i] in before + after;
        assert i > b + 1 ==> atstart[i] == after[i - b - 2] && after[i - b - 2] in before + after;
        Call(atstart[i]);
        assert atstart[..i + 1] == atstart[..i] + [atstart[i]];
        i := i + 1;
      }
      assert atstart[..i] == atstart;
      atstart := [];
    }

    /** The hook body's calls of `acquire`. */
    method RunBody(asks: seq<Asking>)
      requires Ready() && coordinator.ready
      modifies this`trace, coordinator`grants, coordinator`requests
      ensures Ready() && trace == old(trace) + [Body]
      ensures coordinator.State() == AskAll(old(coordinator.State()), coordinator.unit, coordinator.leader, asks)
    {
      hide AskAll, Acquire, Acquires;
      ghost var v := coordinator.State();
      var me, leads := coordinator.unit, coordinator.leader;
      trace := trace + [Body];
      assert asks[..0] == [];
      AskAllNone(v, me, leads);
      var i := 0;
      while i < |asks|
        invariant 0 <= i <= |asks| && Ready() && trace == old(trace) + [Body]
        invariant coordinator.State() == AskAll(v, me, leads, asks[..i])
      {
        AskAllSnoc(v, me, leads, asks[..i], asks[i]);
        assert asks[..i + 1] == asks[..i] + [asks[i]];
        var _ := coordinator.AcquireLock(asks[i].lock, asks[i].now);
        i := i + 1;
      }
      assert asks[..i] == asks;
    }

    /**
     `_run_atexit`: in reverse order of registration, so locks are released before anything is saved, with
     callbacks of others registered before and after the coordinator's two.
     */
    method RunAtexit(ghost early: seq<Callback>, ghost late: seq<Callback>)
      requires Ready() && coordinator.ready && atexit == early + [SaveState, ReleaseGranted] + late
      requires forall c :: c in early + late ==> c.Other?
      modifies this, coordinator
      ensures Ready() && atexit == [] && atstart == old(atstart)
      ensures trace == old(trace) + Effects(Reversed(old(atexit)))
      ensures coordinator.State() == Release(old(coordinator.State()), coordinator.unit)
      ensures var v := old(coordinator.State());
              var row := Release(v, coordinator.unit).requests[coordinator.unit];
              saved == Some(Saved(if coordinator.leader then Some(v.grants) else None,
                                  if old(coordinator.relid) then None else Some(row),
                                  if old(coordinator.relid) then Some(row) else None))
    {
      hide Granted, Loaded, Handled;
      ghost var v := coordinator.State();
      ghost var first := |late|;
      var all := Reversed(atexit);
      var n := |all|;
      var i := 0;
      while i < n
        invariant 0 <= i <= n == |all| && all == Reversed(old(atexit)) && atexit == old(atexit) && atstart == old(atstart)
        invariant Ready() && coordinator.ready && coordinator.relid == old(coordinator.relid)
        invariant trace == old(trace) + Effects(all[..i])
        invariant i <= first ==> coordinator.State() == v
        invariant i > first ==> coordinator.State() == Release(v, coordinator.unit)
        invariant i > first + 1 ==>
                    var row := Release(v, coordinator.unit).requests[coordinator.unit];
                    saved == Some(Saved(if coordinator.leader then Some(v.grants) else None,
                                        if old(coordinator.relid) then None else Some(row),
                                        if old(coordinator.relid) then Some(row) else None))
      {
        assert all[i] == atexit[n - 1 - i];
        CallbackAt(early, late, i);
        Call(all[i]);
        assert all[..i + 1] == all[..i] + [all[i]];
        i := i + 1;
      }
      assert all[..i] == all;
      atexit := [];
    }

    /** `Hooks.execute` for a registered hook (`known`) or an unknown one. */
    method Execute(known: bool, asks: seq<Asking>, outcome: Outcome,
                   ghost before: seq<Callback>, ghost after: seq<Callback>)
      requires Ready() && !coordinator.ready && atstart == before + [Initialize, Handle] + after
      requires forall c :: c in before + after + atexit ==> c.Other?
      requires saved == None
      modifies this, coordinator
      ensures saved.Some? <==> known && (outcome == Returns || outcome == Exits(None) || outcome == Exits(Some(0)))
      ensures known && Succeeds(outcome) ==>
                var opening := Opening(coordinator.unit, coordinator.leader, answers);
                && saved == Some(Writes(opening, coordinator.unit, coordinator.leader, answers.relid, asks))
                && trace == old(trace) + Effects(old(atstart)) + [Body] + [Ran(ReleaseGranted), Ran(SaveState)]
                            + Effects(Reversed(old(atexit)))
      ensures known && !Succeeds(outcome) ==> saved == None && trace == old(trace) + Effects(old(atstart)) + [Body]
      ensures !known ==> saved == None && trace == old(trace) + Effects(old(atstart))
    {
      ghost var early := atexit;
      assert forall c :: c in before + after ==> c in before + after + atexit;
      assert forall c :: c in early + [] ==> c in before + after + early;
      RunAtstart(before, after);
      if !known {
        return;
      }
      RunBody(asks);
      if Succeeds(outcome) {
        assert atexit == early + [SaveState, ReleaseGranted] + [];
        ReleaseThenSave(early);
        RunAtexit(early, []);
      }
    }

    /**
     `main` of the actions: start callbacks, the action, exit callbacks. An action that raises is reported as
     failed and the exit callbacks still run; only an exit skips them.
     */
    method ExecuteAction(known: bool, asks: seq<Asking>, outcome: Outcome,
                         ghost before: seq<Callback>, ghost after: seq<Callback>)
      requires Ready() && !coordinator.ready && atstart == before + [Initialize, Handle] + after
      requires forall c :: c in before + after + atexit ==> c.Other?
      requires saved == None
      modifies this, coordinator
      ensures saved.Some? <==> known && (outcome == Returns || outcome == Raises)
      ensures known && !outcome.Exits? ==>
                saved == Some(Writes(Opening(coordinator.unit, coordinator.leader, answers),
                                     coordinator.unit, coordinator.leader, answers.relid, asks))
      ensures !known || outcome.Exits? ==> saved == None
    {
      ghost var early := atexit;
      assert forall c :: c in before + after ==> c in before + after + atexit;
      assert forall c :: c in early + [] ==> c in before + after + early;
      RunAtstart(before, after);
      if !known {
        return;
      }
      RunBody(asks);
      if !outcome.Exits? {
        assert atexit == early + [SaveState, ReleaseGranted] + [];
        RunAtexit(early, []);
      }
    }
  }

  /** Which callback stands at each place of the list, counted from its end. */
  lemma CallbackAt(early: seq<Callback>, late: seq<Callback>, i: nat)
    requires i < |early| + 2 + |late|
    ensures var c := (early + [SaveState, ReleaseGranted] + late)[|early| + 1 + |late| - i];
            && (i < |late| || i > |late| + 1 ==> c in early + late)
            && (i == |late| ==> c == ReleaseGranted) && (i == |late| + 1 ==> c == SaveState)
  {
    var front := early + [SaveState, ReleaseGranted];
    var j := |early| + 1 + |late| - i;
    if i < |late| {
      assert (front + late)[j] == late[j - |front|] && late[j - |front|] in early + late;
    } else {
      assert (front + late)[j] == front[j];
      if i > |late| + 1 {
        assert front[j] == early[j] && early[j] in early + late;
      } else {
        assert front[j] == [SaveState, ReleaseGranted][j - |early|];
      }
    }
  }

  lemma ReleaseThenSave(early: seq<Callback>)
    ensures Effects(Reversed(early + [SaveState, ReleaseGranted])) ==
            [Ran(ReleaseGranted), Ran(SaveState)] + Effects(Reversed(early))
  {
    hide Reversed;
    var all := early + [SaveState, ReleaseGranted];
    assert Reversed(all) == [ReleaseGranted, SaveState] + Reversed(early);
  }
}
