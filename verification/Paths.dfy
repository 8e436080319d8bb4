/** Runs of the protocol as they are built up step by step, and what can come of a state. */
module Paths {
  import opened Coordination
  import opened Protocol
  import opened Wrappers

  ghost predicate Path(w: World, es: seq<Event>, w2: World) {
    Possible(w, es) && After(w, es) == w2
  }

  lemma {:induction false} PathSnoc(w: World, es: seq<Event>, w2: World, e: Event)
    requires Path(w, es, w2) && Enabled(w2, e)
    ensures Path(w, es + [e], Next(w2, e))
    decreases |es|
  {
    if es == [] {
      assert es + [e] == [e] && [e][1..] == [];
    } else {
      assert (es + [e])[0] == es[0] && (es + [e])[1..] == es[1..] + [e];
      PathSnoc(Next(w, es[0]), es[1..], w2, e);
    }
  }

  lemma Step(w: World, es: seq<Event>, at: World, e: Event, next: World) returns (more: seq<Event>)
    requires Path(w, es, at) && Enabled(at, e) && Next(at, e) == next
    ensures Path(w, more, next)
  {
    more := es + [e];
    PathSnoc(w, es, at, e);
  }

  /** Some run from here leads to two holders of one lock. */
  ghost predicate ExclusionLost(w: World) {
    exists es, at, a, b, l :: Path(w, es, at) && a != b && Holds(at, a, l) && Holds(at, b, l)
  }

  /** No run from a state with the invariant does. */
  lemma InvIsSafe(w: World)
    requires Inv(w)
    ensures !ExclusionLost(w)
  {
    if ExclusionLost(w) {
      var es, at, a, b, l :| Path(w, es, at) && a != b && Holds(at, a, l) && Holds(at, b, l);
      RunInv(w, es);
      InvExcludes(at, a, b, l);
      assert false;
    }
  }

  /** The state once every hook in flight but the unit's has ended. */
  function OnlyHook(w: World, u: string): World {
    w.(hooks := if u in w.hooks then map[u := w.hooks[u]] else map[])
  }

  lemma OneFails(w: World, u: string, k: string)
    requires k in w.hooks && k != u && !Stranded(w, k)
    ensures Enabled(w, Fail(k))
    ensures var next := Next(w, Fail(k));
            && OnlyHook(next, u) == OnlyHook(w, u) && w.hooks == next.hooks[k := w.hooks[k]] && k !in next.hooks
            && (forall x :: x in next.hooks ==> x in w.hooks && (Stranded(next, x) <==> Stranded(w, x)))
  {
    var next := Next(w, Fail(k));
    assert forall x, l :: LiveNow(next, x, l) <==> LiveNow(w, x, l);
  }

  /** Every other hook in flight may fail. */
  lemma {:induction false} EndOthers(w0: World, before: seq<Event>, w: World, u: string) returns (es: seq<Event>)
    requires Path(w0, before, w) && forall k :: k in w.hooks && k != u ==> !Stranded(w, k)
    ensures Path(w0, es, OnlyHook(w, u))
    decreases |w.hooks|
  {
    hide Path, Stranded, Next, Enabled;
    if k :| k in w.hooks && k != u {
      OneFails(w, u, k);
      var next := Next(w, Fail(k));
      es := Step(w0, before, w, Fail(k), next);
      es := EndOthers(w0, es, next, u);
    } else {
      es := before;
      assert w == OnlyHook(w, u);
    }
  }

  lemma {:induction false} LongerThanAll(used: set<Token>) returns (n: nat)
    ensures forall x :: x in used ==> |x.ts| < n
  {
    if used == {} {
      n := 0;
    } else {
      var x :| x in used;
      var m := LongerThanAll(used - {x});
      n := if m <= |x.ts| then |x.ts| + 1 else m;
      assert forall y :: y in used ==> y == x || y in used - {x};
    }
  }

  /** There is always a time that nobody has used. */
  lemma UnusedTime(used: set<Token>) returns (t: string)
    ensures t != "" && forall x :: x in used ==> x.ts != t
  {
    var n := LongerThanAll(used);
    t := seq(n + 1, _ => '0');
  }

  /** Only a leader in its closing phase is ever stranded, so at most one unit is. */
  lemma StrandedLeads(w: World, u: string)
    requires Inv(w) && Stranded(w, u)
    ensures Leads(w, u)
  {
    var l :| l in Row(w.local, u) && LiveNow(w, u, l);
    assert Published(w) in w.history;
    assert !Leads(w, u) ==> Unseen(w, u, l, Get(w.local, u, l));
  }
}
