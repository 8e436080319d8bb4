/** Python's ordering of `str` values, and of the (timestamp, unit) pairs the coordinator sorts. */
module Order {

  /** Python's `a < b` on strings: the first differing code point decides, a proper prefix is smaller. */
  predicate Less(a: string, b: string) {
    |b| > 0 && (|a| == 0 || a[0] < b[0] || (a[0] == b[0] && Less(a[1..], b[1..])))
  }

  lemma DiffersLater(a: string, b: string, i: nat)
    requires FirstDiffers(a, b, i)
    ensures i > 0 ==> a != "" && b != "" && a[0] == b[0] && FirstDiffers(a[1..], b[1..], i - 1)
  {
    if i > 0 {
      assert a[..i][0] == a[0] && b[..i][0] == b[0];
      assert a[1..][..i - 1] == a[..i][1..] && b[1..][..i - 1] == b[..i][1..];
    }
  }

  lemma DiffersEarlier(a: string, b: string, i: nat)
    requires a != "" && b != "" && a[0] == b[0] && FirstDiffers(a[1..], b[1..], i)
    ensures FirstDiffers(a, b, i + 1)
  {
    assert a[..i + 1] == [a[0]] + a[1..][..i] && b[..i + 1] == [b[0]] + b[1..][..i];
  }

  /** Two texts are ordered where they first differ, and a beginning comes before what it begins. */
  lemma {:induction false} LessExactly(a: string, b: string)
    ensures Less(a, b) <==> exists i :: FirstDiffers(a, b, i)
    decreases |a|
  {
    forall i: nat | FirstDiffers(a, b, i)
      ensures i == 0 || (a != "" && b != "" && a[0] == b[0] && FirstDiffers(a[1..], b[1..], i - 1))
    {
      DiffersLater(a, b, i);
    }
    assert a[..0] == b[..0];
    if a != "" && b != "" && a[0] == b[0] {
      LessExactly(a[1..], b[1..]);
      if Less(a, b) {
        var i :| FirstDiffers(a[1..], b[1..], i);
        DiffersEarlier(a, b, i);
      }
    } else if Less(a, b) {
      assert FirstDiffers(a, b, 0);
    }
  }

  predicate FirstDiffers(a: string, b: string, i: nat) {
    i <= |a| && i < |b| && a[..i] == b[..i] && (i == |a| || a[i] < b[i])
  }

  /** Requests are ordered by time, and by unit where the times are the same. */
  lemma BeforeExactly(ts: string, u: string, ts2: string, v: string)
    ensures Before(Entry(ts, u), Entry(ts2, v)) <==> if ts == ts2 then Less(u, v) else Less(ts, ts2)
  {
    LessIrreflexive(ts);
  }

  lemma {:induction false} LessIrreflexive(a: string)
    ensures !Less(a, a)
  {
    if |a| > 0 {
      LessIrreflexive(a[1..]);
    }
  }

  lemma {:induction false} LessTransitive(a: string, b: string, c: string)
    requires Less(a, b) && Less(b, c)
    ensures Less(a, c)
  {
    if |a| > 0 && a[0] == b[0] == c[0] {
      LessTransitive(a[1..], b[1..], c[1..]);
    }
  }

  lemma {:induction false} LessTotal(a: string, b: string)
    ensures a == b || Less(a, b) || Less(b, a)
  {
    if |a| > 0 && |b| > 0 && a[0] == b[0] {
      LessTotal(a[1..], b[1..]);
      assert a == [a[0]] + a[1..] && b == [b[0]] + b[1..];
    }
  }

  lemma LessAsymmetric(a: string, b: string)
    requires Less(a, b)
    ensures !Less(b, a) && a != b
  {
    LessIrreflexive(a);
    if Less(b, a) {
      LessTransitive(a, b, a);
    }
  }

  /** A queued lock request: the tuple `(ts, unit)` of `BaseCoordinator.grant`. */
  datatype Entry = Entry(ts: string, unit: string)

  /** Python's `<` on those tuples. */
  predicate Before(a: Entry, b: Entry) {
    Less(a.ts, b.ts) || (a.ts == b.ts && Less(a.unit, b.unit))
  }

  lemma BeforeAsymmetric(a: Entry, b: Entry)
    requires Before(a, b)
    ensures !Before(b, a) && a != b
  {
    if a.ts == b.ts {
      LessIrreflexive(a.ts);
      LessAsymmetric(a.unit, b.unit);
    } else {
      LessAsymmetric(a.ts, b.ts);
    }
  }

  lemma BeforeTransitive(a: Entry, b: Entry, c: Entry)
    requires Before(a, b) && Before(b, c)
    ensures Before(a, c)
  {
    if Less(a.ts, b.ts) && Less(b.ts, c.ts) {
      LessTransitive(a.ts, b.ts, c.ts);
    } else if a.ts == b.ts == c.ts && Less(a.unit, b.unit) && Less(b.unit, c.unit) {
      LessTransitive(a.unit, b.unit, c.unit);
    }
  }

  lemma BeforeTotal(a: Entry, b: Entry)
    ensures a == b || Before(a, b) || Before(b, a)
  {
    LessTotal(a.ts, b.ts);
    LessTotal(a.unit, b.unit);
  }

  /** Every non-empty finite set of entries has a least one. */
  lemma {:induction false} LeastEntry(s: set<Entry>) returns (least: Entry)
    requires s != {}
    ensures least in s && forall e :: e in s && e != least ==> Before(least, e)
    decreases |s|
  {
    var x :| x in s;
    if s == {x} {
      least := x;
    } else {
      var m := LeastEntry(s - {x});
      BeforeTotal(x, m);
      least := if Before(x, m) then x else m;
      forall e | e in s && e != least
        ensures Before(least, e)
      {
        if least == x && e != m {
          BeforeTransitive(x, m, e);
        }
      }
    }
  }

  /** `queue` is sorted in the strict order of entries. */
  ghost predicate Ascending(queue: seq<Entry>) {
    forall i, j :: 0 <= i < j < |queue| ==> Before(queue[i], queue[j])
  }

  /** `sorted(reqs)` of a set of entries. */
  method Sorted(reqs: set<Entry>) returns (queue: seq<Entry>)
    ensures Ascending(queue)
    ensures forall e :: e in queue <==> e in reqs
  {
    queue := [];
    var todo := reqs;
    while todo != {}
      invariant todo <= reqs
      invariant Ascending(queue)
      invariant forall e :: e in queue <==> e in reqs && e !in todo
    {
      var x :| x in todo;
      var i := Insertion(queue, x);
      Inserted(queue, x, i);
      queue := queue[..i] + [x] + queue[i..];
      todo := todo - {x};
    }
  }

  lemma Inserted(queue: seq<Entry>, x: Entry, i: nat)
    requires Ascending(queue) && i <= |queue|
    requires forall j :: 0 <= j < i ==> Before(queue[j], x)
    requires forall j :: i <= j < |queue| ==> Before(x, queue[j])
    ensures Ascending(queue[..i] + [x] + queue[i..])
    ensures forall e :: e in queue[..i] + [x] + queue[i..] <==> e == x || e in queue
  {
    hide Before;
    assert queue == queue[..i] + queue[i..];
  }

  /** The place of a new entry in an ascending queue. */
  method Insertion(queue: seq<Entry>, x: Entry) returns (i: nat)
    requires Ascending(queue) && x !in queue
    ensures i <= |queue|
    ensures forall j :: 0 <= j < i ==> Before(queue[j], x)
    ensures forall j :: i <= j < |queue| ==> Before(x, queue[j])
  {
    i := 0;
    while i < |queue| && Before(queue[i], x)
      invariant i <= |queue|
      invariant forall j :: 0 <= j < i ==> Before(queue[j], x)
    {
      i := i + 1;
    }
    if i < |queue| {
      BeforeTotal(x, queue[i]);
      forall j | i <= j < |queue|
        ensures Before(x, queue[j])
      {
        if j > i {
          BeforeTransitive(x, queue[i], queue[j]);
        }
      }
    }
  }
}
