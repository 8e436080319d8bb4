/** The queue check: message counts collated by the limits that match them, and the alerts they raise. */
module QueueStats {
  import opened Order
  import opened Wrappers

  datatype Name = Name(vhost: string, queue: string)

  datatype Stat = Stat(name: Name, messages: nat)

  /** A pattern for virtual hosts, one for queues, and the two thresholds. */
  datatype Limit = Limit(name: Name, warning: int, critical: int)

  /** `fnmatchcase(text, pattern)`, whatever it is. */
  type Matcher = (string, string) -> bool

  type Totals = map<Name, nat>

  predicate Matches(m: Matcher, n: Name, pattern: Name) {
    m(n.vhost, pattern.vhost) && m(n.queue, pattern.queue)
  }

  predicate Excluded(m: Matcher, n: Name, exclude: seq<Name>) {
    exists e :: e in exclude && Matches(m, n, e)
  }

  /** The first limit whose patterns match. */
  function FirstLimit(m: Matcher, n: Name, limits: seq<Limit>): Option<Limit> {
    if limits == [] then None
    else if Matches(m, n, limits[0].name) then Some(limits[0])
    else FirstLimit(m, n, limits[1..])
  }

  /** The check's configuration. */
  datatype Config = Config(m: Matcher, limits: seq<Limit>, exclude: seq<Name>, busiest: int)

  /** The keys a stat is added to, once for each occurrence. */
  function Routes(c: Config, n: Name): seq<Name> {
    if Excluded(c.m, n, c.exclude) then []
    else
      match FirstLimit(c.m, n, c.limits)
      case Some(l) => if c.busiest > 0 then [l.name, n] else [l.name]
      case None => [n]
  }

  function Of(t: Totals, k: Name): nat {
    if k in t then t[k] else 0
  }

  function Count(keys: seq<Name>, k: Name): nat {
    if keys == [] then 0 else (if keys[0] == k then 1 else 0) + Count(keys[1..], k)
  }

  /** `collated[k] += n`, starting from 0. */
  function Add(t: Totals, k: Name, n: nat): Totals {
    t[k := Of(t, k) + n]
  }

  function AddTo(t: Totals, keys: seq<Name>, n: nat): Totals
    decreases |keys|
  {
    if keys == [] then t else AddTo(Add(t, keys[0], n), keys[1..], n)
  }

  lemma AddToUnfold(t: Totals, k: Name, rest: seq<Name>, n: nat)
    ensures AddTo(t, [k] + rest, n) == AddTo(Add(t, k, n), rest, n)
    ensures rest == [] ==> AddTo(t, [k], n) == Add(t, k, n)
  {
    assert ([k] + rest)[1..] == rest;
  }

  /** `collate_stats` */
  function Collated(c: Config, stats: seq<Stat>): Totals {
    if stats == [] then map[]
    else
      var last := stats[|stats| - 1];
      AddTo(Collated(c, stats[..|stats| - 1]), Routes(c, last.name), last.messages)
  }

  method IsExcluded(m: Matcher, n: Name, exclude: seq<Name>) returns (skip: bool)
    ensures skip == Excluded(m, n, exclude)
  {
    skip := false;
    var i := 0;
    while i < |exclude|
      invariant 0 <= i <= |exclude|
      invariant !skip && !Excluded(m, n, exclude[..i])
    {
      assert exclude[..i + 1] == exclude[..i] + [exclude[i]];
      if Matches(m, n, exclude[i]) {
        assert exclude[i] in exclude;
        return true;
      }
      i := i + 1;
    }
    assert exclude[..i] == exclude;
  }

  /** The nested loops of `collate_stats`. */
  method CollateStats(c: Config, stats: seq<Stat>) returns (collated: Totals)
    ensures collated == Collated(c, stats)
  {
    collated := map[];
    var i := 0;
    while i < |stats|
      invariant 0 <= i <= |stats|
      invariant collated == Collated(c, stats[..i])
    {
      var n, messages := stats[i].name, stats[i].messages;
      assert stats[..i + 1][..i] == stats[..i];
      var skip := IsExcluded(c.m, n, c.exclude);
      if !skip {
        ghost var before := collated;
        var j := 0;
        while j < |c.limits| && !Matches(c.m, n, c.limits[j].name)
          invariant 0 <= j <= |c.limits|
          invariant FirstLimit(c.m, n, c.limits) == FirstLimit(c.m, n, c.limits[j..])
        {
          j := j + 1;
        }
        assert j < |c.limits| ==> c.limits[j..][0] == c.limits[j];
        if j < |c.limits| {
          var l := c.limits[j].name;
          collated := Add(collated, l, messages);
          if c.busiest > 0 {
            collated := Add(collated, n, messages);
          }
          AddToUnfold(before, l, [n], messages);
          AddToUnfold(before, l, [], messages);
          AddToUnfold(Add(before, l, messages), n, [], messages);
        } else {
          collated := Add(collated, n, messages);
          AddToUnfold(before, n, [], messages);
        }
      }
      i := i + 1;
    }
    assert stats[..i] == stats;
  }

  // ----- what a key's total is -----

  /** The messages routed to a key. */
  function Routed(c: Config, stats: seq<Stat>, k: Name): nat {
    if stats == [] then 0
    else
      var last := stats[|stats| - 1];
      Routed(c, stats[..|stats| - 1], k) + last.messages * Count(Routes(c, last.name), k)
  }

  lemma AddTotal(t: Totals, x: Name, n: nat, k: Name)
    ensures Of(Add(t, x, n), k) == Of(t, k) + if x == k then n else 0
    ensures k in Add(t, x, n) <==> k in t || k == x
  {
  }

  lemma {:induction false} AddToTotal(t: Totals, keys: seq<Name>, n: nat, k: Name)
    ensures Of(AddTo(t, keys, n), k) == Of(t, k) + n * Count(keys, k)
    ensures k in AddTo(t, keys, n) <==> k in t || k in keys
    decreases |keys|
  {
    hide Add, Of;
    if keys != [] {
      AddToTotal(Add(t, keys[0], n), keys[1..], n, k);
      AddTotal(t, keys[0], n, k);
      var rest := Count(keys[1..], k);
      if keys[0] == k {
        assert n * (1 + rest) == n + n * rest;
      }
    }
  }

  /** Each key holds exactly the messages routed to it, and is there exactly when something is. */
  lemma {:induction false} CollatedIsRouted(c: Config, stats: seq<Stat>, k: Name)
    ensures Of(Collated(c, stats), k) == Routed(c, stats, k)
    ensures k in Collated(c, stats) <==> exists s :: s in stats && k in Routes(c, s.name)
  {
    if stats != [] {
      var front, last := stats[..|stats| - 1], stats[|stats| - 1];
      CollatedIsRouted(c, front, k);
      AddToTotal(Collated(c, front), Routes(c, last.name), last.messages, k);
      assert forall s :: s in stats <==> s in front || s == last by {
        assert stats == front + [last];
      }
    }
  }

  /** With the busiest queues asked for, matched stats count for their own name once more. */
  function MatchedOwn(c: Config, stats: seq<Stat>, k: Name): nat {
    if stats == [] then 0
    else
      var last := stats[|stats| - 1];
      MatchedOwn(c, stats[..|stats| - 1], k) +
      if last.name == k && !Excluded(c.m, k, c.exclude) && FirstLimit(c.m, k, c.limits).Some? then last.messages else 0
  }

  /**
   Asking for the busiest queues changes the totals that are checked: every key gains what matched stats of its
   own name hold, so a limit that names one queue literally sees that queue's messages twice.
   */
  lemma {:induction false} BusiestAddsOwnNames(c: Config, stats: seq<Stat>, k: Name)
    requires c.busiest > 0
    ensures Routed(c, stats, k) == Routed(c.(busiest := 0), stats, k) + MatchedOwn(c, stats, k)
  {
    if stats != [] {
      BusiestAddsOwnNames(c, stats[..|stats| - 1], k);
      var n := stats[|stats| - 1].name;
      var q := c.(busiest := 0);
      if !Excluded(c.m, n, c.exclude) && FirstLimit(c.m, n, c.limits).Some? {
        var l := FirstLimit(c.m, n, c.limits).value.name;
        assert Count([l, n], k) == Count([l], k) + Count([n], k) by {
          assert [l, n][1..] == [n];
        }
        assert Count([n], k) == if n == k then 1 else 0;
        var x := stats[|stats| - 1].messages;
        assert x * (Count([l], k) + Count([n], k)) == x * Count([l], k) + x * Count([n], k);
      }
    }
  }

  // ----- conservation -----

  ghost function Sum(t: Totals): nat {
    if t == map[] then 0 else
      var k :| k in t;
      t[k] + Sum(t - {k})
  }

  lemma {:induction false} SumWithout(t: Totals, k: Name)
    requires k in t
    ensures Sum(t) == t[k] + Sum(t - {k})
    decreases |t|
  {
    var x :| x in t && Sum(t) == t[x] + Sum(t - {x});
    if x != k {
      SumWithout(t - {x}, k);
      SumWithout(t - {k}, x);
      assert t - {x} - {k} == t - {k} - {x};
    }
  }

  lemma SumAdd(t: Totals, k: Name, n: nat)
    ensures Sum(Add(t, k, n)) == Sum(t) + n
  {
    SumWithout(Add(t, k, n), k);
    if k in t {
      SumWithout(t, k);
      assert Add(t, k, n) - {k} == t - {k};
    } else {
      assert Add(t, k, n) - {k} == t;
    }
  }

  lemma {:induction false} SumAddTo(t: Totals, keys: seq<Name>, n: nat)
    ensures Sum(AddTo(t, keys, n)) == Sum(t) + n * |keys|
    decreases |keys|
  {
    if keys != [] {
      SumAdd(t, keys[0], n);
      SumAddTo(Add(t, keys[0], n), keys[1..], n);
      assert |keys[1..]| == |keys| - 1;
      assert n * |keys| == n + n * (|keys| - 1);
    }
  }

  function CountedMessages(c: Config, stats: seq<Stat>): nat {
    if stats == [] then 0
    else
      var last := stats[|stats| - 1];
      CountedMessages(c, stats[..|stats| - 1]) + if Excluded(c.m, last.name, c.exclude) then 0 else last.messages
  }

  /** Both of a name's patterns match. */
  predicate Hits(c: Config, n: Name, pattern: Name) {
    c.m(n.vhost, pattern.vhost) && c.m(n.queue, pattern.queue)
  }

  /** A stat that an exclusion matches is counted nowhere. */
  lemma ExcludedCountsNowhere(c: Config, stats: seq<Stat>, s: Stat, e: Name)
    requires e in c.exclude && Hits(c, s.name, e)
    ensures Collated(c, stats + [s]) == Collated(c, stats)
  {
    assert (stats + [s])[..|stats|] == stats;
  }

  /**
   Otherwise it is counted under the first limit that matches, and once more under its own name if the busiest queues
   are asked for.
   */
  lemma MatchedCountsUnderFirst(c: Config, stats: seq<Stat>, s: Stat, i: nat, k: Name)
    requires forall e :: e in c.exclude ==> !Hits(c, s.name, e)
    requires i < |c.limits| && Hits(c, s.name, c.limits[i].name)
    requires forall j :: 0 <= j < i ==> !Hits(c, s.name, c.limits[j].name)
    ensures var before, after := Collated(c, stats), Collated(c, stats + [s]);
            && Of(after, k) == Of(before, k) + (if k == c.limits[i].name then s.messages else 0)
                                             + (if c.busiest > 0 && k == s.name then s.messages else 0)
            && (k in after <==> k in before || k == c.limits[i].name || (c.busiest > 0 && k == s.name))
  {
    hide FirstLimit, Collated, Count, Of;
    FirstLimitIs(c.m, s.name, c.limits, i);
    CollatedSnoc(c, stats, s, k);
    var l := c.limits[i].name;
    assert Routes(c, s.name) == if c.busiest > 0 then [l, s.name] else [l];
    hide Routes, Matches, Hits;
    CountOne(l, k);
    CountTwo(l, s.name, k);
    TimesUpToTwo(s.messages);
  }

  /** And under its own name alone where no limit matches. */
  lemma UnmatchedCountsUnderItself(c: Config, stats: seq<Stat>, s: Stat, k: Name)
    requires forall e :: e in c.exclude ==> !Hits(c, s.name, e)
    requires forall l :: l in c.limits ==> !Hits(c, s.name, l.name)
    ensures var before, after := Collated(c, stats), Collated(c, stats + [s]);
            && Of(after, k) == Of(before, k) + (if k == s.name then s.messages else 0)
            && (k in after <==> k in before || k == s.name)
  {
    NoLimitIs(c.m, s.name, c.limits);
    CollatedSnoc(c, stats, s, k);
    CountOne(s.name, k);
  }

  lemma TimesUpToTwo(n: nat)
    ensures n * 0 == 0 && n * 1 == n && n * 2 == n + n
  {
  }

  lemma CollatedSnoc(c: Config, stats: seq<Stat>, s: Stat, k: Name)
    ensures var before, after, keys := Collated(c, stats), Collated(c, stats + [s]), Routes(c, s.name);
            && Of(after, k) == Of(before, k) + s.messages * Count(keys, k)
            && (k in after <==> k in before || k in keys)
  {
    assert (stats + [s])[..|stats|] == stats;
    AddToTotal(Collated(c, stats), Routes(c, s.name), s.messages, k);
  }

  lemma CountOne(a: Name, k: Name)
    ensures Count([a], k) == if a == k then 1 else 0
  {
    assert [a][1..] == [];
  }

  lemma CountTwo(a: Name, b: Name, k: Name)
    ensures Count([a, b], k) == (if a == k then 1 else 0) + (if b == k then 1 else 0)
  {
    assert [a, b][1..] == [b];
    CountOne(b, k);
  }

  lemma {:induction false} FirstLimitIs(m: Matcher, n: Name, limits: seq<Limit>, i: nat)
    requires i < |limits| && Matches(m, n, limits[i].name)
    requires forall j :: 0 <= j < i ==> !Matches(m, n, limits[j].name)
    ensures FirstLimit(m, n, limits) == Some(limits[i])
  {
    if i > 0 {
      assert !Matches(m, n, limits[0].name);
      assert forall j :: 0 <= j < i - 1 ==> limits[1..][j] == limits[j + 1];
      FirstLimitIs(m, n, limits[1..], i - 1);
    }
  }

  lemma {:induction false} NoLimitIs(m: Matcher, n: Name, limits: seq<Limit>)
    requires forall l :: l in limits ==> !Matches(m, n, l.name)
    ensures FirstLimit(m, n, limits) == None
  {
    if limits != [] {
      assert limits[0] in limits && forall l :: l in limits[1..] ==> l in limits;
      NoLimitIs(m, n, limits[1..]);
    }
  }

  /** For instance a limit for one queue before one for all: the queue's messages are counted under its own limit. */
  lemma FirstLimitExample(m: Matcher, messages: nat)
    requires m("/", "/") && m("nova", "nova") && m("/", "*") && m("nova", "*")
    ensures var nova, all := Name("/", "nova"), Name("*", "*");
            var c := Config(m, [Limit(nova, 10, 20), Limit(all, 1000, 2000)], [], 0);
            Of(Collated(c, [Stat(nova, messages)]), nova) == messages && Of(Collated(c, [Stat(nova, messages)]), all) == 0
  {
    var nova, all := Name("/", "nova"), Name("*", "*");
    var c := Config(m, [Limit(nova, 10, 20), Limit(all, 1000, 2000)], [], 0);
    assert "/"[0] != "*"[0];
    assert [] + [Stat(nova, messages)] == [Stat(nova, messages)];
    MatchedCountsUnderFirst(c, [], Stat(nova, messages), 0, nova);
    MatchedCountsUnderFirst(c, [], Stat(nova, messages), 0, all);
  }

  /** No message is lost or counted twice: without busiest queues the totals sum to the messages not excluded. */
  lemma {:induction false} CollationConserves(c: Config, stats: seq<Stat>)
    requires c.busiest <= 0
    ensures Sum(Collated(c, stats)) == CountedMessages(c, stats)
  {
    if stats != [] {
      var front, last := stats[..|stats| - 1], stats[|stats| - 1];
      CollationConserves(c, front);
      SumAddTo(Collated(c, front), Routes(c, last.name), last.messages);
    }
  }

  // ----- alerts -----

  datatype Status = UNKNOWN | WARN | CRIT

  /** `None` for the name when there is nothing to report on. */
  datatype Report = Report(name: Option<Name>, total: Option<nat>, status: Status)

  /** The limits as a dictionary: a later limit with the same patterns replaces an earlier one. */
  function LimitFor(limits: seq<Limit>, n: Name): Option<Limit> {
    if limits == [] then None
    else if limits[|limits| - 1].name == n then Some(limits[|limits| - 1])
    else LimitFor(limits[..|limits| - 1], n)
  }

  function Judge(total: nat, limit: Option<Limit>): Option<Status> {
    match limit
    case None => Some(UNKNOWN)
    case Some(l) => if total >= l.critical then Some(CRIT) else if total >= l.warning then Some(WARN) else None
  }

  function ReportOn(t: Totals, limits: seq<Limit>, n: Name): seq<Report> {
    match Judge(Of(t, n), LimitFor(limits, n))
    case None => []
    case Some(status) => [Report(Some(n), Some(Of(t, n)), status)]
  }

  function ReportsOn(t: Totals, limits: seq<Limit>, names: seq<Name>): seq<Report> {
    if names == [] then []
    else ReportsOn(t, limits, names[..|names| - 1]) + ReportOn(t, limits, names[|names| - 1])
  }

  ghost predicate InOrder(names: seq<Name>) {
    forall i, j :: 0 <= i < j < |names| ==> Before(Entry(names[i].vhost, names[i].queue), Entry(names[j].vhost, names[j].queue))
  }

  /** `sorted(stats_collated)` */
  method SortedNames(keys: set<Name>) returns (names: seq<Name>)
    ensures InOrder(names) && forall n :: n in names <==> n in keys
  {
    var entries := Sorted(set k | k in keys :: Entry(k.vhost, k.queue));
    names := seq(|entries|, i requires 0 <= i < |entries| => Name(entries[i].ts, entries[i].unit));
    forall n
      ensures n in names <==> n in keys
    {
      if n in names {
        var i :| 0 <= i < |names| && names[i] == n;
        assert entries[i] in entries;
      }
      if n in keys {
        assert Entry(n.vhost, n.queue) in entries;
        var i :| 0 <= i < |entries| && entries[i] == Entry(n.vhost, n.queue);
        assert names[i] == n;
      }
    }
  }

  ghost predicate IsLookup(lookup: map<Name, (int, int)>, limits: seq<Limit>) {
    && (forall n :: n in lookup <==> LimitFor(limits, n).Some?)
    && (forall n :: n in lookup ==>
          lookup[n] == (LimitFor(limits, n).value.warning, LimitFor(limits, n).value.critical))
  }

  /** The lookup of thresholds by name. */
  method LimitsLookup(limits: seq<Limit>) returns (lookup: map<Name, (int, int)>)
    ensures IsLookup(lookup, limits)
  {
    lookup := map[];
    var j := 0;
    while j < |limits|
      invariant 0 <= j <= |limits|
      invariant IsLookup(lookup, limits[..j])
    {
      lookup := lookup[limits[j].name := (limits[j].warning, limits[j].critical)];
      assert limits[..j + 1][..j] == limits[..j];
      j := j + 1;
    }
    assert limits[..j] == limits;
  }

  /** One round of the generator's loop. */
  method JudgeName(t: Totals, limits: seq<Limit>, lookup: map<Name, (int, int)>, n: Name) returns (reports: seq<Report>)
    requires n in t && IsLookup(lookup, limits)
    ensures reports == ReportOn(t, limits, n)
  {
    var total := t[n];
    if n !in lookup {
      return [Report(Some(n), Some(total), UNKNOWN)];
    }
    var (warning, critical) := lookup[n];
    if total >= critical {
      return [Report(Some(n), Some(total), CRIT)];
    } else if total >= warning {
      return [Report(Some(n), Some(total), WARN)];
    }
    return [];
  }

  /** `check_stats`: the reports in order of name. */
  method CheckStats(t: Totals, limits: seq<Limit>) returns (reports: seq<Report>, names: seq<Name>)
    ensures InOrder(names) && forall n :: n in names <==> n in t
    ensures reports == if t == map[] then [Report(None, None, UNKNOWN)] else ReportsOn(t, limits, names)
  {
    hide InOrder, IsLookup, ReportOn;
    var lookup := LimitsLookup(limits);
    reports := [];
    if t == map[] {
      reports := [Report(None, None, UNKNOWN)];
    }
    ghost var first := reports;
    names := SortedNames(t.Keys);
    assert |names| > 0 ==> names[0] in t;
    var i := 0;
    while i < |names|
      invariant 0 <= i <= |names|
      invariant reports == first + ReportsOn(t, limits, names[..i])
    {
      assert names[i] in t && names[..i + 1][..i] == names[..i];
      var more := JudgeName(t, limits, lookup, names[i]);
      reports := reports + more;
      i := i + 1;
    }
    assert names[..i] == names;
  }

  /** The names of a list of reports keep the order in which they were judged. */
  lemma {:induction false} ReportsAreAboutNames(t: Totals, limits: seq<Limit>, names: seq<Name>, r: Report)
    ensures r in ReportsOn(t, limits, names) <==> r.name.Some? && r.name.value in names && [r] == ReportOn(t, limits, r.name.value)
  {
    if names != [] {
      var front, last := names[..|names| - 1], names[|names| - 1];
      ReportsAreAboutNames(t, limits, front, r);
      assert forall n :: n in names <==> n in front || n == last by {
        assert names == front + [last];
      }
      assert r in ReportOn(t, limits, last) <==> [r] == ReportOn(t, limits, last);
    }
  }

  /** Of the limits with one name the last one counts. */
  lemma {:induction false} LimitIsLast(limits: seq<Limit>, n: Name, i: nat)
    requires i < |limits| && limits[i].name == n && forall j :: i < j < |limits| ==> limits[j].name != n
    ensures LimitFor(limits, n) == Some(limits[i])
  {
    if i < |limits| - 1 {
      LimitIsLast(limits[..|limits| - 1], n, i);
    }
  }

  lemma {:induction false} NoLimitFor(limits: seq<Limit>, n: Name)
    requires forall l :: l in limits ==> l.name != n
    ensures LimitFor(limits, n) == None
  {
    if limits != [] {
      NoLimitFor(limits[..|limits| - 1], n);
    }
  }

  /** A name with a limit is CRIT exactly at or above the critical threshold, WARN exactly from the warning one up to it. */
  lemma AlertsAreExact(t: Totals, limits: seq<Limit>, names: seq<Name>, n: Name)
    requires n in names && LimitFor(limits, n).Some?
    ensures var l := LimitFor(limits, n).value;
            var about := (status: Status) => Report(Some(n), Some(Of(t, n)), status) in ReportsOn(t, limits, names);
            && (about(CRIT) <==> Of(t, n) >= l.critical)
            && (about(WARN) <==> l.warning <= Of(t, n) < l.critical)
            && !about(UNKNOWN)
  {
    ReportsAreAboutNames(t, limits, names, Report(Some(n), Some(Of(t, n)), CRIT));
    ReportsAreAboutNames(t, limits, names, Report(Some(n), Some(Of(t, n)), WARN));
    ReportsAreAboutNames(t, limits, names, Report(Some(n), Some(Of(t, n)), UNKNOWN));
  }

  /** A collated name without a limit of its own is UNKNOWN, and only such a name is. */
  lemma UnlimitedIsUnknown(t: Totals, limits: seq<Limit>, names: seq<Name>, n: Name)
    requires n in names
    ensures Report(Some(n), Some(Of(t, n)), UNKNOWN) in ReportsOn(t, limits, names) <==> LimitFor(limits, n).None?
  {
    ReportsAreAboutNames(t, limits, names, Report(Some(n), Some(Of(t, n)), UNKNOWN));
  }
}
