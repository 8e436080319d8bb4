/** `unitdata.Storage`: a transactional key-value store that keeps a history of values by hook. */
module KvStore {
  import opened Wrappers

  type Values = map<string, string>

  /** A row of `kv_revisions` is identified by key and revision. */
  datatype RowId = RowId(key: string, revision: nat)

  /** The tables: `kv`, `kv_revisions`, and the number of rows inserted into `hooks` so far. */
  datatype Db = Db(kv: Values, revisions: map<RowId, string>, hooks: nat)

  /** Working tables, last committed tables, and the revision of the open hook scope. */
  datatype State = State(db: Db, saved: Db, revision: Option<nat>)

  function Lookup(m: Values, k: string): Option<string> {
    if k in m then Some(m[k]) else None
  }

  /** `set`: nothing is recorded for a value that does not change, or outside a scope. */
  function SetDb(db: Db, keep: bool, revision: Option<nat>, k: string, v: string): Db {
    if Lookup(db.kv, k) == Some(v) then db
    else if !keep || revision.None? then db.(kv := db.kv[k := v])
    else db.(kv := db.kv[k := v], revisions := db.revisions[RowId(k, revision.value) := v])
  }

  /** `update`, in any order of the mapping's keys. */
  function UpdateDb(db: Db, keep: bool, revision: Option<nat>, mapping: Values, prefix: string): Db {
    SetMany(db, keep, revision, Prefixed(mapping, prefix))
  }

  function SetMany(db: Db, keep: bool, revision: Option<nat>, updates: Values): Db {
    var changed := Changed(db.kv, updates);
    var rows := if !keep || revision.None? then map[] else RowsFor(changed, revision.value);
    db.(kv := db.kv + changed, revisions := db.revisions + rows)
  }

  function Changed(kv: Values, updates: Values): Values {
    map k | k in updates && Lookup(kv, k) != Some(updates[k]) :: updates[k]
  }

  /** The rows that record values under one revision. */
  function RowsFor(changed: Values, revision: nat): map<RowId, string> {
    map id | id in (set k | k in changed :: RowId(k, revision)) :: changed[id.key]
  }

  function Prefixed(mapping: Values, prefix: string): Values {
    map k | k in (set x | x in mapping :: prefix + x) && |prefix| <= |k| && k[|prefix|..] in mapping :: mapping[k[|prefix|..]]
  }

  lemma PrefixedLookup(mapping: Values, prefix: string, k: string)
    ensures Lookup(Prefixed(mapping, prefix), prefix + k) == Lookup(mapping, k)
  {
    assert (prefix + k)[|prefix|..] == k;
    if k in mapping {
      assert prefix + k in (set x | x in mapping :: prefix + x);
    }
  }

  lemma PrefixedKeys(mapping: Values, prefix: string, k: string)
    requires k in Prefixed(mapping, prefix)
    ensures |prefix| <= |k| && k == prefix + k[|prefix|..] && k[|prefix|..] in mapping
  {
    var x :| x in mapping && k == prefix + x;
  }

  // ----- LIKE -----

  function Fold(c: char): char {
    if 'A' <= c <= 'Z' then (c as int + 32) as char else c
  }

  /** SQL `s like p`: `%` matches any text, `_` any one character, letters regardless of ASCII case. */
  predicate Like(p: string, s: string)
    decreases |p| + |s|
  {
    if p == "" then s == ""
    else if p[0] == '%' then Like(p[1..], s) || (s != "" && Like(p, s[1..]))
    else s != "" && (p[0] == '_' || Fold(p[0]) == Fold(s[0])) && Like(p[1..], s[1..])
  }

  lemma {:induction false} LikeAnything(s: string)
    ensures Like("%", s)
  {
    if s != "" {
      LikeAnything(s[1..]);
    }
  }

  /** A key that begins with the prefix always matches it. */
  lemma {:induction false} LikeSelf(prefix: string, k: string)
    ensures Like(prefix + "%", prefix + k)
  {
    if prefix == "" {
      assert prefix + "%" == "%" && prefix + k == k;
      LikeAnything(k);
    } else {
      var p, s := prefix + "%", prefix + k;
      assert p[1..] == prefix[1..] + "%" && s[1..] == prefix[1..] + k;
      LikeSelf(prefix[1..], k);
      assert Like(p[1..], s[1..]);
      if p[0] == '%' {
        assert Like(p, s[1..]);
      }
    }
  }

  /** A `%` matches any text. */
  lemma {:induction false} LikePercent(p: string, s: string)
    ensures Like("%" + p, s) <==> exists i :: 0 <= i <= |s| && Like(p, s[i..])
    decreases |s|
  {
    var q := "%" + p;
    assert q[0] == '%' && q[1..] == p && s[0..] == s;
    if s == "" {
      assert s[|s|..] == "";
    } else {
      LikePercent(p, s[1..]);
      if Like(q, s[1..]) {
        var i :| 0 <= i <= |s[1..]| && Like(p, s[1..][i..]);
        assert s[1..][i..] == s[i + 1..];
      }
      if i :| 0 < i <= |s| && Like(p, s[i..]) {
        assert s[1..][i - 1..] == s[i..];
      }
    }
  }

  /** A `_` matches any one character, and any other character itself in either case. */
  lemma LikeCharacter(c: char, p: string, s: string)
    requires c != '%'
    ensures Like([c] + p, s) <==> s != "" && (c == '_' || Fold(c) == Fold(s[0])) && Like(p, s[1..])
  {
    assert ([c] + p)[0] == c && ([c] + p)[1..] == p;
  }

  predicate SameFolded(a: string, b: string) {
    |a| == |b| && forall i :: 0 <= i < |a| ==> Fold(a[i]) == Fold(b[i])
  }

  /** A prefix without wildcards matches exactly the keys that begin with it, regardless of ASCII case. */
  lemma {:induction false} LikeIsFoldedPrefix(prefix: string, s: string)
    requires '%' !in prefix && '_' !in prefix
    ensures Like(prefix + "%", s) <==> |prefix| <= |s| && SameFolded(prefix, s[..|prefix|])
  {
    var p := prefix + "%";
    if prefix == "" {
      assert p == "%";
      LikeAnything(s);
    } else if s != "" {
      assert p[1..] == prefix[1..] + "%";
      LikeIsFoldedPrefix(prefix[1..], s[1..]);
      if |prefix| <= |s| {
        assert s[1..][..|prefix| - 1] == s[..|prefix|][1..];
        assert SameFolded(prefix, s[..|prefix|]) <==> Fold(prefix[0]) == Fold(s[0]) && SameFolded(prefix[1..], s[..|prefix|][1..]) by {
          FoldedCons(prefix, s[..|prefix|]);
        }
      }
    }
  }

  lemma FoldedCons(a: string, b: string)
    requires |a| == |b| > 0
    ensures SameFolded(a, b) <==> Fold(a[0]) == Fold(b[0]) && SameFolded(a[1..], b[1..])
  {
    if Fold(a[0]) == Fold(b[0]) && SameFolded(a[1..], b[1..]) {
      forall i | 0 <= i < |a|
        ensures Fold(a[i]) == Fold(b[i])
      {
        if i > 0 {
          assert a[i] == a[1..][i - 1] && b[i] == b[1..][i - 1];
        }
      }
    }
    if SameFolded(a, b) {
      assert forall i :: 0 <= i < |a| - 1 ==> a[1..][i] == a[i + 1] && b[1..][i] == b[i + 1];
    }
  }

  /** `k[n:]`, which is empty past the end. */
  function Drop(k: string, n: nat): string {
    if n <= |k| then k[n..] else ""
  }

  /** `r` is what `getrange(prefix, strip=True)` can return: on a clash of stripped keys the later row wins. */
  ghost predicate Ranges(kv: Values, prefix: string, seen: set<string>, r: Values) {
    Ranged(kv, prefix, |prefix|, seen, r)
  }

  /** The same with the first `cut` characters of each key removed. */
  ghost predicate Ranged(kv: Values, prefix: string, cut: nat, seen: set<string>, r: Values) {
    && (forall k :: k in kv && k in seen && Like(prefix + "%", k) ==> Drop(k, cut) in r)
    && (forall n :: n in r ==> RangedFrom(kv, prefix, cut, seen, n, r[n]))
  }

  ghost predicate RangedFrom(kv: Values, prefix: string, cut: nat, seen: set<string>, n: string, v: string) {
    exists k :: k in kv && k in seen && Like(prefix + "%", k) && Drop(k, cut) == n && kv[k] == v
  }

  /** Unstripped keys do not clash. */
  lemma WholeRange(kv: Values, prefix: string, r: Values)
    requires Ranged(kv, prefix, 0, kv.Keys, r)
    ensures r == map k | k in kv && Like(prefix + "%", k) :: kv[k]
  {
    var whole := map k | k in kv && Like(prefix + "%", k) :: kv[k];
    forall k
      ensures k in r <==> k in whole
      ensures k in r ==> r[k] == whole[k]
    {
      if k in r {
        assert RangedFrom(kv, prefix, 0, kv.Keys, k, r[k]);
      }
      assert Drop(k, 0) == k;
    }
  }

  // ----- delta -----

  datatype Change = Change(previous: Option<string>, current: Option<string>)

  /** The changes from `previous` to `mapping`. */
  function DeltaOf(previous: Values, mapping: Values): map<string, Change> {
    DeltaOn(previous, mapping, previous.Keys + mapping.Keys)
  }

  function DeltaOn(previous: Values, mapping: Values, keys: set<string>): map<string, Change> {
    map k | k in keys && Lookup(previous, k) != Lookup(mapping, k) :: Change(Lookup(previous, k), Lookup(mapping, k))
  }

  /** The keys whose value differs, each with both values. */
  ghost predicate IsDelta(delta: map<string, Change>, previous: Values, mapping: Values) {
    forall k ::
      if Lookup(previous, k) == Lookup(mapping, k) then k !in delta
      else k in delta && delta[k] == Change(Lookup(previous, k), Lookup(mapping, k))
  }

  lemma DeltaExactly(previous: Values, mapping: Values)
    ensures IsDelta(DeltaOf(previous, mapping), previous, mapping)
  {
  }

  lemma NoDelta(previous: Values, mapping: Values)
    ensures DeltaOn(previous, mapping, {}) == map[]
  {
  }

  lemma DeltaOneMore(previous: Values, mapping: Values, keys: set<string>, k: string)
    ensures DeltaOn(previous, mapping, keys + {k}) ==
            if Lookup(previous, k) == Lookup(mapping, k) then DeltaOn(previous, mapping, keys)
            else DeltaOn(previous, mapping, keys)[k := Change(Lookup(previous, k), Lookup(mapping, k))]
  {
  }

  /** Some other stored key strips to a name of the mapping and holds another value. */
  ghost predicate Shadowed(kv: Values, mapping: Values, prefix: string) {
    exists k :: k in kv && Like(prefix + "%", k) && ShadowKey(kv, mapping, prefix, k)
  }

  predicate ShadowKey(kv: Values, mapping: Values, prefix: string, k: string) {
    var n := Drop(k, |prefix|);
    k in kv && n in mapping && k != prefix + n && kv[k] != mapping[n]
  }

  lemma UpdatedLookup(db: Db, keep: bool, revision: Option<nat>, mapping: Values, prefix: string, k: string)
    ensures Lookup(UpdateDb(db, keep, revision, mapping, prefix).kv, k) ==
            if k in Prefixed(mapping, prefix) then Lookup(Prefixed(mapping, prefix), k) else Lookup(db.kv, k)
  {
  }

  /**
   After `update` a repeated `delta` shows only keys the mapping does not have, whatever the order of rows,
   exactly when no other stored key is confused with one of the mapping's: LIKE has wildcards and ignores case.
   */
  lemma DeltaAfterUpdate(db: Db, keep: bool, revision: Option<nat>, mapping: Values, prefix: string)
    ensures var kv := UpdateDb(db, keep, revision, mapping, prefix).kv;
            (forall r, k :: Ranges(kv, prefix, kv.Keys, r) && k in DeltaOf(r, mapping) ==> k !in mapping)
            <==> !Shadowed(kv, mapping, prefix)
  {
    hide UpdateDb, Shadowed, Ranged;
    var kv := UpdateDb(db, keep, revision, mapping, prefix).kv;
    if !Shadowed(kv, mapping, prefix) {
      forall r, k | Ranges(kv, prefix, kv.Keys, r) && k in mapping
        ensures k !in DeltaOf(r, mapping)
      {
        UpdatedRange(db, keep, revision, mapping, prefix, r, k);
      }
    } else {
      ShadowShows(kv, mapping, prefix);
    }
  }

  /** A shadowing key can win the clash, and then the delta shows it. */
  lemma ShadowShows(kv: Values, mapping: Values, prefix: string)
    requires Shadowed(kv, mapping, prefix)
    ensures exists r, k :: Ranges(kv, prefix, kv.Keys, r) && k in DeltaOf(r, mapping) && k in mapping
  {
    hide Like, Drop;
    var k :| k in kv && Like(prefix + "%", k) && ShadowKey(kv, mapping, prefix, k);
    var n := Drop(k, |prefix|);
    var r := SomeRange(kv, prefix)[n := kv[k]];
    assert RangedFrom(kv, prefix, |prefix|, kv.Keys, n, kv[k]);
    assert Ranges(kv, prefix, kv.Keys, r);
    assert n in DeltaOf(r, mapping);
  }

  lemma UpdatedRange(db: Db, keep: bool, revision: Option<nat>, mapping: Values, prefix: string, r: Values, n: string)
    requires var kv := UpdateDb(db, keep, revision, mapping, prefix).kv;
             Ranges(kv, prefix, kv.Keys, r) && !Shadowed(kv, mapping, prefix)
    requires n in mapping
    ensures Lookup(r, n) == Some(mapping[n])
  {
    var kv := UpdateDb(db, keep, revision, mapping, prefix).kv;
    PrefixedLookup(mapping, prefix, n);
    UpdatedLookup(db, keep, revision, mapping, prefix, prefix + n);
    LikeSelf(prefix, n);
    assert prefix + n in kv && Drop(prefix + n, |prefix|) == n;
    assert n in r && RangedFrom(kv, prefix, |prefix|, kv.Keys, n, r[n]);
    var k :| k in kv && Like(prefix + "%", k) && Drop(k, |prefix|) == n && kv[k] == r[n];
    assert !ShadowKey(kv, mapping, prefix, k);
  }

  /** One possible result of `getrange`. */
  ghost function SomeRange(kv: Values, prefix: string): (r: Values)
    ensures Ranges(kv, prefix, kv.Keys, r)
  {
    var names := set k | k in kv && Like(prefix + "%", k) :: Drop(k, |prefix|);
    map n | n in names :: kv[Witness(kv, prefix, n)]
  }

  ghost function Witness(kv: Values, prefix: string, n: string): (k: string)
    requires n in set x | x in kv && Like(prefix + "%", x) :: Drop(x, |prefix|)
    ensures k in kv && Like(prefix + "%", k) && Drop(k, |prefix|) == n
  {
    var k :| k in kv && Like(prefix + "%", k) && Drop(k, |prefix|) == n;
    k
  }

  /** A wildcard in the prefix can make `delta` report a key that was just updated. */
  lemma WildcardPrefixShadows()
    ensures var db := Db(map["ax" := "2"], map[], 0);
            Shadowed(UpdateDb(db, false, None, map["x" := "1"], "_").kv, map["x" := "1"], "_")
  {
    var db, mapping := Db(map["ax" := "2"], map[], 0), map["x" := "1"];
    var kv := UpdateDb(db, false, None, mapping, "_").kv;
    assert forall x: string :: ("_" + x)[0] == '_';
    assert "ax" !in Prefixed(mapping, "_");
    assert Like("_%", "ax") by {
      LikeAnything("x");
      assert "_%"[1..] == "%" && "ax"[1..] == "x";
    }
    assert "_" + "%" == "_%";
    assert Drop("ax", 1) == "x";
    assert ShadowKey(kv, mapping, "_", "ax");
  }

  // ----- history -----

  /** Each key's newest history row holds its current value, and no row is newer than the last hook. */
  ghost predicate HistoryOk(db: Db) {
    && (forall k :: k in db.kv ==> exists n :: Newest(db, k, n) && db.revisions[RowId(k, n)] == db.kv[k])
    && (forall id :: id in db.revisions ==> id.revision <= db.hooks && id.key in db.kv)
  }

  ghost predicate Newest(db: Db, k: string, n: nat) {
    RowId(k, n) in db.revisions && forall id :: id in db.revisions && id.key == k ==> id.revision <= n
  }

  /** What a hook does to the store inside its scope. */
  datatype Write = Set(key: string, value: string) | Update(mapping: Values, prefix: string) | Flush

  function Written(s: State, keep: bool, w: Write): State {
    match w
    case Set(k, v) => s.(db := SetDb(s.db, keep, s.revision, k, v))
    case Update(m, p) => s.(db := UpdateDb(s.db, keep, s.revision, m, p))
    case Flush => s.(saved := s.db)
  }

  function WrittenAll(s: State, keep: bool, ws: seq<Write>): State
    decreases |ws|
  {
    if ws == [] then s else WrittenAll(Written(s, keep, ws[0]), keep, ws[1..])
  }

  /** The last value the writes give the key. */
  function LastValue(ws: seq<Write>, k: string): Option<string>
    decreases |ws|
  {
    if ws == [] then None
    else
      var later := LastValue(ws[1..], k);
      if later.Some? then later
      else
        match ws[0]
        case Set(key, v) => if key == k then Some(v) else None
        case Update(m, p) => Lookup(Prefixed(m, p), k)
        case Flush => None
  }

  /** What `get` reads back after any writes: the last value written under the key, or else what was there. */
  lemma {:induction false} LastWriteIsRead(s: State, keep: bool, ws: seq<Write>, k: string)
    ensures Lookup(WrittenAll(s, keep, ws).db.kv, k) ==
            if LastValue(ws, k).Some? then LastValue(ws, k) else Lookup(s.db.kv, k)
    decreases |ws|
  {
    if ws != [] {
      if ws[0].Update? {
        UpdatedLookup(s.db, keep, s.revision, ws[0].mapping, ws[0].prefix, k);
      }
      LastWriteIsRead(Written(s, keep, ws[0]), keep, ws[1..], k);
    }
  }

  /** A row is recorded for a key exactly when its value changes, under the open revision and where revisions are kept. */
  lemma SetRecordsChanges(db: Db, keep: bool, revision: Option<nat>, k: string, v: string, id: RowId)
    ensures var db2 := SetDb(db, keep, revision, k, v);
            && db2.hooks == db.hooks
            && (forall x :: Lookup(db2.kv, x) == if x == k then Some(v) else Lookup(db.kv, x))
            && (if keep && id.key == k && Some(id.revision) == revision && Lookup(db.kv, k) != Some(v)
                then id in db2.revisions && db2.revisions[id] == v
                else (id in db2.revisions <==> id in db.revisions) &&
                     (id in db.revisions ==> db2.revisions[id] == db.revisions[id]))
  {
  }

  lemma UpdateRecordsChanges(db: Db, keep: bool, revision: Option<nat>, mapping: Values, prefix: string, id: RowId)
    ensures var db2, v := UpdateDb(db, keep, revision, mapping, prefix), Lookup(Prefixed(mapping, prefix), id.key);
            && db2.hooks == db.hooks
            && (if keep && v.Some? && Some(id.revision) == revision && Lookup(db.kv, id.key) != v
                then id in db2.revisions && db2.revisions[id] == v.value
                else (id in db2.revisions <==> id in db.revisions) &&
                     (id in db.revisions ==> db2.revisions[id] == db.revisions[id]))
  {
    hide RowsFor, Prefixed;
    if revision.Some? {
      RowsForLookup(Changed(db.kv, Prefixed(mapping, prefix)), revision.value, id);
    }
  }

  /** How the body of a scope ends; `Exits` is `SystemExit` or any other exception that is no `Exception`. */
  datatype Ending = Returns | Raises | Exits

  /** `with hook_scope()` around the writes. An exit neither commits nor rolls back, and leaves the scope open. */
  function Scoped(s: State, keep: bool, ws: seq<Write>, ending: Ending): State
    requires s.revision.None?
  {
    var inside := State(s.db.(hooks := s.db.hooks + 1), s.saved, Some(s.db.hooks + 1));
    var t := WrittenAll(inside, keep, ws);
    match ending
    case Returns => State(t.db, t.db, None)
    case Raises => State(t.saved, t.saved, None)
    case Exits => t
  }

  /** The store as the next process opens it. */
  function Reopened(s: State): State {
    State(s.saved, s.saved, None)
  }

  lemma SetKeepsHistory(db: Db, k: string, v: string)
    requires HistoryOk(db)
    ensures HistoryOk(SetDb(db, true, Some(db.hooks), k, v))
  {
    var db2 := SetDb(db, true, Some(db.hooks), k, v);
    forall x | x in db2.kv
      ensures exists n :: Newest(db2, x, n) && db2.revisions[RowId(x, n)] == db2.kv[x]
    {
      if x == k && Lookup(db.kv, k) != Some(v) {
        assert Newest(db2, k, db.hooks);
      } else {
        var n :| Newest(db, x, n) && db.revisions[RowId(x, n)] == db.kv[x];
        assert Newest(db2, x, n);
      }
    }
  }

  lemma UpdateKeepsHistory(db: Db, mapping: Values, prefix: string)
    requires HistoryOk(db)
    ensures HistoryOk(UpdateDb(db, true, Some(db.hooks), mapping, prefix))
  {
    hide HistoryOk, SetMany, Prefixed;
    ManyKeepHistory(db, Prefixed(mapping, prefix));
  }

  lemma RowsForLookup(changed: Values, revision: nat, id: RowId)
    ensures id in RowsFor(changed, revision) <==> id.revision == revision && id.key in changed
    ensures id in RowsFor(changed, revision) ==> RowsFor(changed, revision)[id] == changed[id.key]
  {
  }

  /** One more value under the last revision becomes its key's newest row. */
  lemma NewRowIsNewest(db: Db, changed: Values, db2: Db, x: string)
    requires HistoryOk(db) && x in changed
    requires db2 == db.(kv := db.kv + changed, revisions := db.revisions + RowsFor(changed, db.hooks))
    ensures exists n :: Newest(db2, x, n) && db2.revisions[RowId(x, n)] == db2.kv[x]
  {
    hide RowsFor;
    RowsForLookup(changed, db.hooks, RowId(x, db.hooks));
    forall id | id in db2.revisions && id.key == x
      ensures id.revision <= db.hooks
    {
      RowsForLookup(changed, db.hooks, id);
    }
    assert Newest(db2, x, db.hooks);
  }

  lemma OldRowStaysNewest(db: Db, changed: Values, db2: Db, x: string)
    requires HistoryOk(db) && x in db.kv && x !in changed
    requires db2 == db.(kv := db.kv + changed, revisions := db.revisions + RowsFor(changed, db.hooks))
    ensures exists n :: Newest(db2, x, n) && db2.revisions[RowId(x, n)] == db2.kv[x]
  {
    hide RowsFor;
    var n :| Newest(db, x, n) && db.revisions[RowId(x, n)] == db.kv[x];
    RowsForLookup(changed, db.hooks, RowId(x, n));
    forall id | id in db2.revisions && id.key == x
      ensures id.revision <= n
    {
      RowsForLookup(changed, db.hooks, id);
    }
    assert Newest(db2, x, n);
  }

  lemma ManyKeepHistory(db: Db, updates: Values)
    requires HistoryOk(db)
    ensures HistoryOk(SetMany(db, true, Some(db.hooks), updates))
  {
    hide Changed, RowsFor;
    var changed := Changed(db.kv, updates);
    var db2 := SetMany(db, true, Some(db.hooks), updates);
    forall x | x in db2.kv
      ensures exists n :: Newest(db2, x, n) && db2.revisions[RowId(x, n)] == db2.kv[x]
    {
      if x in changed {
        NewRowIsNewest(db, changed, db2, x);
      } else {
        OldRowStaysNewest(db, changed, db2, x);
      }
    }
    forall id | id in db2.revisions
      ensures id.revision <= db2.hooks && id.key in db2.kv
    {
      RowsForLookup(changed, db.hooks, id);
    }
  }

  lemma {:induction false} WritesKeepHistory(s: State, ws: seq<Write>)
    requires HistoryOk(s.db) && HistoryOk(s.saved) && s.revision == Some(s.db.hooks)
    ensures var t := WrittenAll(s, true, ws);
            HistoryOk(t.db) && HistoryOk(t.saved) && t.revision == s.revision && t.db.hooks == s.db.hooks
    decreases |ws|
  {
    if ws != [] {
      match ws[0] {
        case Set(k, v) => SetKeepsHistory(s.db, k, v);
        case Update(m, p) => UpdateKeepsHistory(s.db, m, p);
        case Flush =>
      }
      WritesKeepHistory(Written(s, true, ws[0]), ws[1..]);
    }
  }

  /** The scopes of one unit's life; an exit ends the process, and the next scope is another's. */
  datatype ScopeRun = ScopeRun(writes: seq<Write>, ending: Ending)

  function Lived(s: State, keep: bool, run: ScopeRun): State
    requires s.revision.None?
  {
    var t := Scoped(s, keep, run.writes, run.ending);
    if run.ending.Exits? then Reopened(t) else t
  }

  function Lives(s: State, keep: bool, runs: seq<ScopeRun>): State
    requires s.revision.None?
    decreases |runs|
  {
    if runs == [] then s else Lives(Lived(s, keep, runs[0]), keep, runs[1..])
  }

  /**
   History is faithful: when every write is a `set` or `update` inside a scope and revisions are kept, then after
   any scopes, failed ones included, each key's newest history row equals its current value.
   */
  lemma {:induction false} HistoryIsFaithful(s: State, runs: seq<ScopeRun>)
    requires HistoryOk(s.db) && HistoryOk(s.saved) && s.revision.None?
    ensures HistoryOk(Lives(s, true, runs).db) && HistoryOk(Lives(s, true, runs).saved)
    decreases |runs|
  {
    if runs != [] {
      var inside := State(s.db.(hooks := s.db.hooks + 1), s.saved, Some(s.db.hooks + 1));
      assert HistoryOk(inside.db) by {
        forall x | x in s.db.kv
          ensures exists n :: Newest(inside.db, x, n) && inside.db.revisions[RowId(x, n)] == inside.db.kv[x]
        {
          var n :| Newest(s.db, x, n) && s.db.revisions[RowId(x, n)] == s.db.kv[x];
          assert Newest(inside.db, x, n);
        }
      }
      WritesKeepHistory(inside, runs[0].writes);
      HistoryIsFaithful(Lived(s, true, runs[0]), runs[1..]);
    }
  }

  /** The last tables committed while the writes run. */
  lemma {:induction false} WithoutFlushNothingIsSaved(s: State, keep: bool, ws: seq<Write>)
    requires Flush !in ws
    ensures WrittenAll(s, keep, ws).saved == s.saved
    decreases |ws|
  {
    if ws != [] {
      assert ws[0] in ws && forall w :: w in ws[1..] ==> w in ws;
      WithoutFlushNothingIsSaved(Written(s, keep, ws[0]), keep, ws[1..]);
    }
  }

  /**
   A scope that raises, or an exit once the next process opens the store, leaves the store as last committed: its
   own writes, and earlier unsaved ones, are gone.
   */
  lemma RaisingScopeRestores(s: State, keep: bool, ws: seq<Write>)
    requires s.revision.None? && Flush !in ws
    ensures Scoped(s, keep, ws, Raises) == State(s.saved, s.saved, None)
    ensures Reopened(Scoped(s, keep, ws, Exits)) == State(s.saved, s.saved, None)
    ensures Scoped(s, keep, ws, Exits).revision.Some?
  {
    var inside := State(s.db.(hooks := s.db.hooks + 1), s.saved, Some(s.db.hooks + 1));
    WithoutFlushNothingIsSaved(inside, keep, ws);
    RevisionStays(inside, keep, ws);
  }

  lemma {:induction false} RevisionStays(s: State, keep: bool, ws: seq<Write>)
    ensures WrittenAll(s, keep, ws).revision == s.revision
    decreases |ws|
  {
    if ws != [] {
      RevisionStays(Written(s, keep, ws[0]), keep, ws[1..]);
    }
  }

  /** The hook of a scope is a new one, and history of earlier hooks is never rewritten. */
  lemma {:induction false} WritesKeepOlderRows(s: State, keep: bool, ws: seq<Write>, id: RowId)
    requires s.revision.Some? && id.revision != s.revision.value
    ensures var t := WrittenAll(s, keep, ws);
            && t.db.hooks == s.db.hooks
            && (id in t.db.revisions <==> id in s.db.revisions)
            && (id in s.db.revisions ==> t.db.revisions[id] == s.db.revisions[id])
    decreases |ws|
  {
    if ws != [] {
      var w := ws[0];
      if w.Set? {
        SetRecordsChanges(s.db, keep, s.revision, w.key, w.value, id);
      } else if w.Update? {
        UpdateRecordsChanges(s.db, keep, s.revision, w.mapping, w.prefix, id);
      }
      WritesKeepOlderRows(Written(s, keep, w), keep, ws[1..], id);
    }
  }

  /**
   A scope that returns commits: what is read once the store is opened again is the last value written, and the
   history of earlier hooks is as it was.
   */
  lemma ReturningScopeCommits(s: State, keep: bool, ws: seq<Write>, k: string, id: RowId)
    requires s.revision.None? && id.revision <= s.db.hooks
    ensures var t := Scoped(s, keep, ws, Returns);
            && t.revision == None && Reopened(t) == t && t.db.hooks == s.db.hooks + 1
            && Lookup(t.saved.kv, k) == (if LastValue(ws, k).Some? then LastValue(ws, k) else Lookup(s.db.kv, k))
            && (id in t.saved.revisions <==> id in s.db.revisions)
            && (id in s.db.revisions ==> t.saved.revisions[id] == s.db.revisions[id])
  {
    hide WrittenAll, LastValue;
    var inside := State(s.db.(hooks := s.db.hooks + 1), s.saved, Some(s.db.hooks + 1));
    LastWriteIsRead(inside, keep, ws, k);
    WritesKeepOlderRows(inside, keep, ws, id);
  }

  lemma {:induction false} WritesAppend(s: State, keep: bool, a: seq<Write>, b: seq<Write>)
    ensures WrittenAll(s, keep, a + b) == WrittenAll(WrittenAll(s, keep, a), keep, b)
    decreases |a|
  {
    if a == [] {
      assert a + b == b;
    } else {
      assert (a + b)[0] == a[0] && (a + b)[1..] == a[1..] + b;
      WritesAppend(Written(s, keep, a[0]), keep, a[1..], b);
    }
  }

  /** A scope that raises goes back to its last flush, and loses what was written since. */
  lemma RaisingScopeKeepsFlushed(s: State, keep: bool, before: seq<Write>, since: seq<Write>, k: string)
    requires s.revision.None? && Flush !in since
    ensures var t := Scoped(s, keep, before + [Flush] + since, Raises);
            && t.revision == None && t.saved == t.db
            && Lookup(t.db.kv, k) == if LastValue(before, k).Some? then LastValue(before, k) else Lookup(s.db.kv, k)
  {
    var inside := State(s.db.(hooks := s.db.hooks + 1), s.saved, Some(s.db.hooks + 1));
    var flushed := WrittenAll(inside, keep, before + [Flush]);
    WritesAppend(inside, keep, before + [Flush], since);
    WritesAppend(inside, keep, before, [Flush]);
    assert [Flush][1..] == [];
    assert flushed == WrittenAll(Written(WrittenAll(inside, keep, before), keep, Flush), keep, []);
    WithoutFlushNothingIsSaved(flushed, keep, since);
    LastWriteIsRead(inside, keep, before, k);
  }

  // ----- the object -----

  class Storage {
    const keepRevisions: bool
    var kv: Values
    var revisions: map<RowId, string>
    var hooks: nat
    var saved: Db
    var revision: Option<nat>

    ghost function Tables(): State
      reads this
    {
      State(Db(kv, revisions, hooks), saved, revision)
    }

    /** `get` */
    method Get(key: string) returns (r: Option<string>)
      ensures r == Lookup(kv, key)
    {
      r := if key in kv then Some(kv[key]) else None;
    }

    /** `set` */
    method SetValue(key: string, value: string)
      modifies this`kv, this`revisions
      ensures Tables() == Written(old(Tables()), keepRevisions, Set(key, value))
    {
      var stored := Get(key);
      if stored == Some(value) {
        return;
      }
      kv := kv[key := value];
      if !keepRevisions || revision.None? {
        return;
      }
      revisions := revisions[RowId(key, revision.value) := value];
    }

    /** `update`, over the mapping in any order. */
    method UpdateValues(mapping: Values, prefix: string)
      modifies this`kv, this`revisions
      ensures Tables() == Written(old(Tables()), keepRevisions, Update(mapping, prefix))
    {
      ghost var db := Db(kv, revisions, hooks);
      var todo := mapping.Keys;
      UpdateNothing(db, keepRevisions, revision, mapping, prefix);
      while todo != {}
        invariant todo <= mapping.Keys
        invariant Db(kv, revisions, hooks) == UpdateDb(db, keepRevisions, revision, mapping - todo, prefix)
      {
        var k :| k in todo;
        PrefixedGrows(mapping - todo, mapping - (todo - {k}), prefix, k);
        SetOneMore(db, keepRevisions, revision, Prefixed(mapping - todo, prefix), prefix + k, mapping[k]);
        SetValue(prefix + k, mapping[k]);
        todo := todo - {k};
      }
      assert mapping - {} == mapping;
    }

    /** `getrange` */
    method GetRange(prefix: string, strip: bool) returns (r: Values)
      ensures Ranged(kv, prefix, if strip then |prefix| else 0, kv.Keys, r)
      ensures !strip ==> r == map k | k in kv && Like(prefix + "%", k) :: kv[k]
    {
      var cut := if strip then |prefix| else 0;
      r := map[];
      var todo := kv.Keys;
      while todo != {}
        invariant todo <= kv.Keys
        invariant Ranged(kv, prefix, cut, kv.Keys - todo, r)
      {
        var k :| k in todo;
        ghost var before := r;
        if Like(prefix + "%", k) {
          r := r[Drop(k, cut) := kv[k]];
          assert RangedFrom(kv, prefix, cut, kv.Keys - (todo - {k}), Drop(k, cut), kv[k]);
        }
        forall n | n in before
          ensures RangedFrom(kv, prefix, cut, kv.Keys - (todo - {k}), n, before[n])
        {
          assert RangedFrom(kv, prefix, cut, kv.Keys - todo, n, before[n]);
        }
        todo := todo - {k};
      }
      assert kv.Keys - {} == kv.Keys;
      if !strip {
        WholeRange(kv, prefix, r);
      }
    }

    /** `delta`: exactly the keys whose value differs from the stored range, with both values. */
    method Delta(mapping: Values, prefix: string) returns (delta: map<string, Change>)
      ensures exists previous :: Ranges(kv, prefix, kv.Keys, previous) && delta == DeltaOf(previous, mapping) && IsDelta(delta, previous, mapping)
    {
      hide DeltaOn, Ranged, IsDelta;
      var p := GetRange(prefix, true);
      NoDelta(p, mapping);
      delta := map[];
      ghost var seen: set<string> := {};
      var added := mapping.Keys - p.Keys;
      while added != {}
        invariant added <= mapping.Keys - p.Keys && seen == mapping.Keys - p.Keys - added
        invariant delta == DeltaOn(p, mapping, seen)
      {
        var k :| k in added;
        DeltaOneMore(p, mapping, seen, k);
        delta := delta[k := Change(None, Some(mapping[k]))];
        added, seen := added - {k}, seen + {k};
      }
      var removed := p.Keys - mapping.Keys;
      while removed != {}
        invariant removed <= p.Keys - mapping.Keys && seen == (mapping.Keys - p.Keys) + (p.Keys - mapping.Keys - removed)
        invariant delta == DeltaOn(p, mapping, seen)
      {
        var k :| k in removed;
        DeltaOneMore(p, mapping, seen, k);
        delta := delta[k := Change(Some(p[k]), None)];
        removed, seen := removed - {k}, seen + {k};
      }
      var common := p.Keys * mapping.Keys;
      while common != {}
        invariant common <= p.Keys * mapping.Keys && seen == p.Keys + mapping.Keys - common
        invariant delta == DeltaOn(p, mapping, seen)
      {
        var k :| k in common;
        DeltaOneMore(p, mapping, seen, k);
        if mapping[k] != p[k] {
          delta := delta[k := Change(Some(p[k]), Some(mapping[k]))];
        }
        common, seen := common - {k}, seen + {k};
      }
      assert seen == p.Keys + mapping.Keys;
      assert delta == DeltaOf(p, mapping);
      DeltaExactly(p, mapping);
    }

    /** `flush` */
    method FlushTables(save: bool)
      modifies this`kv, this`revisions, this`hooks, this`saved
      ensures var t := old(Tables());
              Tables() == if save then t.(saved := t.db) else t.(db := t.saved)
    {
      if save {
        saved := Db(kv, revisions, hooks);
      } else {
        kv, revisions, hooks := saved.kv, saved.revisions, saved.hooks;
      }
    }

    /** `hook_scope` around the hook's writes; opening a scope inside a scope fails. */
    method HookScope(writes: seq<Write>, ending: Ending) returns (ok: bool)
      modifies this
      ensures ok <==> old(revision).None?
      ensures Tables() == if ok then Scoped(old(Tables()), keepRevisions, writes, ending) else old(Tables())
    {
      if revision.Some? {
        return false;
      }
      hooks := hooks + 1;
      revision := Some(hooks);
      DoWrites(writes);
      match ending {
        case Returns =>
          revision := None;
          FlushTables(true);
        case Raises =>
          FlushTables(false);
          revision := None;
        case Exits =>
      }
      return true;
    }

    /** The body of a scope. */
    method DoWrites(writes: seq<Write>)
      modifies this`kv, this`revisions, this`hooks, this`saved
      ensures Tables() == WrittenAll(old(Tables()), keepRevisions, writes)
    {
      ghost var start := Tables();
      var i := 0;
      while i < |writes|
        invariant 0 <= i <= |writes|
        invariant WrittenAll(Tables(), keepRevisions, writes[i..]) == WrittenAll(start, keepRevisions, writes)
      {
        DoWrite(writes[i]);
        assert writes[i..][0] == writes[i] && writes[i..][1..] == writes[i + 1..];
        i := i + 1;
      }
    }

    method DoWrite(w: Write)
      modifies this`kv, this`revisions, this`hooks, this`saved
      ensures Tables() == Written(old(Tables()), keepRevisions, w)
    {
      match w {
        case Set(k, v) => SetValue(k, v);
        case Update(m, p) => UpdateValues(m, p);
        case Flush => FlushTables(true);
      }
    }
  }

  lemma UpdateNothing(db: Db, keep: bool, revision: Option<nat>, mapping: Values, prefix: string)
    ensures UpdateDb(db, keep, revision, mapping - mapping.Keys, prefix) == db
  {
    assert mapping - mapping.Keys == map[];
    assert Prefixed(map[], prefix) == map[];
  }

  lemma ChangedGrows(kv: Values, updates: Values, k: string, v: string)
    requires k !in updates
    ensures var a, b := Changed(kv, updates), Changed(kv, updates[k := v]);
            && k !in a
            && b == (if Lookup(kv, k) == Some(v) then a else a[k := v])
            && kv + b == (if Lookup(kv, k) == Some(v) then kv + a else (kv + a)[k := v])
            && Lookup(kv + a, k) == Lookup(kv, k)
  {
    var a, b := Changed(kv, updates), Changed(kv, updates[k := v]);
    assert b == if Lookup(kv, k) == Some(v) then a else a[k := v];
  }

  /** One more key of an update is one `set`. */
  lemma SetOneMore(db: Db, keep: bool, revision: Option<nat>, updates: Values, k: string, v: string)
    requires k !in updates
    ensures SetDb(SetMany(db, keep, revision, updates), keep, revision, k, v) == SetMany(db, keep, revision, updates[k := v])
  {
    hide Changed, RowsFor;
    ChangedGrows(db.kv, updates, k, v);
    if revision.Some? && Lookup(db.kv, k) != Some(v) {
      RowsGrow(db.revisions, Changed(db.kv, updates), k, v, revision.value);
    }
  }

  lemma RowsGrow(rows: map<RowId, string>, a: Values, key: string, v: string, revision: nat)
    ensures rows + RowsFor(a[key := v], revision) == (rows + RowsFor(a, revision))[RowId(key, revision) := v]
  {
    var b := a[key := v];
    forall id
      ensures id in RowsFor(b, revision) <==> id in RowsFor(a, revision)[RowId(key, revision) := v]
    {
      assert id in RowsFor(b, revision) <==> id.revision == revision && id.key in b;
      assert id in RowsFor(a, revision) <==> id.revision == revision && id.key in a;
    }
  }

  lemma PrefixedGrows(m: Values, n: Values, prefix: string, k: string)
    requires k !in m && k in n && n == m[k := n[k]]
    ensures prefix + k !in Prefixed(m, prefix)
    ensures Prefixed(n, prefix) == Prefixed(m, prefix)[prefix + k := n[k]]
  {
    PrefixedLookup(m, prefix, k);
    PrefixedLookup(n, prefix, k);
    forall x
      ensures x in Prefixed(n, prefix) <==> x in Prefixed(m, prefix)[prefix + k := n[k]]
      ensures x in Prefixed(n, prefix) ==> Prefixed(n, prefix)[x] == Prefixed(m, prefix)[prefix + k := n[k]][x]
    {
      if x in Prefixed(n, prefix) {
        PrefixedKeys(n, prefix, x);
        PrefixedLookup(m, prefix, x[|prefix|..]);
      }
      if x in Prefixed(m, prefix) {
        PrefixedKeys(m, prefix, x);
        PrefixedLookup(n, prefix, x[|prefix|..]);
      }
    }
  }
}
