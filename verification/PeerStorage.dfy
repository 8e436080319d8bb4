/** Peer storage: settings kept in leader settings, with a one-way migration from the peer relation. */
module PeerStorage {
  import opened Wrappers

  type Settings = map<string, string>

  function Lookup(s: Settings, k: string): Option<string> {
    if k in s then Some(s[k]) else None
  }

  /** Python's truth of a looked-up setting. */
  predicate Present(v: Option<string>) {
    v.Some? && v.value != ""
  }

  /** `leader-set k=v`: an empty value removes the key. */
  function Put(s: Settings, k: string, v: string): Settings {
    if v == "" then s - {k} else s[k := v]
  }

  /**
   What the leader sees: leader settings, the keys its migration record lists, and the unit's own data on the
   peer relation. The record itself is kept apart from the settings it is stored with.
   */
  datatype Store = Store(leader: Settings, migrated: set<string>, peer: Settings)

  // ----- the migrating read -----

  /** `leader_get(attribute)` on the leader. */
  function ReadOne(s: Store, a: string): Store {
    if a in s.migrated then s
    else
      var pulls := !Present(Lookup(s.leader, a)) && Present(Lookup(s.peer, a));
      var leader := if pulls then s.leader[a := s.peer[a]] else s.leader;
      s.(leader := leader, migrated := if Present(Lookup(leader, a)) then s.migrated + {a} else s.migrated)
  }

  /** The value it returns. */
  function OneValue(s: Store, a: string): Option<string> {
    Lookup(ReadOne(s, a).leader, a)
  }

  /** The settings after the peer's have been merged in: the leader's win. */
  function Merged(s: Store): Settings {
    map k | k in s.leader.Keys + (s.peer.Keys - s.migrated)
      :: if k in s.peer && k !in s.migrated && !Present(Lookup(s.leader, k)) then s.peer[k] else s.leader[k]
  }

  /** `leader_set(**settings)` */
  function PutAll(s: Settings, updates: Settings): Settings {
    map k | k in s.Keys + updates.Keys && (k in updates ==> updates[k] != "") :: if k in updates then updates[k] else s[k]
  }

  /** `leader_get()` of everything, on the leader. */
  function ReadAll(s: Store): Store {
    if s.peer.Keys - s.migrated == {} then s
    else s.(leader := PutAll(s.leader, Merged(s)), migrated := s.migrated + s.peer.Keys)
  }

  class LeaderStore {
    var leads: bool
    var leader: Settings
    var migrated: set<string>
    var peer: Settings

    ghost function State(): Store
      reads this
    {
      Store(leader, migrated, peer)
    }

    /** `leader_get` of one attribute. */
    method LeaderGet(attribute: string) returns (r: Option<string>)
      requires attribute != "" && attribute != "-"
      modifies this`leader, this`migrated
      ensures State() == if leads then ReadOne(old(State()), attribute) else old(State())
      ensures r == if leads then OneValue(old(State()), attribute) else Lookup(leader, attribute)
    {
      r := if attribute in leader then Some(leader[attribute]) else None;
      if !leads {
        return;
      }
      var settingsMigrated := false;
      var marks := migrated;
      if attribute in marks {
        return;
      }
      if !Present(r) {
        var peerSetting := Lookup(peer, attribute);
        if Present(peerSetting) {
          leader := Put(leader, attribute, peerSetting.value);
          r := peerSetting;
        }
      }
      if Present(r) {
        settingsMigrated := true;
        marks := marks + {attribute};
      }
      if marks != {} && settingsMigrated {
        migrated := marks;
      }
    }

    /** `leader_get` of everything. */
    method LeaderGetAll() returns (r: Settings)
      modifies this`leader, this`migrated
      ensures State() == if leads then ReadAll(old(State())) else old(State())
      ensures r == if leads then Merged(old(State())) else leader
    {
      r := leader;
      if !leads {
        return;
      }
      var settingsMigrated := false;
      var marks := migrated;
      var todo := peer.Keys - migrated;
      while todo != {}
        invariant todo <= peer.Keys - migrated
        invariant forall k :: Lookup(r, k) == MergedAt(State(), k, todo)
        invariant marks == migrated + (peer.Keys - migrated - todo)
        invariant settingsMigrated <==> todo != peer.Keys - migrated
      {
        var k :| k in todo;
        ghost var r0 := r;
        if !Present(Lookup(r, k)) {
          r := r[k := peer[k]];
        }
        forall x
          ensures Lookup(r, x) == MergedAt(State(), x, todo - {k})
        {
          assert Lookup(r0, x) == MergedAt(State(), x, todo);
        }
        settingsMigrated := true;
        marks := marks + {k};
        todo := todo - {k};
      }
      MergedLookup(State(), r);
      if settingsMigrated {
        leader := PutAll(leader, r);
      }
      if marks != {} && settingsMigrated {
        migrated := marks;
        assert migrated == old(migrated) + peer.Keys;
      }
    }
  }

  /** The merged value of a key while the peer's keys in `todo` are still to come. */
  function MergedAt(s: Store, k: string, todo: set<string>): Option<string> {
    if k in s.peer && k !in s.migrated && k !in todo && !Present(Lookup(s.leader, k)) then Some(s.peer[k])
    else Lookup(s.leader, k)
  }

  lemma MergedLookup(s: Store, r: Settings)
    requires forall k :: Lookup(r, k) == MergedAt(s, k, {})
    ensures r == Merged(s)
  {
    forall k
      ensures Lookup(r, k) == Lookup(Merged(s), k)
    {
      assert Lookup(r, k) == MergedAt(s, k, {});
    }
    SettingsByLookup(r, Merged(s));
  }

  // ----- the migration is one-way -----

  /** Reads, explicit stores into leader settings (empty to clear), and changes of the peer relation. */
  datatype Op = One(a: string) | All | Save(k: string, v: string) | Echo(k: string, v: string)

  function Apply(s: Store, op: Op): Store {
    match op
    case One(a) => ReadOne(s, a)
    case All => ReadAll(s)
    case Save(k, v) => s.(leader := Put(s.leader, k, v))
    case Echo(k, v) => s.(peer := Put(s.peer, k, v))
  }

  function ApplyAll(s: Store, ops: seq<Op>): Store
    decreases |ops|
  {
    if ops == [] then s else ApplyAll(Apply(s, ops[0]), ops[1..])
  }

  /** No empty value is ever in leader settings. */
  predicate Clean(s: Store) {
    forall k :: k in s.leader ==> s.leader[k] != ""
  }

  /** Nothing in the sequence stores the key explicitly. */
  predicate Untouched(ops: seq<Op>, k: string) {
    forall op :: op in ops ==> !(op.Save? && op.k == k)
  }

  lemma OneWayStep(s: Store, op: Op, k: string)
    requires Clean(s) && !(op.Save? && op.k == k)
    ensures var t := Apply(s, op);
            && Clean(t) && s.migrated <= t.migrated
            && (Lookup(t.leader, k) == Lookup(s.leader, k) ||
                (k !in s.migrated && Lookup(s.leader, k) == None && k in t.migrated &&
                 Lookup(t.leader, k) == Lookup(s.peer, k)))
  {
  }

  /**
   The migration is one-way, over any reads, stores of other keys and changes of the peer relation: the value of
   a key changes only if it was absent and never marked, and then the key is marked for good.
   */
  lemma {:induction false} MigrationIsOneWay(s: Store, ops: seq<Op>, k: string)
    requires Clean(s) && Untouched(ops, k)
    ensures var t := ApplyAll(s, ops);
            && Clean(t) && s.migrated <= t.migrated
            && (Lookup(s.leader, k).Some? ==> Lookup(t.leader, k) == Lookup(s.leader, k))
            && (k in s.migrated ==> Lookup(t.leader, k) == Lookup(s.leader, k))
            && (Lookup(t.leader, k) != Lookup(s.leader, k) ==> k in t.migrated)
    decreases |ops|
  {
    if ops != [] {
      assert ops[0] in ops && forall op :: op in ops[1..] ==> op in ops;
      OneWayStep(s, ops[0], k);
      MigrationIsOneWay(Apply(s, ops[0]), ops[1..], k);
    }
  }

  /** A migrated key that is cleared stays cleared, whatever the peer relation still says. */
  lemma ClearedStaysCleared(s: Store, ops: seq<Op>, k: string)
    requires Clean(s) && k in s.migrated && Untouched(ops, k)
    ensures Lookup(ApplyAll(Apply(s, Save(k, "")), ops).leader, k) == None
  {
    MigrationIsOneWay(Apply(s, Save(k, "")), ops, k);
  }

  /** A read never hides a value the peer relation still has to give. */
  lemma ReadFinds(s: Store, a: string)
    requires Clean(s) && a !in s.migrated
    ensures Present(OneValue(s, a)) <==> Lookup(s.leader, a).Some? || Present(Lookup(s.peer, a))
    ensures Present(OneValue(s, a)) ==> OneValue(s, a) == (if a in s.leader then Lookup(s.leader, a) else Lookup(s.peer, a))
  {
  }

  // ----- prefixes -----

  predicate IsPrefix(p: string, s: string) {
    |p| <= |s| && s[..|p|] == p
  }

  /**
   What a single read does, key by key: it answers the leader's value, or the peer's for a key that is not marked and
   has none; it marks the key exactly when it answers with a value; and it touches no other key.
   */
  lemma ReadOneExactly(s: Store, a: string, k: string)
    requires Clean(s)
    ensures OneValue(s, a) == if a in s.leader then Some(s.leader[a])
                              else if a !in s.migrated && a in s.peer && s.peer[a] != "" then Some(s.peer[a]) else None
    ensures Lookup(ReadOne(s, a).leader, k) == if k == a then OneValue(s, a) else Lookup(s.leader, k)
    ensures k in ReadOne(s, a).migrated <==> k in s.migrated || (k == a && OneValue(s, a).Some?)
    ensures ReadOne(s, a).peer == s.peer
  {
  }

  /** What a bulk read does: it answers alike for every key, stores what it answers, and marks exactly the peer's keys. */
  lemma ReadAllExactly(s: Store, k: string)
    requires Clean(s)
    ensures Lookup(Merged(s), k) == if k in s.leader then Some(s.leader[k])
                                    else if k !in s.migrated && k in s.peer then Some(s.peer[k]) else None
    ensures Lookup(ReadAll(s).leader, k) ==
            if Lookup(Merged(s), k) == Some("") then None else Lookup(Merged(s), k)
    ensures k in ReadAll(s).migrated <==> k in s.migrated || k in s.peer
    ensures ReadAll(s).peer == s.peer
  {
    if s.peer.Keys - s.migrated == {} {
      assert k in s.peer && k !in s.migrated ==> k in s.peer.Keys - s.migrated;
    }
  }

  /** A key that a single read has answered and that is then cleared stays cleared, whatever the peer relation says. */
  lemma ReadThenCleared(s: Store, k: string, ops: seq<Op>)
    requires Clean(s) && OneValue(s, k).Some? && Untouched(ops, k)
    ensures Lookup(ApplyAll(Apply(ReadOne(s, k), Save(k, "")), ops).leader, k) == None
  {
    ReadOneExactly(s, k, k);
    OneWayStep(s, One(k), k);
    ClearedStaysCleared(ReadOne(s, k), ops, k);
  }

  /** `s.replace(pat, '')`: occurrences are removed from left to right. */
  function Remove(s: string, pat: string): string
    decreases |s|
  {
    if pat == "" || |s| < |pat| then s
    else if IsPrefix(pat, s) then Remove(s[|pat|..], pat)
    else [s[0]] + Remove(s[1..], pat)
  }

  predicate Occurs(pat: string, s: string)
    decreases |s|
  {
    |pat| <= |s| && (IsPrefix(pat, s) || (s != "" && Occurs(pat, s[1..])))
  }

  lemma {:induction false} RemoveShortens(s: string, pat: string)
    requires pat != ""
    ensures |Remove(s, pat)| <= |s|
    ensures Remove(s, pat) == s <==> !Occurs(pat, s)
    ensures Occurs(pat, s) ==> |Remove(s, pat)| < |s|
    decreases |s|
  {
    if |s| >= |pat| {
      if IsPrefix(pat, s) {
        RemoveShortens(s[|pat|..], pat);
      } else {
        RemoveShortens(s[1..], pat);
        assert s == [s[0]] + s[1..];
        assert ([s[0]] + Remove(s[1..], pat))[1..] == Remove(s[1..], pat);
      }
    }
  }

  /** A stored key comes back under its own name exactly when the full prefix does not recur in it. */
  lemma KeyComesBack(full: string, k: string)
    requires full != ""
    ensures Remove(full + k, full) == k <==> !Occurs(full, k)
  {
    RemoveShortens(k, full);
    assert (full + k)[|full|..] == k && IsPrefix(full, full + k);
  }

  /** Relation ids without the delimiter never share a full prefix. */
  lemma PrefixesApart(a: string, b: string, k: string)
    requires '_' !in a && '_' !in b
    ensures IsPrefix(a + "_", b + "_" + k) <==> a == b
  {
    var x, y := a + "_", b + "_" + k;
    if IsPrefix(x, y) {
      assert y[..|x|] == x && x[|a|] == '_' && y[|b|] == '_';
      assert |a| == |b| ==> x[..|a|] == a && y[..|a|] == b;
    }
    if a == b {
      assert y == x + k;
    }
  }

  /** `peer_store` of every item under the relation id's prefix. */
  function StoreAll(leader: Settings, full: string, items: Settings): Settings {
    map k | k in leader.Keys + (set i | i in items :: full + i) && (forall i :: i in items && full + i == k ==> items[i] != "")
      :: if IsPrefix(full, k) && k[|full|..] in items then items[k[|full|..]] else leader[k]
  }

  /** What is stored for a relation: its keys without the prefix. */
  function StoredFor(leader: Settings, full: string): Settings {
    map k | k in (set x | x in leader && IsPrefix(full, x) :: x[|full|..]) && full + k in leader :: leader[full + k]
  }

  lemma PutAllLookup(s: Settings, updates: Settings, k: string)
    ensures Lookup(PutAll(s, updates), k) ==
            if k !in updates then Lookup(s, k) else if updates[k] == "" then None else Some(updates[k])
  {
  }

  lemma StoredLookup(leader: Settings, full: string, k: string)
    ensures Lookup(StoredFor(leader, full), k) == Lookup(leader, full + k)
  {
    if full + k in leader {
      assert IsPrefix(full, full + k) && (full + k)[|full|..] == k;
      assert k in (set x | x in leader && IsPrefix(full, x) :: x[|full|..]);
    }
  }

  lemma StoreAllLookup(leader: Settings, full: string, items: Settings, k: string)
    ensures Lookup(StoreAll(leader, full, items), k) ==
            if IsPrefix(full, k) && k[|full|..] in items
            then (if items[k[|full|..]] == "" then None else Some(items[k[|full|..]]))
            else Lookup(leader, k)
  {
    forall i | i in items
      ensures full + i == k <==> IsPrefix(full, k) && k[|full|..] == i
    {
      if IsPrefix(full, k) {
        assert k == full + k[|full|..];
      }
      if full + i == k {
        assert (full + i)[..|full|] == full && (full + i)[|full|..] == i;
      }
    }
    if IsPrefix(full, k) && k[|full|..] in items {
      assert full + k[|full|..] == k;
    }
  }

  /** One more item stored. */
  lemma StoreOne(leader: Settings, full: string, items: Settings, todo: set<string>, key: string)
    requires key in todo && todo <= items.Keys
    ensures Put(StoreAll(leader, full, items - todo), full + key, items[key]) == StoreAll(leader, full, items - (todo - {key}))
  {
    var before, after := StoreAll(leader, full, items - todo), StoreAll(leader, full, items - (todo - {key}));
    forall k
      ensures Lookup(Put(before, full + key, items[key]), k) == Lookup(after, k)
    {
      StoreAllLookup(leader, full, items - todo, k);
      StoreAllLookup(leader, full, items - (todo - {key}), k);
      assert (full + key)[..|full|] == full && (full + key)[|full|..] == key;
      if IsPrefix(full, k) {
        assert k == full + k[|full|..];
      }
    }
    SettingsByLookup(Put(before, full + key, items[key]), after);
  }

  /** What `peer_retrieve_by_prefix` keeps of the new keys. */
  predicate Wanted(k: string, includes: seq<string>, excludes: seq<string>) {
    k !in excludes && (k in includes || includes == [])
  }

  /** Storing for one relation leaves what is stored for another as it was. */
  lemma StoresAreIsolated(leader: Settings, rid: string, other: string, items: Settings)
    requires '_' !in rid && '_' !in other && rid != other
    ensures StoredFor(StoreAll(leader, other + "_", items), rid + "_") == StoredFor(leader, rid + "_")
  {
    var after := StoreAll(leader, other + "_", items);
    forall k
      ensures Lookup(StoredFor(after, rid + "_"), k) == Lookup(StoredFor(leader, rid + "_"), k)
    {
      StoredLookup(after, rid + "_", k);
      StoredLookup(leader, rid + "_", k);
      PrefixesApart(other, rid, k);
      StoreAllLookup(leader, other + "_", items, rid + "_" + k);
    }
    SettingsByLookup(StoredFor(after, rid + "_"), StoredFor(leader, rid + "_"));
  }

  lemma SettingsByLookup(a: Settings, b: Settings)
    requires forall k :: Lookup(a, k) == Lookup(b, k)
    ensures a == b
  {
    forall k
      ensures k in a <==> k in b
      ensures k in a ==> a[k] == b[k]
    {
      assert Lookup(a, k) == Lookup(b, k);
    }
  }

  /** The stores of one run: relation id and settings. */
  datatype Keeping = Keeping(rid: string, items: Settings)

  function KeepAll(leader: Settings, ks: seq<Keeping>): Settings
    decreases |ks|
  {
    if ks == [] then leader else KeepAll(StoreAll(leader, ks[0].rid + "_", ks[0].items), ks[1..])
  }

  lemma {:induction false} OthersDoNotAffect(leader: Settings, rid: string, ks: seq<Keeping>)
    requires '_' !in rid && (forall x :: x in ks ==> '_' !in x.rid && x.rid != rid)
    ensures StoredFor(KeepAll(leader, ks), rid + "_") == StoredFor(leader, rid + "_")
    decreases |ks|
  {
    if ks != [] {
      assert ks[0] in ks && forall x :: x in ks[1..] ==> x in ks;
      StoresAreIsolated(leader, rid, ks[0].rid, ks[0].items);
      OthersDoNotAffect(StoreAll(leader, ks[0].rid + "_", ks[0].items), rid, ks[1..]);
    }
  }

  /** What `peer_store_and_set` leaves in leader settings; without another unit it stores nothing. */
  function StoreIf(made: bool, leader: Settings, full: string, items: Settings): Settings {
    if made then StoreAll(leader, full, items) else leader
  }

  lemma StoredAfterStore(leader: Settings, full: string, items: Settings, k: string)
    ensures Lookup(StoredFor(StoreAll(leader, full, items), full), k) ==
            if k in items then (if items[k] == "" then None else Some(items[k])) else Lookup(StoredFor(leader, full), k)
  {
    StoredLookup(StoreAll(leader, full, items), full, k);
    StoredLookup(leader, full, k);
    StoreAllLookup(leader, full, items, full + k);
    assert (full + k)[|full|..] == k && IsPrefix(full, full + k);
  }

  /** The unit's view of the relation data and of peer storage. */
  class Peers {
    var leader: Settings
    var relations: map<string, Settings>
    var cluster: Option<string>
    // whether some other unit has joined the peer relation: `is_relation_made`
    var made: bool

    /** `peer_store`, on the leader; without a peer relation it raises ValueError. */
    method PeerStore(key: string, value: string) returns (ok: bool)
      modifies this`leader
      ensures ok == cluster.Some?
      ensures leader == if ok then Put(old(leader), key, value) else old(leader)
    {
      ok := cluster.Some?;
      if ok {
        leader := Put(leader, key, value);
      }
    }

    /**
     `peer_store_and_set`: the settings go on the relation, or into leader settings for the peer relation
     itself, and then, if the peer relation is made, into peer storage under the relation id's prefix.
     */
    method PeerStoreAndSet(rid: string, items: Settings, fatal: bool) returns (ok: bool)
      requires made ==> cluster.Some?
      modifies this`leader, this`relations
      ensures cluster == Some(rid) ==>
                relations == old(relations) && leader == StoreIf(made, PutAll(old(leader), items), rid + "_", items)
      ensures cluster != Some(rid) ==>
                && relations == old(relations)[rid := PutAll(if rid in old(relations) then old(relations)[rid] else map[], items)]
                && leader == StoreIf(made, old(leader), rid + "_", items)
      ensures ok == (made || !fatal)
    {
      if cluster == Some(rid) {
        leader := PutAll(leader, items);
      } else {
        relations := relations[rid := PutAll(if rid in relations then relations[rid] else map[], items)];
      }
      if !made {
        return !fatal;
      }
      StoreItems(rid + "_", items);
      return true;
    }

    /** The loop of `peer_store_and_set`. */
    method StoreItems(full: string, items: Settings)
      requires cluster.Some?
      modifies this`leader
      ensures leader == StoreAll(old(leader), full, items)
    {
      ghost var before := leader;
      var todo := items.Keys;
      assert items - todo == map[];
      SettingsByLookup(StoreAll(before, full, map[]), before);
      while todo != {}
        invariant todo <= items.Keys
        invariant leader == StoreAll(before, full, items - todo)
      {
        var key :| key in todo;
        StoreOne(before, full, items, todo, key);
        var _ := PeerStore(full + key, items[key]);
        todo := todo - {key};
      }
      assert items - {} == items;
    }

    /**
     `peer_retrieve_by_prefix`, in whatever order the settings come; without a peer relation it raises ValueError.
     Where the full prefix recurs in no stored key, what comes back is exactly what is stored for the relation.
     */
    method PeerRetrieveByPrefix(prefix: string, includes: seq<string>, excludes: seq<string>)
      returns (matched: Option<Settings>)
      ensures matched.Some? <==> cluster.Some?
      ensures matched.Some? ==> Retrieved(leader, prefix + "_", leader.Keys, includes, excludes, matched.value)
      ensures matched.Some? && (forall k :: k in StoredFor(leader, prefix + "_") ==> !Occurs(prefix + "_", k)) ==>
                forall k :: Lookup(matched.value, k) ==
                            if k !in excludes && (includes == [] || k in includes)
                            then Lookup(StoredFor(leader, prefix + "_"), k) else None
    {
      if cluster.None? {
        return None;
      }
      var r: Settings := map[];
      var full := prefix + "_";
      var todo := leader.Keys;
      while todo != {}
        invariant todo <= leader.Keys
        invariant Retrieved(leader, full, leader.Keys - todo, includes, excludes, r)
      {
        var k :| k in todo;
        if IsPrefix(full, k) {
          var newKey := Remove(k, full);
          if newKey !in excludes && (newKey in includes || includes == []) {
            r := r[newKey := leader[k]];
          }
        }
        todo := todo - {k};
      }
      assert leader.Keys - {} == leader.Keys;
      if forall k :: k in StoredFor(leader, full) ==> !Occurs(full, k) {
        RetrievedIsStored(leader, full, includes, excludes, r);
      }
      return Some(r);
    }
  }

  /** `r` holds the wanted entries among the settings `seen`, under their new keys. */
  ghost predicate Retrieved(leader: Settings, full: string, seen: set<string>, includes: seq<string>, excludes: seq<string>,
                            r: Settings)
  {
    && (forall n :: n in r ==> Wanted(n, includes, excludes) && ComesFrom(leader, full, seen, n, r[n]))
    && (forall k :: k in leader && k in seen && IsPrefix(full, k) && Wanted(Remove(k, full), includes, excludes) ==>
          Remove(k, full) in r)
  }

  ghost predicate ComesFrom(leader: Settings, full: string, seen: set<string>, n: string, v: string) {
    exists k :: k in leader && k in seen && IsPrefix(full, k) && Remove(k, full) == n && leader[k] == v
  }

  /** The round trip: stored settings come back unchanged where the prefix does not recur in a key. */
  lemma RetrievedIsStored(leader: Settings, full: string, includes: seq<string>, excludes: seq<string>, r: Settings)
    requires full != "" && Retrieved(leader, full, leader.Keys, includes, excludes, r)
    requires forall k :: k in StoredFor(leader, full) ==> !Occurs(full, k)
    ensures forall k :: Lookup(r, k) == if Wanted(k, includes, excludes) then Lookup(StoredFor(leader, full), k) else None
  {
    forall x | x in leader && IsPrefix(full, x)
      ensures Remove(x, full) == x[|full|..] && x == full + x[|full|..]
    {
      assert x == full + x[|full|..];
      StoredLookup(leader, full, x[|full|..]);
      KeyComesBack(full, x[|full|..]);
    }
    forall k
      ensures Lookup(r, k) == if Wanted(k, includes, excludes) then Lookup(StoredFor(leader, full), k) else None
    {
      StoredLookup(leader, full, k);
      assert IsPrefix(full, full + k) && (full + k)[|full|..] == k;
      if k in r {
        assert ComesFrom(leader, full, leader.Keys, k, r[k]);
      }
      if full + k in leader {
        assert Remove(full + k, full) == k;
      }
    }
  }

  /** Without filters, what is retrieved is what is stored exactly where the prefix recurs in no stored key. */
  lemma RetrievedIsStoredExactly(leader: Settings, full: string, r: Settings)
    requires full != "" && Retrieved(leader, full, leader.Keys, [], [], r)
    ensures r == StoredFor(leader, full) <==> forall k :: k in StoredFor(leader, full) ==> !Occurs(full, k)
  {
    var stored := StoredFor(leader, full);
    if forall k :: k in stored ==> !Occurs(full, k) {
      RetrievedIsStored(leader, full, [], [], r);
      SettingsByLookup(r, stored);
    } else if r == stored {
      var recurring := set k | k in stored && Occurs(full, k);
      var k :| k in stored && Occurs(full, k);
      assert k in recurring;
      var longest := Longest(recurring);
      assert forall y :: y in stored && Occurs(full, y) ==> y in recurring;
      var x := ComesFromLonger(leader, full, r, longest);
      assert false;
    }
  }

  lemma {:induction false} Longest(keys: set<string>) returns (longest: string)
    requires keys != {}
    ensures longest in keys && forall k :: k in keys ==> |k| <= |longest|
    decreases |keys|
  {
    var k :| k in keys;
    if keys == {k} {
      longest := k;
    } else {
      var rest := keys - {k};
      assert rest != {} by {
        assert keys == rest + {k};
      }
      var other := Longest(rest);
      longest := if |k| <= |other| then other else k;
      assert forall x :: x in keys <==> x == k || x in rest;
    }
  }

  /** A retrieved key in which the prefix still occurs was stored under a longer one, in which it occurs too. */
  lemma ComesFromLonger(leader: Settings, full: string, r: Settings, k: string) returns (x: string)
    requires full != "" && Retrieved(leader, full, leader.Keys, [], [], r) && k in r && Occurs(full, k)
    ensures x in StoredFor(leader, full) && Occurs(full, x) && |x| > |k|
  {
    assert ComesFrom(leader, full, leader.Keys, k, r[k]);
    var stored :| stored in leader && IsPrefix(full, stored) && Remove(stored, full) == k && leader[stored] == r[k];
    x := stored[|full|..];
    assert stored == full + x;
    StoredLookup(leader, full, x);
    assert Remove(full + x, full) == Remove(x, full);
    RemoveShortens(x, full);
  }

  /**
   The whole round trip: what is stored for a relation, followed by any stores for others, comes back as it was,
   an empty value as none, together with what was stored for the relation before.
   */
  lemma RoundTrip(leader: Settings, rid: string, items: Settings, others: seq<Keeping>,
                  includes: seq<string>, excludes: seq<string>, r: Settings)
    requires '_' !in rid && (forall x :: x in others ==> '_' !in x.rid && x.rid != rid)
    requires var after := KeepAll(StoreAll(leader, rid + "_", items), others);
             Retrieved(after, rid + "_", after.Keys, includes, excludes, r)
    requires forall k :: k in items || k in StoredFor(leader, rid + "_") ==> !Occurs(rid + "_", k)
    ensures forall k :: Lookup(r, k) ==
                        if k in excludes || (includes != [] && k !in includes) then None
                        else if k in items then (if items[k] == "" then None else Some(items[k]))
                        else Lookup(StoredFor(leader, rid + "_"), k)
  {
    hide Occurs, Retrieved, StoredFor, StoreAll, KeepAll;
    var full := rid + "_";
    var stored := StoreAll(leader, full, items);
    var after := KeepAll(stored, others);
    OthersDoNotAffect(stored, rid, others);
    forall k
      ensures Lookup(StoredFor(after, full), k) ==
              if k in items then (if items[k] == "" then None else Some(items[k])) else Lookup(StoredFor(leader, full), k)
    {
      StoredAfterStore(leader, full, items, k);
    }
    assert forall k :: k in StoredFor(after, full) ==> Lookup(StoredFor(after, full), k).Some?;
    RetrievedIsStored(after, full, includes, excludes, r);
  }

  /** A value as it comes back: an empty one is none. */
  function AsStored(v: string): Option<string> {
    if v == "" then None else Some(v)
  }

  /**
   What `peer_store_and_set` was given comes back, after any stores for others, exactly where the peer relation was
   made or the same values were stored before.
   */
  lemma GivenComesBackExactly(leader: Settings, made: bool, rid: string, items: Settings, others: seq<Keeping>, r: Settings)
    requires '_' !in rid && (forall x :: x in others ==> '_' !in x.rid && x.rid != rid)
    requires var after := KeepAll(StoreIf(made, leader, rid + "_", items), others);
             Retrieved(after, rid + "_", after.Keys, [], [], r)
    requires forall k :: k in items || k in StoredFor(leader, rid + "_") ==> !Occurs(rid + "_", k)
    ensures (forall k :: k in items ==> Lookup(r, k) == AsStored(items[k])) <==>
            made || forall k :: k in items ==> Lookup(StoredFor(leader, rid + "_"), k) == AsStored(items[k])
  {
    hide Occurs, Retrieved, StoredFor, StoreAll, KeepAll;
    if made {
      RoundTrip(leader, rid, items, others, [], [], r);
    } else {
      OthersDoNotAffect(leader, rid, others);
      RetrievedIsStored(KeepAll(leader, others), rid + "_", [], [], r);
    }
  }

  /** For instance a lone unit's client password: it goes on the relation, and retrieval does not find it. */
  lemma LoneUnitExample(r: Settings)
    requires var after := StoreIf(false, map[], "amqp:1_", map["password" := "secret"]);
             Retrieved(after, "amqp:1_", after.Keys, [], [], r)
    ensures r == map[]
  {
    assert forall n :: n in r ==> ComesFrom(map[], "amqp:1_", {}, n, r[n]);
  }

  /** A key in which the prefix recurs, and what is retrieved for it. */
  lemma RecurringPrefixExample()
    ensures Occurs("1_", "x1_y") && Remove("1_" + "x1_y", "1_") == "xy"
  {
    assert "1_" + "x1_y" == "1_x1_y" && "1_x1_y"[2..] == "x1_y" && "x1_y"[1..] == "1_y" && "1_y"[2..] == "y";
    assert "x1_y"[1..3] == "1_" && "1_x1_y"[..2] == "1_" && "1_y"[..2] == "1_";
    assert "y"[1..] == "";
  }
}
