/** The password store, which moves from files on disk to peer storage once the peer relation exists. */
module Passwords {
  import opened PeerStorage
  import opened Text
  import opened Wrappers

  function StripLeft(s: string): string {
    if s != "" && IsSpace(s[0]) then StripLeft(s[1..]) else s
  }

  function StripRight(s: string): string {
    if s != "" && IsSpace(s[|s| - 1]) then StripRight(s[..|s| - 1]) else s
  }

  /** `str.strip` */
  function Strip(s: string): string {
    StripRight(StripLeft(s))
  }

  /** Files `<user>.passwd` by name, files `<user>.local_passwd` by user, and peer storage as the leader has it. */
  datatype Vault = Vault(disk: map<string, string>, localDisk: map<string, string>, cluster: bool, store: Store)

  function Key(user: string): string {
    user + ".passwd"
  }

  /** `password or pwgen()` */
  function Choose(given: string, generated: string): string {
    if given != "" then given else generated
  }

  /** `migrate_passwords_to_peer_relation` */
  function Migrated(v: Vault): Vault {
    if !v.cluster then v
    else v.(disk := map[], store := v.store.(leader := PutAll(v.store.leader, map k | k in v.disk :: Strip(v.disk[k]))))
  }

  /** `get_rabbit_password(username, password)` for a password that is not local. */
  function Fetched(v: Vault, key: string, choice: string): Vault {
    var m := Migrated(v);
    if m.cluster then
      var s := ReadOne(m.store, key);
      m.(store := if key in s.leader then s else s.(leader := Put(s.leader, key, choice)))
    else if key in m.disk then m
    else m.(disk := m.disk[key := choice])
  }

  function Answer(v: Vault, key: string, choice: string): string {
    var m := Migrated(v);
    if m.cluster then
      var s := ReadOne(m.store, key);
      if key in s.leader then s.leader[key] else choice
    else if key in m.disk then Strip(m.disk[key])
    else choice
  }

  /** The password the store holds: a file on disk comes first, and without a peer relation it is all there is. */
  function Current(v: Vault, key: string): Option<string> {
    if key in v.disk then Some(Strip(v.disk[key]))
    else if v.cluster then OneValue(v.store, key)
    else None
  }

  /** Files hold passwords, and leader settings hold no empty value. */
  predicate Sound(v: Vault) {
    Clean(v.store) && forall k :: k in v.disk ==> Strip(v.disk[k]) != ""
  }

  /** A file's password takes the place of the stored one; a blank one leaves none. */
  function MigratedAt(disk: map<string, string>, leader: Settings, f: string): Option<string> {
    if f !in disk then Lookup(leader, f) else if Strip(disk[f]) == "" then None else Some(Strip(disk[f]))
  }

  class PasswordStore {
    var disk: map<string, string>
    var localDisk: map<string, string>
    var cluster: bool
    var leader: Settings
    var migrated: set<string>
    var peer: Settings

    ghost function State(): Vault
      reads this
    {
      Vault(disk, localDisk, cluster, Store(leader, migrated, peer))
    }

    /** `peer_store`; false stands for the ValueError raised without a peer relation. */
    method PeerStore(key: string, value: string) returns (ok: bool)
      modifies this`leader
      ensures ok == cluster && leader == if ok then Put(old(leader), key, value) else old(leader)
    {
      ok := cluster;
      if ok {
        leader := Put(leader, key, value);
      }
    }

    /**
     The loop that moves files into peer storage, in any order. Where no file is blank, no password is lost or
     changed in any state it passes through, between storing and unlinking included.
     */
    method MigratePasswords()
      modifies this`disk, this`leader
      ensures State() == Migrated(old(State()))
      ensures !cluster ==> disk == old(disk) && leader == old(leader)
      ensures cluster ==> disk == map[] && forall f :: Lookup(leader, f) == MigratedAt(old(disk), old(leader), f)
    {
      ghost var v := State();
      var files := disk.Keys;
      NothingMoved(v);
      while files != {}
        invariant files <= v.disk.Keys
        invariant State() == Moving(v, files)
        invariant Sound(v) ==> Sound(State()) && forall k :: Current(State(), k) == Current(v, k)
      {
        var f :| f in files;
        ghost var before := State();
        OneMoved(v, files, f);
        var ok := PeerStore(f, Strip(disk[f]));
        if ok {
          if Sound(v) {
            StoredIsSafe(before, f);
            assert Sound(State()) && forall k :: Current(State(), k) == Current(v, k);
            UnlinkIsSafe(before, f);
          }
          disk := disk - {f};
        }
        files := files - {f};
      }
      AllMoved(v);
      MigratedLookups(v);
    }

    /** `get_rabbit_password_on_disk` */
    method GetOnDisk(user: string, choice: string, isLocal: bool) returns (r: string)
      modifies this`disk, this`localDisk
      ensures isLocal ==>
                && disk == old(disk)
                && localDisk == (if user in old(localDisk) then old(localDisk) else old(localDisk)[user := choice])
                && r == (if user in old(localDisk) then Strip(old(localDisk)[user]) else choice)
      ensures !isLocal ==>
                && localDisk == old(localDisk)
                && disk == (if Key(user) in old(disk) then old(disk) else old(disk)[Key(user) := choice])
                && r == (if Key(user) in old(disk) then Strip(old(disk)[Key(user)]) else choice)
    {
      if isLocal {
        if user in localDisk {
          return Strip(localDisk[user]);
        }
        localDisk := localDisk[user := choice];
      } else {
        if Key(user) in disk {
          return Strip(disk[Key(user)]);
        }
        disk := disk[Key(user) := choice];
      }
      return choice;
    }

    /** `get_rabbit_password` on the leader, where `generated` is what `pwgen` would give. */
    method GetRabbitPassword(user: string, given: string, generated: string, isLocal: bool) returns (r: string)
      modifies this
      ensures isLocal ==>
                var choice, file := if given != "" then given else generated, Lookup(old(localDisk), user);
                && r == (if file.Some? then Strip(file.value) else choice)
                && State() == old(State()).(localDisk := if file.Some? then old(localDisk) else old(localDisk)[user := choice])
      ensures isLocal ==>
                var call := LocalCall(user, if given != "" then given else generated);
                r == LocalAnswer(old(localDisk), call) && localDisk == LocalFetched(old(localDisk), call)
      ensures !isLocal && Sound(old(State())) && Current(old(State()), Key(user)) == None ==>
                r == if given != "" then given else generated
      ensures !isLocal && Sound(old(State())) && Current(old(State()), Key(user)).Some? ==>
                Some(r) == Current(old(State()), Key(user))
      ensures !isLocal ==>
                && State() == Fetched(old(State()), Key(user), Choose(given, generated))
                && r == Answer(old(State()), Key(user), Choose(given, generated))
    {
      var choice := Choose(given, generated);
      ghost var v := State();
      if Sound(v) {
        AnswersCurrent(v, Key(user), choice);
      }
      if isLocal {
        r := GetOnDisk(user, choice, true);
        return;
      }
      MigratePasswords();
      if !cluster {
        r := GetOnDisk(user, choice, false);
        return;
      }
      var s := ReadOne(Store(leader, migrated, peer), Key(user));
      leader, migrated := s.leader, s.migrated;
      if Key(user) in leader {
        r := leader[Key(user)];
      } else {
        r := choice;
        var _ := PeerStore(Key(user), r);
      }
    }
  }

  /** The vault while the files in `todo` are still on disk. */
  function Moving(v: Vault, todo: set<string>): Vault {
    if !v.cluster then v
    else v.(disk := map k | k in v.disk && k in todo :: v.disk[k],
            store := v.store.(leader := PutAll(v.store.leader, map k | k in v.disk && k !in todo :: Strip(v.disk[k]))))
  }

  lemma NothingMoved(v: Vault)
    ensures Moving(v, v.disk.Keys) == v
  {
    var m := Moving(v, v.disk.Keys);
    assert m.disk == v.disk;
    SettingsByLookup(m.store.leader, v.store.leader);
  }

  lemma MigratedLookups(v: Vault)
    ensures v.cluster ==> forall f :: Lookup(Migrated(v).store.leader, f) == MigratedAt(v.disk, v.store.leader, f)
  {
    hide Strip;
    forall f
      ensures Lookup(PutAll(v.store.leader, map k | k in v.disk :: Strip(v.disk[k])), f) ==
              MigratedAt(v.disk, v.store.leader, f)
    {
      PutAllLookup(v.store.leader, map k | k in v.disk :: Strip(v.disk[k]), f);
    }
  }

  lemma AllMoved(v: Vault)
    ensures Moving(v, {}) == Migrated(v)
  {
    hide Strip;
    if v.cluster {
      var m, n := Moving(v, {}), Migrated(v);
      assert m.disk == map[];
      forall f
        ensures Lookup(m.store.leader, f) == Lookup(n.store.leader, f)
      {
      }
      SettingsByLookup(m.store.leader, n.store.leader);
    }
  }

  lemma OneMoved(v: Vault, todo: set<string>, f: string)
    requires f in todo && todo <= v.disk.Keys
    ensures f in Moving(v, todo).disk && Moving(v, todo).disk[f] == v.disk[f] && Moving(v, todo).cluster == v.cluster
    ensures !v.cluster ==> Moving(v, todo - {f}) == Moving(v, todo)
    ensures v.cluster ==>
              var m := Moving(v, todo);
              Moving(v, todo - {f}) ==
                m.(disk := m.disk - {f}, store := m.store.(leader := Put(m.store.leader, f, Strip(v.disk[f]))))
  {
    if v.cluster {
      var m, n := Moving(v, todo), Moving(v, todo - {f});
      assert n.disk == m.disk - {f};
      SettingsByLookup(n.store.leader, Put(m.store.leader, f, Strip(v.disk[f])));
    }
  }

  /** After a file's password is stored and before the file is unlinked, every password is what it was. */
  lemma StoredIsSafe(v: Vault, f: string)
    requires Sound(v) && f in v.disk && v.cluster
    ensures var w := v.(store := v.store.(leader := Put(v.store.leader, f, Strip(v.disk[f]))));
            Sound(w) && forall k :: Current(w, k) == Current(v, k)
  {
  }

  lemma UnlinkIsSafe(v: Vault, f: string)
    requires Sound(v) && f in v.disk && v.cluster
    ensures var w := v.(disk := v.disk - {f}, store := v.store.(leader := Put(v.store.leader, f, Strip(v.disk[f]))));
            Sound(w) && forall k :: Current(w, k) == Current(v, k)
  {
  }

  lemma MigrationKeeps(v: Vault)
    requires Sound(v)
    ensures Sound(Migrated(v)) && forall k :: Current(Migrated(v), k) == Current(v, k)
  {
  }

  // ----- stability -----

  /**
   A blank file is worth no password, but migrating it erases the one in leader settings: a migration keeps every
   password exactly where there is no peer relation or no file is blank.
   */
  lemma MigrationKeepsExactly(v: Vault)
    requires Clean(v.store)
    ensures (forall k :: Current(Migrated(v), k) == Current(v, k)) <==>
            !v.cluster || forall k :: k in v.disk ==> Strip(v.disk[k]) != ""
  {
    if Sound(v) {
      MigrationKeeps(v);
    } else if v.cluster {
      var k :| k in v.disk && Strip(v.disk[k]) == "";
      assert Current(v, k) == Some("") && Clean(Migrated(v).store);
      assert Current(Migrated(v), k) == OneValue(Migrated(v).store, k) != Some("");
    }
  }

  /** What can happen to the store between rotations. */
  datatype Act = Fetch(user: string, choice: string) | Appear | Reading(key: string) | ReadingAll

  function Done(v: Vault, a: Act): Vault {
    match a
    case Fetch(u, choice) => Fetched(v, Key(u), choice)
    case Appear => v.(cluster := true)
    case Reading(k) => v.(store := ReadOne(v.store, k))
    case ReadingAll => v.(store := ReadAll(v.store))
  }

  function DoneAll(v: Vault, acts: seq<Act>): Vault
    decreases |acts|
  {
    if acts == [] then v else DoneAll(Done(v, acts[0]), acts[1..])
  }

  /** The passwords offered in the sequence are not blank. */
  predicate Offered(acts: seq<Act>) {
    forall a :: a in acts && a.Fetch? ==> a.choice != "" && Strip(a.choice) != ""
  }

  /** Reading peer storage settles a key's value but never changes what it would read. */
  lemma ReadingKeeps(s: Store, key: string, other: string)
    requires Clean(s)
    ensures OneValue(ReadOne(s, other), key) == OneValue(s, key)
    ensures OneValue(s, key).Some? ==> OneValue(ReadAll(s), key) == OneValue(s, key)
  {
  }

  /** A call for a user settles that user's password and leaves every other as it is. */
  lemma FetchKeepsPassword(v: Vault, fetched: string, choice: string, key: string)
    requires Sound(v) && choice != "" && Strip(choice) != "" && Current(v, key).Some?
    ensures Sound(Fetched(v, fetched, choice)) && Current(Fetched(v, fetched, choice), key) == Current(v, key)
  {
    hide Strip, ReadOne;
    MigrationKeeps(v);
    var m := Migrated(v);
    ReadKeepsClean(m.store, fetched);
    ReadingKeeps(m.store, key, fetched);
    if m.cluster && fetched !in ReadOne(m.store, fetched).leader {
      PutKeepsOthers(ReadOne(m.store, fetched), fetched, choice, key);
    }
  }

  lemma ReadKeepsClean(s: Store, key: string)
    requires Clean(s)
    ensures Clean(ReadOne(s, key))
    ensures key in ReadOne(s, key).leader <==> OneValue(s, key).Some?
  {
  }

  lemma PutKeepsOthers(s: Store, fetched: string, choice: string, key: string)
    requires Clean(s) && choice != "" && fetched !in s.leader && OneValue(s, key).Some? && key != fetched
    ensures var t := s.(leader := Put(s.leader, fetched, choice)); Clean(t) && OneValue(t, key) == OneValue(s, key)
  {
  }

  lemma StepKeepsPassword(v: Vault, a: Act, key: string)
    requires Sound(v) && (a.Fetch? ==> a.choice != "" && Strip(a.choice) != "") && Current(v, key).Some?
    ensures Sound(Done(v, a)) && Current(Done(v, a), key) == Current(v, key)
  {
    match a {
      case Fetch(u, choice) => FetchKeepsPassword(v, Key(u), choice, key);
      case Reading(k) => ReadingKeeps(v.store, key, k);
      case ReadingAll => ReadingKeeps(v.store, key, key);
      case Appear =>
    }
  }

  /**
   Stability: once a user has a password it stays the same through any calls for any users, any reads of peer
   storage, and the appearance of the peer relation; and every call for the user answers it.
   */
  lemma {:induction false} PasswordsAreStable(v: Vault, acts: seq<Act>, user: string, choice: string)
    requires Sound(v) && Offered(acts) && Current(v, Key(user)).Some?
    ensures Sound(DoneAll(v, acts)) && Current(DoneAll(v, acts), Key(user)) == Current(v, Key(user))
    ensures Some(Answer(DoneAll(v, acts), Key(user), choice)) == Current(v, Key(user))
    decreases |acts|
  {
    if acts == [] {
      MigrationKeeps(v);
    } else {
      assert acts[0] in acts && forall a :: a in acts[1..] ==> a in acts;
      StepKeepsPassword(v, acts[0], Key(user));
      PasswordsAreStable(Done(v, acts[0]), acts[1..], user, choice);
    }
  }

  lemma {:induction false} StripLeftExactly(s: string) returns (n: nat)
    ensures n <= |s| && StripLeft(s) == s[n..] && forall c :: c in s[..n] ==> IsSpace(c)
    ensures StripLeft(s) != "" ==> !IsSpace(StripLeft(s)[0])
  {
    if s != "" && IsSpace(s[0]) {
      var m := StripLeftExactly(s[1..]);
      n := m + 1;
      assert s[1..][m..] == s[n..] && s[..n] == [s[0]] + s[1..][..m];
    } else {
      n := 0;
    }
  }

  lemma {:induction false} StripRightExactly(s: string) returns (n: nat)
    ensures n <= |s| && StripRight(s) == s[..n] && forall c :: c in s[n..] ==> IsSpace(c)
    ensures n > 0 ==> !IsSpace(s[n - 1])
    decreases |s|
  {
    if s != "" && IsSpace(s[|s| - 1]) {
      var front := s[..|s| - 1];
      n := StripRightExactly(front);
      assert front[..n] == s[..n] && s[n..] == front[n..] + [s[|s| - 1]];
    } else {
      n := |s|;
    }
  }

  /** Stripping takes away white space at both ends, all of it and nothing else. */
  lemma StripExactly(s: string) returns (left: string, right: string)
    ensures s == left + Strip(s) + right && forall c :: c in left + right ==> IsSpace(c)
    ensures Strip(s) != "" ==> !IsSpace(Strip(s)[0]) && !IsSpace(Strip(s)[|Strip(s)| - 1])
  {
    var m := StripLeftExactly(s);
    var rest := s[m..];
    var n := StripRightExactly(rest);
    left, right := s[..m], rest[n..];
    assert s == left + rest && rest == rest[..n] + right;
    assert n > 0 ==> rest[..n][0] == rest[0] && rest[..n][n - 1] == rest[n - 1];
  }

  /** A call answers the password there is, and otherwise its choice. */
  lemma AnswersCurrent(v: Vault, key: string, choice: string)
    requires Sound(v)
    ensures Answer(v, key, choice) == if Current(v, key).Some? then Current(v, key).value else choice
  {
    MigrationKeeps(v);
  }

  /**
   The first call's answer becomes the user's password exactly when peer storage takes it or it has no
   surrounding white space: a file is stripped when it is read back.
   */
  lemma FirstAnswerStays(v: Vault, user: string, choice: string)
    requires Sound(v) && choice != "" && Current(v, Key(user)) == None
    ensures Answer(v, Key(user), choice) == choice
    ensures Current(Fetched(v, Key(user), choice), Key(user)) == Some(choice) <==> v.cluster || Strip(choice) == choice
  {
    MigrationKeeps(v);
  }

  // ----- local passwords -----

  /** One `get_rabbit_password(user, local=True)`, with what it would choose. */
  datatype LocalCall = LocalCall(user: string, choice: string)

  function LocalAnswer(files: map<string, string>, c: LocalCall): string {
    if c.user in files then Strip(files[c.user]) else c.choice
  }

  function LocalFetched(files: map<string, string>, c: LocalCall): map<string, string> {
    if c.user in files then files else files[c.user := c.choice]
  }

  function LocalAll(files: map<string, string>, calls: seq<LocalCall>): map<string, string>
    decreases |calls|
  {
    if calls == [] then files else LocalAll(LocalFetched(files, calls[0]), calls[1..])
  }

  /** A file once written is never written again, whatever local calls follow. */
  lemma {:induction false} LocalFileStays(files: map<string, string>, calls: seq<LocalCall>, user: string)
    requires user in files
    ensures user in LocalAll(files, calls) && LocalAll(files, calls)[user] == files[user]
    decreases |calls|
  {
    if calls != [] {
      LocalFileStays(LocalFetched(files, calls[0]), calls[1..], user);
    }
  }

  /**
   Every later local call for a user, whatever calls come between and whatever they would choose, answers what the
   first one did, exactly where that came from a file or is free of surrounding white space.
   */
  lemma LocalAnswersAreStable(files: map<string, string>, first: LocalCall, calls: seq<LocalCall>, choice: string)
    ensures var again := LocalAnswer(LocalAll(LocalFetched(files, first), calls), LocalCall(first.user, choice));
            && again == (if first.user in files then Strip(files[first.user]) else Strip(first.choice))
            && (again == LocalAnswer(files, first) <==> first.user in files || Strip(first.choice) == first.choice)
  {
    LocalFileStays(LocalFetched(files, first), calls, first.user);
  }

  // ----- rotation -----

  /** What `rotate_service_user_password` stores, with or without the peer relation. */
  function Rotated(v: Vault, user: string, renewed: string): Vault {
    v.(store := v.store.(leader := Put(v.store.leader, Key(user), renewed)))
  }

  /**
   A rotated password takes effect exactly when the peer relation exists and the user's file has already been
   migrated: the rotation writes leader settings only, and a file left on disk still comes first.
   */
  lemma RotationTakesEffect(v: Vault, user: string, renewed: string)
    requires Sound(v) && renewed != "" && Current(v, Key(user)) != Some(renewed)
    ensures Current(Rotated(v, user, renewed), Key(user)) == Some(renewed) <==> v.cluster && Key(user) !in v.disk
  {
  }

  /** A rotation while the file is on disk is lost for good: the file's password is served from then on. */
  lemma RotationLostToFile(v: Vault, user: string, renewed: string, acts: seq<Act>, choice: string)
    requires Sound(v) && renewed != "" && Key(user) in v.disk && Offered(acts)
    ensures Answer(DoneAll(Rotated(v, user, renewed), acts), Key(user), choice) == Strip(v.disk[Key(user)])
  {
    PasswordsAreStable(Rotated(v, user, renewed), acts, user, choice);
  }

  /** For instance a file "old", rotated to "new" before the peer relation exists, which then appears. */
  lemma RotationLostExample()
    ensures var v := Vault(map[Key("nova") := "old"], map[], false, Store(map[], {}, map[]));
            Answer(Done(Rotated(v, "nova", "new"), Appear), Key("nova"), "x") == "old"
  {
    var v := Vault(map[Key("nova") := "old"], map[], false, Store(map[], {}, map[]));
    assert Strip("old") == "old";
    RotationLostToFile(v, "nova", "new", [Appear], "x");
    assert DoneAll(Rotated(v, "nova", "new"), [Appear]) == Done(Rotated(v, "nova", "new"), Appear);
  }

  /** For instance a blank file beside the password in leader settings: that password is erased and another one given. */
  lemma BlankFileExample()
    ensures var v := Vault(map[Key("nova") := "\n"], map[], true, Store(map[Key("nova") := "secret"], {}, map[]));
            && Current(v, Key("nova")) == Some("") && Current(Migrated(v), Key("nova")) == None
            && Answer(v, Key("nova"), "another") == "another"
  {
    var v := Vault(map[Key("nova") := "\n"], map[], true, Store(map[Key("nova") := "secret"], {}, map[]));
    assert "\n"[1..] == "" && Strip("\n") == "";
    assert v.disk[Key("nova")] == "\n";
  }
}
