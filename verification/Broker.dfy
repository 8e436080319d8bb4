/** `configure_amqp`: the broker is brought to what a client asked for, by commands issued only where they are needed. */
module Broker {
  import opened Wrappers

  // ----- the broker and its commands -----

  datatype User = User(password: string, tags: set<string>)

  datatype Permission = Permission(user: string, vhost: string, configure: string, write: string, read: string)

  /** A policy's definition as the value its JSON text stands for. */
  datatype Definition = MessageTtl(ttl: string) | Expires(ttl: string) | Mirror(mode: string, sync: string)

  datatype Policy = Policy(pattern: string, definition: Definition, priority: nat, applyTo: string)

  datatype PolicyId = PolicyId(vhost: string, name: string)

  /** `json` says whether the broker's queries support JSON output; without it most of them are not implemented. */
  datatype Rabbit = Rabbit(vhosts: set<string>, users: map<string, User>, permissions: seq<Permission>,
                           policies: map<PolicyId, Policy>, json: bool)

  datatype Command =
    | AddVhost(vhost: string)
    | AddUser(user: string, password: string)
    | SetUserTags(user: string, tags: set<string>)
    | SetPermissions(vhost: string, user: string)
    | SetPolicy(id: PolicyId, policy: Policy)

  const ALL := ".*"

  predicate Concerns(p: Permission, user: string, vhost: string) {
    p.user == user && p.vhost == vhost
  }

  function Rows(ps: seq<Permission>, user: string, vhost: string): seq<Permission> {
    if ps == [] then []
    else (if Concerns(ps[0], user, vhost) then [ps[0]] else []) + Rows(ps[1..], user, vhost)
  }

  function OtherRows(ps: seq<Permission>, user: string, vhost: string): seq<Permission> {
    if ps == [] then []
    else (if Concerns(ps[0], user, vhost) then [] else [ps[0]]) + OtherRows(ps[1..], user, vhost)
  }

  /** What `rabbitmqctl` does: setting permissions or a policy replaces what was there. */
  function Run(b: Rabbit, c: Command): Rabbit {
    match c
    case AddVhost(v) => b.(vhosts := b.vhosts + {v})
    case AddUser(u, p) => b.(users := b.users[u := User(p, {})])
    case SetUserTags(u, tags) => if u in b.users then b.(users := b.users[u := b.users[u].(tags := tags)]) else b
    case SetPermissions(v, u) =>
      b.(permissions := OtherRows(b.permissions, u, v) + [Permission(u, v, ALL, ALL, ALL)])
    case SetPolicy(id, p) => b.(policies := b.policies[id := p])
  }

  function RunAll(b: Rabbit, cs: seq<Command>): Rabbit
    decreases |cs|
  {
    if cs == [] then b else RunAll(Run(b, cs[0]), cs[1..])
  }

  // ----- which command each function issues -----

  function VhostCommands(b: Rabbit, vhost: string): seq<Command> {
    if vhost in b.vhosts then [] else [AddVhost(vhost)]
  }

  function UserCommands(b: Rabbit, user: string, password: string): seq<Command> {
    if user in b.users then [] else [AddUser(user, password)]
  }

  function TagsOf(b: Rabbit, user: string): set<string> {
    if user in b.users then b.users[user].tags else {}
  }

  function TagCommands(b: Rabbit, user: string, tags: set<string>): seq<Command> {
    if b.json && TagsOf(b, user) == tags then [] else [SetUserTags(user, tags)]
  }

  predicate FullAccess(b: Rabbit, user: string, vhost: string) {
    Rows(b.permissions, user, vhost) == [Permission(user, vhost, ALL, ALL, ALL)]
  }

  function PermissionCommands(b: Rabbit, user: string, vhost: string): seq<Command> {
    if b.json && FullAccess(b, user, vhost) then [] else [SetPermissions(vhost, user)]
  }

  function PolicyCommands(b: Rabbit, id: PolicyId, p: Policy): seq<Command> {
    if b.json && id in b.policies && b.policies[id] == p then [] else [SetPolicy(id, p)]
  }

  // ----- the request -----

  datatype Request = Request(user: string, vhost: string, relation: string, admin: bool, password: string,
                             ttlname: Option<string>, ttlreg: Option<string>, ttl: Option<string>)

  /** The charm's configuration. */
  datatype Options = Options(mirroring: bool, notificationTtl: string)

  predicate Given(v: Option<string>) {
    v.Some? && v.value != ""
  }

  function Tags(r: Request): set<string> {
    if r.admin then {"administrator"} else {}
  }

  const TTL_PATTERN := "^(versioned_)?notifications.*"
  const HA_PATTERN := "^(?!amq\\.).*"

  datatype Setting = Setting(id: PolicyId, policy: Policy)

  function TtlSetting(r: Request, o: Options): Setting {
    Setting(PolicyId(r.vhost, "TTL"), Policy(TTL_PATTERN, MessageTtl(o.notificationTtl), 1, "queues"))
  }

  function ClientSetting(r: Request): Setting
    requires Given(r.ttlname) && Given(r.ttlreg) && Given(r.ttl)
  {
    Setting(PolicyId(r.vhost, r.ttlname.value), Policy(r.ttlreg.value, Expires(r.ttl.value), 1, "queues"))
  }

  function HaSetting(r: Request): Setting {
    Setting(PolicyId(r.vhost, "HA"), Policy(HA_PATTERN, Mirror("all", "automatic"), 0, "all"))
  }

  predicate HasClientTtl(r: Request) {
    Given(r.ttlname) && Given(r.ttlreg) && Given(r.ttl)
  }

  /** The policies set before the user is created, and the one set at the end. */
  function EarlySettings(r: Request, o: Options): seq<Setting> {
    if r.vhost != "openstack" then []
    else [TtlSetting(r, o)] + if HasClientTtl(r) then [ClientSetting(r)] else []
  }

  function LateSettings(r: Request, o: Options): seq<Setting> {
    if o.mirroring then [HaSetting(r)] else []
  }

  function Settings(r: Request, o: Options): seq<Setting> {
    EarlySettings(r, o) + LateSettings(r, o)
  }

  // ----- one pass -----

  /** The broker together with the commands issued to it. */
  datatype Site = Site(broker: Rabbit, log: seq<Command>)

  function Issue(s: Site, cs: seq<Command>): Site {
    Site(RunAll(s.broker, cs), s.log + cs)
  }

  function WithPolicy(s: Site, p: Setting): Site {
    Issue(s, PolicyCommands(s.broker, p.id, p.policy))
  }

  function WithPolicies(s: Site, ps: seq<Setting>): Site
    decreases |ps|
  {
    if ps == [] then s else WithPolicies(WithPolicy(s, ps[0]), ps[1..])
  }

  function WithVhost(s: Site, vhost: string): Site {
    Issue(s, VhostCommands(s.broker, vhost))
  }

  function WithUser(s: Site, user: string, password: string, tags: set<string>): Site {
    var t := Issue(s, UserCommands(s.broker, user, password));
    Issue(t, TagCommands(t.broker, user, tags))
  }

  function WithPermissions(s: Site, user: string, vhost: string): Site {
    Issue(s, PermissionCommands(s.broker, user, vhost))
  }

  /** The slow path of `configure_amqp`. */
  function Pass(s: Site, r: Request, o: Options): Site {
    var a := WithPolicies(WithVhost(s, r.vhost), EarlySettings(r, o));
    var b := WithPermissions(WithUser(a, r.user, r.password, Tags(r)), r.user, r.vhost);
    WithPolicies(b, LateSettings(r, o))
  }

  // ----- the tracker -----

  /** What is remembered for a relation; a stale entry has one key more, so it never equals an expected one. */
  datatype Track = Track(user: string, vhost: string, ttl: Option<string>, mirroring: bool, stale: bool)

  function Expected(r: Request, o: Options): Track {
    Track(r.user, r.vhost, r.ttl, o.mirroring, false)
  }

  datatype Leader = Leader(site: Site, tracker: map<string, Track>)

  predicate FastPath(l: Leader, r: Request, o: Options) {
    r.relation in l.tracker && l.tracker[r.relation] == Expected(r, o)
  }

  /** `configure_amqp` with a relation id. */
  function Configured(l: Leader, r: Request, o: Options): Leader {
    if FastPath(l, r, o) then l
    else Leader(Pass(l.site, r, o), l.tracker[r.relation := Expected(r, o)])
  }

  /** `validate_amqp_config_tracker` on a unit that does not lead. */
  function Staled(tracker: map<string, Track>): map<string, Track> {
    map rid | rid in tracker :: tracker[rid].(stale := true)
  }

  // ----- the code -----

  class Server {
    var broker: Rabbit
    var log: seq<Command>
    var tracker: map<string, Track>

    ghost function Now(): Site
      reads this
    {
      Site(broker, log)
    }

    method Rabbitmqctl(c: Command)
      modifies this`broker, this`log
      ensures Now() == Issue(old(Now()), [c])
    {
      broker := Run(broker, c);
      log := log + [c];
      assert RunAll(old(broker), [c]) == RunAll(Run(old(broker), c), []);
    }

    /** `create_vhost` */
    method CreateVhost(vhost: string)
      modifies this`broker, this`log
      ensures Now() == WithVhost(old(Now()), vhost)
    {
      if vhost in broker.vhosts {
        return;
      }
      Rabbitmqctl(AddVhost(vhost));
    }

    /** `create_user` with `apply_tags` */
    method CreateUser(user: string, password: string, tags: set<string>)
      modifies this`broker, this`log
      ensures Now() == WithUser(old(Now()), user, password, tags)
    {
      if user !in broker.users {
        Rabbitmqctl(AddUser(user, password));
      }
      if broker.json {
        var existing := TagsOf(broker, user);
        if existing == tags {
          return;
        }
      }
      Rabbitmqctl(SetUserTags(user, tags));
    }

    /** `grant_permissions` */
    method GrantPermissions(user: string, vhost: string)
      modifies this`broker, this`log
      ensures Now() == WithPermissions(old(Now()), user, vhost)
    {
      var apply := true;
      if broker.json {
        var rows := Rows(broker.permissions, user, vhost);
        RowsConcern(broker.permissions, user, vhost);
        if |rows| > 1 {
          apply := true;
        } else if |rows| == 1 {
          assert rows[0] in rows && rows == [rows[0]];
          apply := rows[0].configure != ALL || rows[0].write != ALL || rows[0].read != ALL;
        }
      }
      assert Issue(Now(), []) == Now();
      if apply {
        Rabbitmqctl(SetPermissions(vhost, user));
      }
    }

    /** `compare_policy`, where the broker answers in JSON. */
    method ComparePolicy(id: PolicyId, p: Policy) returns (same: bool)
      ensures same <==> id in broker.policies && broker.policies[id] == p
    {
      if id !in broker.policies {
        return false;
      }
      var existing := broker.policies[id];
      if existing.pattern != p.pattern {
        return false;
      }
      if existing.priority != p.priority {
        return false;
      }
      if existing.applyTo != p.applyTo {
        return false;
      }
      return existing.definition == p.definition;
    }

    /** `set_policy`; what the broker cannot be asked about is set. */
    method SetPolicyIfNeeded(id: PolicyId, p: Policy)
      modifies this`broker, this`log
      ensures Now() == WithPolicy(old(Now()), Setting(id, p))
    {
      var needed := true;
      if broker.json {
        var same := ComparePolicy(id, p);
        needed := !same;
      }
      if needed {
        Rabbitmqctl(SetPolicy(id, p));
      }
    }

    /** `configure_notification_ttl` and `configure_ttl` for the virtual host they apply to. */
    method ConfigureTtls(r: Request, o: Options)
      modifies this`broker, this`log
      ensures Now() == WithPolicies(old(Now()), EarlySettings(r, o))
    {
      PoliciesInOrder(Now(), r, o);
      if r.vhost == "openstack" {
        SetPolicyIfNeeded(TtlSetting(r, o).id, TtlSetting(r, o).policy);
        if HasClientTtl(r) {
          SetPolicyIfNeeded(ClientSetting(r).id, ClientSetting(r).policy);
        }
      }
    }

    /** `configure_amqp`; an empty relation id is refused. */
    method ConfigureAmqp(r: Request, o: Options) returns (password: Option<string>)
      modifies this
      ensures password == if r.relation == "" then None else Some(r.password)
      ensures r.relation == "" ==> Now() == old(Now()) && tracker == old(tracker)
      ensures r.relation != "" ==>
                Leader(Now(), tracker) == Configured(Leader(old(Now()), old(tracker)), r, o)
    {
      if r.relation == "" {
        return None;
      }
      if r.relation in tracker && tracker[r.relation] == Expected(r, o) {
        return Some(r.password);
      }
      CreateVhost(r.vhost);
      ConfigureTtls(r, o);
      CreateUser(r.user, r.password, Tags(r));
      GrantPermissions(r.user, r.vhost);
      PoliciesInOrder(Now(), r, o);
      if o.mirroring {
        SetPolicyIfNeeded(HaSetting(r).id, HaSetting(r).policy);
      }
      tracker := tracker[r.relation := Expected(r, o)];
      return Some(r.password);
    }

    /** `validate_amqp_config_tracker` */
    method ValidateTracker(leads: bool)
      modifies this`tracker
      ensures tracker == if leads then old(tracker) else Staled(old(tracker))
    {
      if leads {
        return;
      }
      var todo := tracker.Keys;
      while todo != {}
        invariant todo <= old(tracker).Keys && tracker.Keys == old(tracker).Keys
        invariant forall rid :: rid in tracker ==>
                    tracker[rid] == if rid in todo then old(tracker)[rid] else old(tracker)[rid].(stale := true)
      {
        var rid :| rid in todo;
        tracker := tracker[rid := tracker[rid].(stale := true)];
        todo := todo - {rid};
      }
    }
  }

  /** The policy lists, written out. */
  lemma PoliciesInOrder(s: Site, r: Request, o: Options)
    ensures WithPolicies(s, LateSettings(r, o)) ==
            if o.mirroring then WithPolicy(s, HaSetting(r)) else s
    ensures WithPolicies(s, EarlySettings(r, o)) ==
            if r.vhost != "openstack" then s
            else
              var t := WithPolicy(s, TtlSetting(r, o));
              if HasClientTtl(r) then WithPolicy(t, ClientSetting(r)) else t
  {
    if o.mirroring {
      assert WithPolicies(WithPolicy(s, HaSetting(r)), []) == WithPolicy(s, HaSetting(r));
    }
    if r.vhost == "openstack" {
      var t := WithPolicy(s, TtlSetting(r, o));
      assert WithPolicies(t, []) == t;
      if HasClientTtl(r) {
        var u := WithPolicy(t, ClientSetting(r));
        assert EarlySettings(r, o)[1..] == [ClientSetting(r)];
        assert [ClientSetting(r)][1..] == [];
        assert WithPolicies(t, [ClientSetting(r)]) == WithPolicies(u, []) == u;
      }
    }
  }

  // ----- permissions -----

  lemma {:induction false} RowsConcern(ps: seq<Permission>, user: string, vhost: string)
    ensures forall p :: p in Rows(ps, user, vhost) ==> Concerns(p, user, vhost)
  {
    if ps != [] {
      RowsConcern(ps[1..], user, vhost);
    }
  }

  lemma RowsUnfold(ps: seq<Permission>, user: string, vhost: string)
    requires ps != []
    ensures Rows(ps, user, vhost) == (if Concerns(ps[0], user, vhost) then [ps[0]] else []) + Rows(ps[1..], user, vhost)
  {
  }

  lemma RowsOfNone(user: string, vhost: string)
    ensures Rows([], user, vhost) == []
  {
  }

  lemma {:induction false} RowsAppend(ps: seq<Permission>, qs: seq<Permission>, user: string, vhost: string)
    ensures Rows(ps + qs, user, vhost) == Rows(ps, user, vhost) + Rows(qs, user, vhost)
  {
    hide Rows, Concerns;
    RowsOfNone(user, vhost);
    if ps == [] {
      assert ps + qs == qs;
    } else {
      var all := ps + qs;
      assert all[0] == ps[0] && all[1..] == ps[1..] + qs;
      RowsAppend(ps[1..], qs, user, vhost);
      RowsUnfold(all, user, vhost);
      RowsUnfold(ps, user, vhost);
    }
  }

  lemma {:induction false} RowsOfOthers(ps: seq<Permission>, u: string, v: string, user: string, vhost: string)
    ensures Rows(OtherRows(ps, u, v), user, vhost) == if user == u && vhost == v then [] else Rows(ps, user, vhost)
  {
    if ps != [] {
      var kept := if Concerns(ps[0], u, v) then [] else [ps[0]];
      RowsOfOthers(ps[1..], u, v, user, vhost);
      RowsAppend(kept, OtherRows(ps[1..], u, v), user, vhost);
      RowsOfOne(ps[0], user, vhost);
    }
  }

  lemma RowsOfOne(p: Permission, user: string, vhost: string)
    ensures Rows([p], user, vhost) == if Concerns(p, user, vhost) then [p] else []
    ensures Rows([], user, vhost) == []
  {
    assert [p][1..] == [];
  }

  /** Replacing a user's permissions on a virtual host leaves one row there, and every other row as it was. */
  lemma ReplacedRows(ps: seq<Permission>, p: Permission, user: string, vhost: string)
    ensures Rows(OtherRows(ps, p.user, p.vhost) + [p], user, vhost) ==
            if Concerns(p, user, vhost) then [p] else Rows(ps, user, vhost)
  {
    hide Rows, OtherRows;
    RowsAppend(OtherRows(ps, p.user, p.vhost), [p], user, vhost);
    RowsOfOthers(ps, p.user, p.vhost, user, vhost);
    RowsOfOne(p, user, vhost);
  }

  // ----- what one command does -----

  /** The virtual host, the user and full access are there. */
  predicate Ready(b: Rabbit, user: string, vhost: string) {
    vhost in b.vhosts && user in b.users && FullAccess(b, user, vhost)
  }

  /** No command takes away what a client relies on, so a pass that stops half way is harmless. */
  lemma {:induction false} ReadyStays(b: Rabbit, cs: seq<Command>, user: string, vhost: string)
    requires Ready(b, user, vhost)
    ensures Ready(RunAll(b, cs), user, vhost)
    decreases |cs|
  {
    if cs != [] {
      if cs[0].SetPermissions? {
        ReplacedRows(b.permissions, Permission(cs[0].user, cs[0].vhost, ALL, ALL, ALL), user, vhost);
      }
      ReadyStays(Run(b, cs[0]), cs[1..], user, vhost);
    }
  }

  lemma RunOne(b: Rabbit, c: Command)
    ensures RunAll(b, [c]) == Run(b, c)
  {
    assert RunAll(Run(b, c), [c][1..]) == Run(b, c);
  }

  /** The policy is in place and nothing else has changed; a command is issued exactly where one is needed. */
  lemma PolicySet(s: Site, p: Setting)
    ensures var t := WithPolicy(s, p);
            && t.broker == s.broker.(policies := s.broker.policies[p.id := p.policy])
            && (t.log == s.log <==> s.broker.json && PolicyMet(s.broker, p))
            && (t.log == s.log ==> t == s)
            && |t.log| >= |s.log|
  {
    RunOne(s.broker, SetPolicy(p.id, p.policy));
    if s.broker.json && PolicyMet(s.broker, p) {
      assert s.broker.policies == s.broker.policies[p.id := p.policy];
    } else {
      assert WithPolicy(s, p).log == s.log + [SetPolicy(p.id, p.policy)];
      assert |WithPolicy(s, p).log| == |s.log| + 1;
    }
  }

  lemma VhostMade(s: Site, vhost: string)
    ensures var t := WithVhost(s, vhost);
            && t.broker == s.broker.(vhosts := s.broker.vhosts + {vhost})
            && (t.log == s.log <==> vhost in s.broker.vhosts)
            && (t.log == s.log ==> t == s)
            && |t.log| >= |s.log|
  {
    RunOne(s.broker, AddVhost(vhost));
    if vhost in s.broker.vhosts {
      assert s.broker.vhosts == s.broker.vhosts + {vhost};
    } else {
      assert |WithVhost(s, vhost).log| == |s.log| + 1;
    }
  }

  lemma UserMade(s: Site, user: string, password: string, tags: set<string>)
    ensures var t := WithUser(s, user, password, tags);
            && (var known := if user in s.broker.users then s.broker.users[user].password else password;
                t.broker == s.broker.(users := s.broker.users[user := User(known, tags)]))
            && (t.log == s.log <==> s.broker.json && user in s.broker.users && s.broker.users[user].tags == tags)
            && (t.log == s.log ==> t == s)
            && |t.log| >= |s.log|
  {
    RunOne(s.broker, AddUser(user, password));
    var t := Issue(s, UserCommands(s.broker, user, password));
    RunOne(t.broker, SetUserTags(user, tags));
    var u := WithUser(s, user, password, tags);
    assert |t.log| == |s.log| + if user in s.broker.users then 0 else 1;
    assert |u.log| == |t.log| + if t.broker.json && TagsOf(t.broker, user) == tags then 0 else 1;
    var known := if user in s.broker.users then s.broker.users[user].password else password;
    assert u.broker.users == s.broker.users[user := User(known, tags)];
  }

  lemma PermissionsMade(s: Site, user: string, vhost: string)
    ensures var t := WithPermissions(s, user, vhost);
            && t.broker == s.broker.(permissions := t.broker.permissions)
            && (forall u, v :: Rows(t.broker.permissions, u, v) ==
                  if u == user && v == vhost then [Permission(u, v, ALL, ALL, ALL)]
                  else Rows(s.broker.permissions, u, v))
            && (t.log == s.log <==> s.broker.json && FullAccess(s.broker, user, vhost))
            && (t.log == s.log ==> t == s)
            && |t.log| >= |s.log|
  {
    RunOne(s.broker, SetPermissions(vhost, user));
    var t := WithPermissions(s, user, vhost);
    if s.broker.json && FullAccess(s.broker, user, vhost) {
      assert t == s;
    } else {
      assert |t.log| == |s.log| + 1;
      var p := Permission(user, vhost, ALL, ALL, ALL);
      forall u, v ensures Rows(t.broker.permissions, u, v) ==
                          if u == user && v == vhost then [Permission(u, v, ALL, ALL, ALL)]
                          else Rows(s.broker.permissions, u, v)
      {
        ReplacedRows(s.broker.permissions, p, u, v);
      }
    }
  }

  // ----- one slow pass -----

  predicate PolicyMet(b: Rabbit, p: Setting) {
    p.id in b.policies && b.policies[p.id] == p.policy
  }

  predicate PoliciesMet(b: Rabbit, ps: seq<Setting>) {
    forall p :: p in ps ==> PolicyMet(b, p)
  }

  predicate TagsMet(b: Rabbit, r: Request) {
    r.user in b.users && b.users[r.user].tags == Tags(r)
  }

  /** The client asks for a policy under a name the charm itself uses on that virtual host. */
  predicate NameClash(r: Request, o: Options) {
    && r.vhost == "openstack"
    && HasClientTtl(r)
    && (r.ttlname.value == "TTL" || (o.mirroring && r.ttlname.value == "HA"))
  }

  /** The policies after a pass: the later of two settings with one name wins. */
  function Overlaid(ps: map<PolicyId, Policy>, settings: seq<Setting>): map<PolicyId, Policy>
    decreases |settings|
  {
    if settings == [] then ps else Overlaid(ps[settings[0].id := settings[0].policy], settings[1..])
  }

  lemma {:induction false} PoliciesSet(s: Site, ps: seq<Setting>)
    ensures var t := WithPolicies(s, ps);
            && t.broker == s.broker.(policies := Overlaid(s.broker.policies, ps))
            && |t.log| >= |s.log|
            && (t.log == s.log ==> t == s && (ps != [] ==> s.broker.json))
            && (t.log == s.log <== s.broker.json && PoliciesMet(s.broker, ps))
            && (t.log == s.log ==> PoliciesMet(s.broker, ps))
    decreases |ps|
  {
    if ps != [] {
      PolicySet(s, ps[0]);
      PoliciesSet(WithPolicy(s, ps[0]), ps[1..]);
      assert forall p :: p in ps <==> p == ps[0] || p in ps[1..];
    }
  }

  lemma OverlaidAppend(ps: map<PolicyId, Policy>, xs: seq<Setting>, ys: seq<Setting>)
    ensures Overlaid(ps, xs + ys) == Overlaid(Overlaid(ps, xs), ys)
    decreases |xs|
  {
    if xs == [] {
      assert xs + ys == ys;
    } else {
      assert (xs + ys)[0] == xs[0] && (xs + ys)[1..] == xs[1..] + ys;
      OverlaidAppend(ps[xs[0].id := xs[0].policy], xs[1..], ys);
    }
  }

  /** A pass changes one virtual host, one user, one pair's permissions and the policies asked for, and nothing else. */
  lemma PassChanges(s: Site, r: Request, o: Options)
    ensures var b := s.broker;
            var t := Pass(s, r, o).broker;
            && t.json == b.json
            && t.vhosts == b.vhosts + {r.vhost}
            && (var known := if r.user in b.users then b.users[r.user].password else r.password;
                t.users == b.users[r.user := User(known, Tags(r))])
            && (forall u, v :: Rows(t.permissions, u, v) ==
                  if u == r.user && v == r.vhost then [Permission(u, v, ALL, ALL, ALL)]
                  else Rows(b.permissions, u, v))
            && t.policies == Overlaid(b.policies, Settings(r, o))
  {
    var s1 := WithVhost(s, r.vhost);
    var s2 := WithPolicies(s1, EarlySettings(r, o));
    var s3 := WithUser(s2, r.user, r.password, Tags(r));
    var s4 := WithPermissions(s3, r.user, r.vhost);
    VhostMade(s, r.vhost);
    PoliciesSet(s1, EarlySettings(r, o));
    UserMade(s2, r.user, r.password, Tags(r));
    PermissionsMade(s3, r.user, r.vhost);
    PoliciesSet(s4, LateSettings(r, o));
    OverlaidAppend(s.broker.policies, EarlySettings(r, o), LateSettings(r, o));
  }

  predicate Satisfied(b: Rabbit, r: Request, o: Options) {
    Ready(b, r.user, r.vhost) && TagsMet(b, r) && PoliciesMet(b, Settings(r, o))
  }

  /** A pass issues no command exactly where the broker can be asked and all that is wanted is there. */
  lemma PassIsIdle(s: Site, r: Request, o: Options)
    ensures Pass(s, r, o).log == s.log <==> s.broker.json && Satisfied(s.broker, r, o)
    ensures Pass(s, r, o).log == s.log ==> Pass(s, r, o) == s
  {
    var s1 := WithVhost(s, r.vhost);
    var s2 := WithPolicies(s1, EarlySettings(r, o));
    var s3 := WithUser(s2, r.user, r.password, Tags(r));
    var s4 := WithPermissions(s3, r.user, r.vhost);
    var s5 := WithPolicies(s4, LateSettings(r, o));
    VhostMade(s, r.vhost);
    PoliciesSet(s1, EarlySettings(r, o));
    UserMade(s2, r.user, r.password, Tags(r));
    PermissionsMade(s3, r.user, r.vhost);
    PoliciesSet(s4, LateSettings(r, o));
    assert |s.log| <= |s1.log| <= |s2.log| <= |s3.log| <= |s4.log| <= |s5.log|;
    assert PoliciesMet(s.broker, Settings(r, o)) <==>
           PoliciesMet(s.broker, EarlySettings(r, o)) && PoliciesMet(s.broker, LateSettings(r, o)) by {
      assert forall p :: p in Settings(r, o) <==> p in EarlySettings(r, o) || p in LateSettings(r, o);
    }
  }

  lemma OverlaidOne(ps: map<PolicyId, Policy>, p: Setting)
    ensures Overlaid(ps, [p]) == ps[p.id := p.policy]
  {
    assert [p][1..] == [];
  }

  /** The policies after the early settings are made. */
  lemma EarlyOverlaid(ps: map<PolicyId, Policy>, r: Request, o: Options)
    ensures Overlaid(ps, EarlySettings(r, o)) ==
            if r.vhost != "openstack" then ps
            else
              var q := ps[TtlSetting(r, o).id := TtlSetting(r, o).policy];
              if HasClientTtl(r) then q[ClientSetting(r).id := ClientSetting(r).policy] else q
  {
    if r.vhost == "openstack" {
      var ttl := TtlSetting(r, o);
      OverlaidOne(ps, ttl);
      if HasClientTtl(r) {
        var client := ClientSetting(r);
        OverlaidAppend(ps, [ttl], [client]);
        OverlaidOne(Overlaid(ps, [ttl]), client);
        assert EarlySettings(r, o) == [ttl] + [client];
      } else {
        assert EarlySettings(r, o) == [ttl];
      }
    }
  }

  lemma SettingsOverlaid(ps: map<PolicyId, Policy>, r: Request, o: Options)
    ensures Overlaid(ps, Settings(r, o)) ==
            var early :=
              if r.vhost != "openstack" then ps
              else
                var q := ps[TtlSetting(r, o).id := TtlSetting(r, o).policy];
                if HasClientTtl(r) then q[ClientSetting(r).id := ClientSetting(r).policy] else q;
            if o.mirroring then early[HaSetting(r).id := HaSetting(r).policy] else early
  {
    OverlaidAppend(ps, EarlySettings(r, o), LateSettings(r, o));
    EarlyOverlaid(ps, r, o);
    OverlaidOne(Overlaid(ps, EarlySettings(r, o)), HaSetting(r));
  }

  /** The settings, one by one. */
  lemma SettingsAre(r: Request, o: Options)
    ensures forall p :: p in Settings(r, o) <==>
              || (r.vhost == "openstack" && p == TtlSetting(r, o))
              || (r.vhost == "openstack" && HasClientTtl(r) && p == ClientSetting(r))
              || (o.mirroring && p == HaSetting(r))
  {
  }

  /** The wanted policies are all in place after they are set exactly where no two share a name. */
  lemma PoliciesInPlace(b: Rabbit, r: Request, o: Options)
    ensures PoliciesMet(b.(policies := Overlaid(b.policies, Settings(r, o))), Settings(r, o)) <==> !NameClash(r, o)
  {
    SettingsOverlaid(b.policies, r, o);
    hide Overlaid, Settings;
    PoliciesMetHere(b.(policies := Overlaid(b.policies, Settings(r, o))), r, o);
  }

  lemma PoliciesMetHere(b: Rabbit, r: Request, o: Options)
    ensures PoliciesMet(b, Settings(r, o)) <==>
            && (r.vhost == "openstack" ==> PolicyMet(b, TtlSetting(r, o)))
            && (r.vhost == "openstack" && HasClientTtl(r) ==> PolicyMet(b, ClientSetting(r)))
            && (o.mirroring ==> PolicyMet(b, HaSetting(r)))
  {
    hide Settings, TtlSetting, HaSetting, ClientSetting, PolicyMet;
    SettingsAre(r, o);
  }

  /** After a pass the virtual host, the user, its tags and its full access are there; so are all the policies, exactly where no name clashes. */
  lemma PassDelivers(s: Site, r: Request, o: Options)
    ensures Ready(Pass(s, r, o).broker, r.user, r.vhost)
    ensures TagsMet(Pass(s, r, o).broker, r)
    ensures PoliciesMet(Pass(s, r, o).broker, Settings(r, o)) <==> !NameClash(r, o)
  {
    PassChanges(s, r, o);
    PoliciesInPlace(s.broker, r, o);
  }

  /** A second pass is silent exactly where the broker can be asked and no policy name clashes. */
  lemma SecondPassIsSilent(s: Site, r: Request, o: Options)
    ensures var t := Pass(s, r, o);
            && (Pass(t, r, o).log == t.log <==> s.broker.json && !NameClash(r, o))
            && (Pass(t, r, o).log == t.log ==> Pass(t, r, o) == t)
  {
    PassChanges(s, r, o);
    PassDelivers(s, r, o);
    PassIsIdle(Pass(s, r, o), r, o);
  }

  predicate HasPolicy(b: Rabbit, vhost: string, name: string, policy: Policy) {
    PolicyId(vhost, name) in b.policies && b.policies[PolicyId(vhost, name)] == policy
  }

  /** What a request asks for, in the broker's own terms; where two policies have one name, the later one counts. */
  predicate AsAsked(b: Rabbit, r: Request, o: Options) {
    var client := r.vhost == "openstack" &&
                  r.ttlname.Some? && r.ttlname != Some("") && r.ttlreg.Some? && r.ttlreg != Some("") &&
                  r.ttl.Some? && r.ttl != Some("");
    && r.vhost in b.vhosts
    && r.user in b.users && b.users[r.user].tags == (if r.admin then {"administrator"} else {})
    && Rows(b.permissions, r.user, r.vhost) == [Permission(r.user, r.vhost, ".*", ".*", ".*")]
    && (o.mirroring ==> HasPolicy(b, r.vhost, "HA", Policy("^(?!amq\\.).*", Mirror("all", "automatic"), 0, "all")))
    && (client && !(o.mirroring && r.ttlname == Some("HA")) ==>
          HasPolicy(b, "openstack", r.ttlname.value, Policy(r.ttlreg.value, Expires(r.ttl.value), 1, "queues")))
    && (r.vhost == "openstack" && !(client && r.ttlname == Some("TTL")) ==>
          HasPolicy(b, "openstack", "TTL",
                    Policy("^(versioned_)?notifications.*", MessageTtl(o.notificationTtl), 1, "queues")))
  }

  lemma GivenMeans(v: Option<string>)
    ensures Given(v) <==> v.Some? && v != Some("")
  {
    assert v.Some? && v.value == "" ==> v == Some("");
  }

  /** After a pass all of it is there; every other policy, and the password of a user there was, is as before. */
  lemma PassAsAsked(s: Site, r: Request, o: Options)
    ensures AsAsked(Pass(s, r, o).broker, r, o)
    ensures var b, t := s.broker, Pass(s, r, o).broker;
            && t.users[r.user].password == (if r.user in b.users then b.users[r.user].password else r.password)
            && (forall id: PolicyId :: id.vhost != r.vhost || (id.name !in {"HA", "TTL"} && Some(id.name) != r.ttlname) ==>
                  (id in t.policies <==> id in b.policies) && (id in b.policies ==> t.policies[id] == b.policies[id]))
  {
    PassChanges(s, r, o);
    SettingsOverlaid(s.broker.policies, r, o);
    hide Pass, Overlaid, Settings;
    assert |"HA"| != |"TTL"|;
    GivenMeans(r.ttlname);
    GivenMeans(r.ttlreg);
    GivenMeans(r.ttl);
  }

  /** Once a request has been configured, another of the same relation is skipped exactly where all that is tracked is the same. */
  lemma SkippedExactlyWhen(l: Leader, r: Request, o: Options, r2: Request, o2: Options)
    requires r2.relation == r.relation
    ensures var first := Configured(l, r, o);
            && (FastPath(first, r2, o2) <==>
                  r2.user == r.user && r2.vhost == r.vhost && r2.ttl == r.ttl && o2.mirroring == o.mirroring)
            && (FastPath(first, r2, o2) ==> Configured(first, r2, o2) == first)
  {
    hide Pass;
  }

  /** A request that differs from the last one of its relation in user, virtual host, TTL or mirroring is met in full. */
  lemma ChangedRequestIsConfigured(l: Leader, r: Request, o: Options, r2: Request, o2: Options)
    requires r2.relation == r.relation
    requires r2.user != r.user || r2.vhost != r.vhost || r2.ttl != r.ttl || o2.mirroring != o.mirroring
    ensures var first := Configured(l, r, o);
            var second := Configured(first, r2, o2);
            && AsAsked(second.site.broker, r2, o2)
            && second.tracker == first.tracker[r.relation := Track(r2.user, r2.vhost, r2.ttl, o2.mirroring, false)]
  {
    hide Pass, AsAsked;
    SkippedExactlyWhen(l, r, o, r2, o2);
    PassAsAsked(Configured(l, r, o).site, r2, o2);
  }

  // ----- runs, with the tracker -----

  lemma {:induction false} RunAppend(b: Rabbit, cs: seq<Command>, ds: seq<Command>)
    ensures RunAll(b, cs + ds) == RunAll(RunAll(b, cs), ds)
    decreases |cs|
  {
    if cs == [] {
      assert cs + ds == ds;
    } else {
      assert (cs + ds)[0] == cs[0] && (cs + ds)[1..] == cs[1..] + ds;
      RunAppend(Run(b, cs[0]), cs[1..], ds);
    }
  }

  /** The commands a pass issues. */
  function Commands(b: Rabbit, r: Request, o: Options): seq<Command> {
    Pass(Site(b, []), r, o).log
  }

  lemma {:induction false} PoliciesReplay(b: Rabbit, s: Site, ps: seq<Setting>)
    requires s.broker == RunAll(b, s.log)
    ensures var t := WithPolicies(s, ps); t.broker == RunAll(b, t.log)
    decreases |ps|
  {
    if ps != [] {
      RunAppend(b, s.log, PolicyCommands(s.broker, ps[0].id, ps[0].policy));
      PoliciesReplay(b, WithPolicy(s, ps[0]), ps[1..]);
    }
  }

  /** A pass does what its commands do, one after the other. */
  lemma PassRunsItsCommands(b: Rabbit, r: Request, o: Options)
    ensures Pass(Site(b, []), r, o).broker == RunAll(b, Commands(b, r, o))
  {
    var s := Site(b, []);
    var s1 := WithVhost(s, r.vhost);
    var s2 := WithPolicies(s1, EarlySettings(r, o));
    var s3 := Issue(s2, UserCommands(s2.broker, r.user, r.password));
    var s4 := Issue(s3, TagCommands(s3.broker, r.user, Tags(r)));
    var s5 := WithPermissions(s4, r.user, r.vhost);
    RunAppend(b, [], VhostCommands(b, r.vhost));
    PoliciesReplay(b, s1, EarlySettings(r, o));
    RunAppend(b, s2.log, UserCommands(s2.broker, r.user, r.password));
    RunAppend(b, s3.log, TagCommands(s3.broker, r.user, Tags(r)));
    RunAppend(b, s4.log, PermissionCommands(s4.broker, r.user, r.vhost));
    PoliciesReplay(b, s5, LateSettings(r, o));
  }

  datatype Event =
    | Configure(request: Request, options: Options)
      // a command fails after `done` of them; the tracker is not saved
    | Interrupted(request: Request, options: Options, done: nat)
      // another unit leads and configures its clients
    | OthersConfigure(commands: seq<Command>)
      // anybody does anything to the broker
    | Away(others: Rabbit)
      // this unit calls the decorated function while it does not lead
    | Noticed

  datatype Host = Host(broker: Rabbit, tracker: map<string, Track>)

  function AsLeader(h: Host): Leader {
    Leader(Site(h.broker, []), h.tracker)
  }

  function Happens(h: Host, e: Event): Host {
    match e
    case Configure(r, o) =>
      var l := Configured(AsLeader(h), r, o);
      Host(l.site.broker, l.tracker)
    case Interrupted(r, o, done) =>
      if FastPath(AsLeader(h), r, o) || done >= |Commands(h.broker, r, o)| then h
      else h.(broker := RunAll(h.broker, Commands(h.broker, r, o)[..done]))
    case OthersConfigure(commands) => h.(broker := RunAll(h.broker, commands))
    case Away(others) => h.(broker := others)
    case Noticed => h.(tracker := Staled(h.tracker))
  }

  function HappensAll(h: Host, es: seq<Event>): Host
    decreases |es|
  {
    if es == [] then h else HappensAll(Happens(h, es[0]), es[1..])
  }

  /** What the tracker may be trusted with. */
  predicate TrackerTrue(h: Host) {
    forall rid :: rid in h.tracker && !h.tracker[rid].stale ==>
                    Ready(h.broker, h.tracker[rid].user, h.tracker[rid].vhost)
  }

  /** The tracker can be trusted exactly where the fast path is only taken with everything it relies on in place. */
  lemma TrackerTrueMeansSafe(h: Host)
    ensures TrackerTrue(h) <==>
            forall r, o :: FastPath(AsLeader(h), r, o) ==> Ready(h.broker, r.user, r.vhost)
  {
    if forall r, o :: FastPath(AsLeader(h), r, o) ==> Ready(h.broker, r.user, r.vhost) {
      forall rid | rid in h.tracker && !h.tracker[rid].stale
        ensures Ready(h.broker, h.tracker[rid].user, h.tracker[rid].vhost)
      {
        var t := h.tracker[rid];
        var r := Request(t.user, t.vhost, rid, false, "", None, None, t.ttl);
        assert FastPath(AsLeader(h), r, Options(t.mirroring, ""));
      }
    }
  }

  /** Whether the broker has changed hands unnoticed. */
  function Unnoticed(before: bool, e: Event): bool {
    if e.Away? then true else if e.Noticed? then false else before
  }

  function UnnoticedAfter(before: bool, es: seq<Event>): bool
    decreases |es|
  {
    if es == [] then before else UnnoticedAfter(Unnoticed(before, es[0]), es[1..])
  }

  /** No event but `Away` makes an entry wrong, and `Noticed` makes every entry right. */
  lemma HappensKeepsTrackerTrue(h: Host, e: Event)
    ensures TrackerTrue(h) && !e.Away? ==> TrackerTrue(Happens(h, e))
    ensures e.Noticed? ==> TrackerTrue(Happens(h, e))
  {
    if TrackerTrue(h) && !e.Away? && !e.Noticed? {
      var cs := CommandsOf(h, e);
      if e.Configure? {
        PassRunsItsCommands(h.broker, e.request, e.options);
        PassDelivers(Site(h.broker, []), e.request, e.options);
      }
      hide Ready, Pass;
      forall rid | rid in h.tracker && !h.tracker[rid].stale
        ensures Ready(RunAll(h.broker, cs), h.tracker[rid].user, h.tracker[rid].vhost)
      {
        ReadyStays(h.broker, cs, h.tracker[rid].user, h.tracker[rid].vhost);
      }
    }
  }

  /** What an event that issues commands issues. */
  function CommandsOf(h: Host, e: Event): seq<Command>
    requires !e.Away? && !e.Noticed?
  {
    match e
    case OthersConfigure(commands) => commands
    case Configure(r, o) => if FastPath(AsLeader(h), r, o) then [] else Commands(h.broker, r, o)
    case Interrupted(r, o, done) =>
      if FastPath(AsLeader(h), r, o) || done >= |Commands(h.broker, r, o)| then [] else Commands(h.broker, r, o)[..done]
  }

  /**
   The fast path over every run: passes of this unit and of other leaders, complete or cut short, never make it
   unsafe, whether noticed or not. Once the broker has changed in any other way, it is safe again after the
   decorated function is called on this unit while it does not lead.
   */
  lemma {:induction false} FastPathIsSafe(h: Host, es: seq<Event>, unnoticed: bool, r: Request, o: Options)
    requires unnoticed || TrackerTrue(h)
    ensures var after := HappensAll(h, es);
            !UnnoticedAfter(unnoticed, es) ==>
              TrackerTrue(after) && (FastPath(AsLeader(after), r, o) ==> Ready(after.broker, r.user, r.vhost))
    decreases |es|
  {
    if es == [] {
      if TrackerTrue(h) {
        TrackerTrueMeansSafe(h);
      }
    } else {
      hide TrackerTrue;
      HappensKeepsTrackerTrue(h, es[0]);
      FastPathIsSafe(Happens(h, es[0]), es[1..], Unnoticed(unnoticed, es[0]), r, o);
    }
  }

  /** An unnoticed change leaves the tracker right exactly where it leaves what every current entry relies on. */
  lemma UnnoticedChangeIsHarmless(h: Host, others: Rabbit)
    ensures (forall r, o :: FastPath(AsLeader(Happens(h, Away(others))), r, o) ==> Ready(others, r.user, r.vhost)) <==>
            forall rid :: rid in h.tracker && !h.tracker[rid].stale ==>
                            Ready(others, h.tracker[rid].user, h.tracker[rid].vhost)
  {
    TrackerTrueMeansSafe(Happens(h, Away(others)));
  }

  /** A configured request is skipped after an unnoticed change, and is met exactly where the change meets it. */
  lemma UnnoticedChangeIsSkipped(h: Host, r: Request, o: Options, others: Rabbit)
    ensures var away := Happens(Happens(h, Configure(r, o)), Away(others));
            && Happens(away, Configure(r, o)) == away
            && (Satisfied(Happens(away, Configure(r, o)).broker, r, o) <==> Satisfied(others, r, o))
  {
    hide Pass, Satisfied;
  }

  /** After a noticed change no request is skipped, and the next pass brings everything back. */
  lemma NoticedChangeIsRepaired(h: Host, r: Request, o: Options)
    ensures var noticed := Happens(h, Noticed);
            && !FastPath(AsLeader(noticed), r, o)
            && (var again := Happens(noticed, Configure(r, o)).broker;
                Ready(again, r.user, r.vhost) && TagsMet(again, r) && (Satisfied(again, r, o) <==> !NameClash(r, o)))
  {
    hide Pass;
    PassDelivers(Site(h.broker, []), r, o);
  }

  const NEW_BROKER := Rabbit({}, map[], [], map[], true)
  const HEAT := Request("heat", "openstack", "amqp:1", false, "secret", Some("heat"), Some("heat.*"), Some("60"))
  const PLAIN := Options(false, "3600")

  /** For instance a configured broker that loses everything: the client's next request is skipped and nothing is there. */
  lemma UnnoticedChangeExample()
    ensures var run := [Configure(HEAT, PLAIN), Away(NEW_BROKER), Configure(HEAT, PLAIN)];
            var after := HappensAll(Host(NEW_BROKER, map[]), run);
            after.broker == NEW_BROKER && !Ready(after.broker, HEAT.user, HEAT.vhost) && !Satisfied(after.broker, HEAT, PLAIN)
  {
    hide Happens, Satisfied;
    var start := Host(NEW_BROKER, map[]);
    var a, b, c := Configure(HEAT, PLAIN), Away(NEW_BROKER), Configure(HEAT, PLAIN);
    UnnoticedChangeIsSkipped(start, HEAT, PLAIN, NEW_BROKER);
    ThreeHappen(start, a, b, c);
    AwayIs(Happens(start, a), NEW_BROKER);
    NothingIsReady();
  }

  lemma ThreeHappen(h: Host, a: Event, b: Event, c: Event)
    ensures HappensAll(h, [a, b, c]) == Happens(Happens(Happens(h, a), b), c)
  {
    hide Happens;
    var x, y := Happens(h, a), Happens(Happens(h, a), b);
    assert [a, b, c][1..] == [b, c] && [b, c][1..] == [c] && [c][1..] == [];
    assert HappensAll(y, [c]) == HappensAll(Happens(y, c), []) == Happens(y, c);
    assert HappensAll(x, [b, c]) == HappensAll(y, [c]);
  }

  lemma AwayIs(h: Host, others: Rabbit)
    ensures Happens(h, Away(others)).broker == others
  {
  }

  lemma NothingIsReady()
    ensures !Ready(NEW_BROKER, HEAT.user, HEAT.vhost) && !Satisfied(NEW_BROKER, HEAT, PLAIN)
  {
  }

  // ----- what the tracker does not remember -----

  /** The last policy set under a name. */
  function LastUnder(settings: seq<Setting>, id: PolicyId): Option<Policy> {
    if settings == [] then None
    else
      var later := LastUnder(settings[1..], id);
      if later.Some? then later else if settings[0].id == id then Some(settings[0].policy) else None
  }

  /** A broker that is brought to `settings` has the policy: it is the last under its name, or was there and is left alone. */
  predicate LeftInPlace(b: Rabbit, settings: seq<Setting>, p: Setting) {
    match LastUnder(settings, p.id)
    case Some(policy) => policy == p.policy
    case None => PolicyMet(b, p)
  }

  lemma {:induction false} OverlaidLookup(ps: map<PolicyId, Policy>, settings: seq<Setting>, id: PolicyId)
    ensures var after := Overlaid(ps, settings);
            && (LastUnder(settings, id).Some? ==> id in after && after[id] == LastUnder(settings, id).value)
            && (LastUnder(settings, id).None? ==> (id in after <==> id in ps) && (id in ps ==> after[id] == ps[id]))
    decreases |settings|
  {
    if settings != [] {
      OverlaidLookup(ps[settings[0].id := settings[0].policy], settings[1..], id);
    }
  }

  /** The second request differs from the first only in what is not tracked. */
  predicate TrackedAlike(r: Request, o: Options, r2: Request, o2: Options) {
    r2.relation == r.relation && r2.user == r.user && r2.vhost == r.vhost && r2.ttl == r.ttl && o2.mirroring == o.mirroring
  }

  /**
   Of a request only the user, the virtual host, the TTL and mirroring are tracked: a second one that differs in
   anything else is skipped. Its tags are then in place exactly where `admin` has not changed, and its policies
   exactly where each of them is the one that the first request left under its name.
   */
  lemma UntrackedChangeIsMissed(l: Leader, r: Request, o: Options, r2: Request, o2: Options)
    requires !FastPath(l, r, o) && TrackedAlike(r, o, r2, o2)
    ensures var first := Configured(l, r, o);
            var second := Configured(first, r2, o2);
            && second == first
            && Ready(second.site.broker, r2.user, r2.vhost)
            && (TagsMet(second.site.broker, r2) <==> r2.admin == r.admin)
            && (PoliciesMet(second.site.broker, Settings(r2, o2)) <==>
                  forall p :: p in Settings(r2, o2) ==> LeftInPlace(l.site.broker, Settings(r, o), p))
  {
    hide Pass, Settings;
    PassDelivers(l.site, r, o);
    PassChanges(l.site, r, o);
    assert "administrator" in Tags(r) <==> r.admin;
    forall p | p in Settings(r2, o2)
      ensures PolicyMet(Pass(l.site, r, o).broker, p) <==> LeftInPlace(l.site.broker, Settings(r, o), p)
    {
      OverlaidLookup(l.site.broker.policies, Settings(r, o), p.id);
    }
  }

  lemma NotUnder(r: Request, o: Options, id: PolicyId)
    requires HasClientTtl(r) && id.name !in {"TTL", "HA", r.ttlname.value}
    ensures LastUnder(Settings(r, o), id).None?
  {
    NoneUnder(Settings(r, o), id);
  }

  lemma {:induction false} NoneUnder(settings: seq<Setting>, id: PolicyId)
    requires forall p :: p in settings ==> p.id != id
    ensures LastUnder(settings, id).None?
  {
    if settings != [] {
      assert settings[0] in settings && forall p :: p in settings[1..] ==> p in settings;
      NoneUnder(settings[1..], id);
    }
  }

  /** For instance a policy that is only renamed, to a name not in use: nothing is done, and no policy has the new name. */
  lemma RenamedPolicyIsMissed(l: Leader, r: Request, o: Options, name: string)
    requires !FastPath(l, r, o) && r.vhost == "openstack" && HasClientTtl(r)
    requires name !in {"", "TTL", "HA", r.ttlname.value} && PolicyId(r.vhost, name) !in l.site.broker.policies
    ensures var first, renamed := Configured(l, r, o), r.(ttlname := Some(name));
            && Configured(first, renamed, o) == first
            && PolicyId(r.vhost, name) !in first.site.broker.policies
            && ClientSetting(renamed) in Settings(renamed, o)
  {
    hide Pass, LastUnder;
    var renamed := r.(ttlname := Some(name));
    UntrackedChangeIsMissed(l, r, o, renamed, o);
    PassChanges(l.site, r, o);
    NotUnder(r, o, PolicyId(r.vhost, name));
    OverlaidLookup(l.site.broker.policies, Settings(r, o), PolicyId(r.vhost, name));
    assert ClientSetting(renamed) in EarlySettings(renamed, o);
  }

  /** A new broker, configured for a policy named "heat" and then asked for the same one as "heats". */
  lemma RenamedPolicyExample()
    ensures var start := Leader(Site(NEW_BROKER, []), map[]);
            var after := Configured(Configured(start, HEAT, PLAIN), HEAT.(ttlname := Some("heats")), PLAIN);
            PolicyId("openstack", "heats") !in after.site.broker.policies
  {
    hide Configured;
    assert |"heat"| == 4 && |"heats"| == 5;
    RenamedPolicyIsMissed(Leader(Site(NEW_BROKER, []), map[]), HEAT, PLAIN, "heats");
  }

  /** A client that names its policy "TTL": the second pass issues commands again. */
  lemma NameClashExample()
    ensures var clash := HEAT.(ttlname := Some("TTL"));
            var once := Pass(Site(NEW_BROKER, []), clash, PLAIN);
            NameClash(clash, PLAIN) && Pass(once, clash, PLAIN).log != once.log
  {
    hide Pass;
    SecondPassIsSilent(Site(NEW_BROKER, []), HEAT.(ttlname := Some("TTL")), PLAIN);
  }
}
