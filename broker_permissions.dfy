// Groups, services and the capability list of charms_ceph/broker.py.
// A group ("cephx.groups.<name>") lists pools and the services that use
// them; a service ("cephx.services.<name>") maps each permission to the
// groups it holds that permission on. Both live in the monitors' key store.

module BrokerPermissions {
  import opened Wrappers
  import opened Sorting
  import opened BrokerRequests

  datatype Group = Group(pools: seq<string>, services: seq<string>)

  /** A service record: group_names as a dict (keys in insertion order,
      distinct), the groups dict that is rebuilt on every read, and the
      optional object_prefix_perms value as the client sent it. */
  datatype Service = Service(
    groupNames: seq<(string, seq<string>)>,
    groups: map<string, Group>,
    prefixPerms: Option<Json>)

  /** A stored key: absent, unparsable or falsy JSON all read as no value. */
  datatype Stored<T> = Unreadable | Value(v: T)

  /** The key store keeps a group under "cephx.groups.<name>" and a service
      under "cephx.services.<name>". The model keeps one map per prefix,
      indexed by the name; StoreKeysDistinct shows that nothing is lost. */
  function GroupKey(name: string): string {
    "cephx.groups." + name
  }

  function ServiceKey(name: string): string {
    "cephx.services." + name
  }

  /** Distinct names give distinct keys, and no group key is a service key. */
  lemma StoreKeysDistinct(a: string, b: string)
    ensures GroupKey(a) == GroupKey(b) ==> a == b
    ensures ServiceKey(a) == ServiceKey(b) ==> a == b
    ensures GroupKey(a) != ServiceKey(b)
  {
    if GroupKey(a) == GroupKey(b) {
      assert a == GroupKey(a)[13..];
      assert b == GroupKey(b)[13..];
    }
    if ServiceKey(a) == ServiceKey(b) {
      assert a == ServiceKey(a)[15..];
      assert b == ServiceKey(b)[15..];
    }
    assert GroupKey(a)[6] == 'g' && ServiceKey(b)[6] == 's';
  }

  /** "{namespace}-{group}" when the namespace is truthy, else the group. */
  function NamespacedName(namespace: Json, group: string): (n: string)
    ensures Truthy(namespace) ==> n == Str(namespace) + "-" + group
    ensures !Truthy(namespace) ==> n == group
  {
    if Truthy(namespace) then Str(namespace) + "-" + group else group
  }

  function EmptyGroup(): Group {
    Group([], [])
  }

  function EmptyService(): Service {
    Service([], map[], None)
  }

  /** get_group: the stored group, or an empty one. */
  function GetGroup(store: map<string, Stored<Group>>, name: string): (g: Group)
    ensures name in store && store[name].Value? ==> g == store[name].v
    ensures !(name in store && store[name].Value?) ==> g == Group([], [])
  {
    if name in store && store[name].Value? then store[name].v else EmptyGroup()
  }

  /** Whether some permission of the service lists the group. */
  predicate Listed(groupNames: seq<(string, seq<string>)>, g: string) {
    exists e :: e in groupNames && g in e.1
  }

  /** _build_service_groups: each named group, keyed by the name as listed,
      read from the store under the namespaced name, permission by
      permission. */
  function BuildServiceGroups(groupNames: seq<(string, seq<string>)>, namespace: Json,
                              store: map<string, Stored<Group>>): map<string, Group>
  {
    if groupNames == [] then map[]
    else
      var last := groupNames[|groupNames| - 1];
      BuildServiceGroups(groupNames[..|groupNames| - 1], namespace, store) + ReadGroups(last.1, namespace, store)
  }

  /** The inner loop of _build_service_groups over one permission's groups. */
  function ReadGroups(names: seq<string>, namespace: Json, store: map<string, Stored<Group>>): map<string, Group>
  {
    if names == [] then map[]
    else
      var last := names[|names| - 1];
      ReadGroups(names[..|names| - 1], namespace, store)[last := GetGroup(store, NamespacedName(namespace, last))]
  }

  lemma {:induction false} ReadGroupsReads(names: seq<string>, namespace: Json, store: map<string, Stored<Group>>)
    ensures var all := ReadGroups(names, namespace, store);
            (forall g :: g in all <==> g in names)
            && forall g :: g in all ==> all[g] == GetGroup(store, NamespacedName(namespace, g))
  {
    if names != [] {
      ReadGroupsReads(names[..|names| - 1], namespace, store);
      assert names == names[..|names| - 1] + [names[|names| - 1]];
    }
  }

  /** get_service_groups: the stored service with its groups rebuilt, or
      an empty service. */
  function GetServiceGroups(services: map<string, Stored<Service>>, groups: map<string, Stored<Group>>,
                            name: string, namespace: Json): Service
  {
    if name in services && services[name].Value? then
      var stored := services[name].v;
      stored.(groups := BuildServiceGroups(stored.groupNames, namespace, groups))
    else EmptyService()
  }

  /** Each listed group is read under its namespaced name, and nothing else
      is read. */
  lemma {:induction false} BuildServiceGroupsReads(groupNames: seq<(string, seq<string>)>, namespace: Json,
                                                   store: map<string, Stored<Group>>)
    ensures var all := BuildServiceGroups(groupNames, namespace, store);
            (forall g :: g in all <==> Listed(groupNames, g))
            && forall g :: g in all ==> all[g] == GetGroup(store, NamespacedName(namespace, g))
  {
    if groupNames != [] {
      var init := groupNames[..|groupNames| - 1];
      var last := groupNames[|groupNames| - 1];
      BuildServiceGroupsReads(init, namespace, store);
      ReadGroupsReads(last.1, namespace, store);
      assert groupNames == init + [last];
      forall g | Listed(groupNames, g) ensures Listed(init, g) || g in last.1 {
        var e :| e in groupNames && g in e.1;
        if e != last {
          assert e in init;
        }
      }
    }
  }

  /** get_service_groups yields {'group_names': {}, 'groups': {}} when nothing
      readable is stored, and otherwise the stored record with every listed
      group rebuilt. */
  lemma GetServiceGroupsDefaults(services: map<string, Stored<Service>>, groups: map<string, Stored<Group>>,
                                 name: string, namespace: Json)
    ensures var s := GetServiceGroups(services, groups, name, namespace);
            (!(name in services && services[name].Value?) ==> s == Service([], map[], None))
            && (name in services && services[name].Value? ==>
                  var stored := services[name].v;
                  s.groupNames == stored.groupNames && s.prefixPerms == stored.prefixPerms
                  && forall g :: g in s.groups <==> Listed(stored.groupNames, g))
  {
    if name in services && services[name].Value? {
      BuildServiceGroupsReads(services[name].v.groupNames, namespace, groups);
    }
  }

  // ------------------------------------------------------------ dict helpers

  /** d.get(k) */
  function Lookup<V>(d: seq<(string, V)>, k: string): Option<V> {
    if d == [] then None
    else if d[|d| - 1].0 == k then Some(d[|d| - 1].1)
    else Lookup(d[..|d| - 1], k)
  }

  /** The lookup misses exactly when no entry has the key, and a hit is an
      entry of the dict. */
  lemma {:induction false} LookupFinds<V>(d: seq<(string, V)>, k: string)
    ensures Lookup(d, k).None? <==> forall i :: 0 <= i < |d| ==> d[i].0 != k
    ensures Lookup(d, k).Some? ==> (k, Lookup(d, k).value) in d
  {
    if d != [] && d[|d| - 1].0 != k {
      LookupFinds(d[..|d| - 1], k);
      assert forall i :: 0 <= i < |d| - 1 ==> d[..|d| - 1][i] == d[i];
    }
  }

  predicate DistinctKeys<V>(d: seq<(string, V)>) {
    forall i, j :: 0 <= i < j < |d| ==> d[i].0 != d[j].0
  }

  /** d[k] = v: replaced in place when present, appended otherwise. */
  function Put<V>(d: seq<(string, V)>, k: string, v: V): seq<(string, V)> {
    if d == [] then [(k, v)]
    else if d[0].0 == k then [(k, v)] + d[1..]
    else [d[0]] + Put(d[1..], k, v)
  }

  /** After d[k] = v the dict holds (k, v), every entry for another key, and
      nothing else, and it grows by at most one entry. */
  lemma {:induction false} PutSets<V>(d: seq<(string, V)>, k: string, v: V)
    ensures var r := Put(d, k, v);
            (forall i :: 0 <= i < |d| && d[i].0 != k ==> d[i] in r)
            && (k, v) in r
            && (forall e :: e in r ==> e in d || e == (k, v))
            && (|r| == |d| || |r| == |d| + 1)
  {
    if d != [] && d[0].0 != k {
      PutSets(d[1..], k, v);
      var r := Put(d, k, v);
      assert r == [d[0]] + Put(d[1..], k, v);
      forall i | 0 <= i < |d| && d[i].0 != k ensures d[i] in r {
        if i > 0 {
          assert d[i] == d[1..][i - 1];
        }
      }
      forall e | e in r ensures e in d || e == (k, v) {
        if e != d[0] {
          assert e in Put(d[1..], k, v);
        }
      }
    }
  }

  function KeyOf<V>(p: (string, V)): string {
    p.0
  }

  // ------------------------------------------------------- capability list

  datatype Grant = PoolGrant(perm: string, pool: string) | PrefixGrant(perm: string, prefix: string)

  function Render(g: Grant): string {
    match g
    case PoolGrant(perm, pool) => "allow " + perm + " pool=" + pool
    case PrefixGrant(perm, prefix) => "allow " + perm + " object_prefix " + prefix
  }

  function Rendered(gs: seq<Grant>): (r: seq<string>)
    ensures |r| == |gs|
    ensures forall i :: 0 <= i < |gs| ==> r[i] == Render(gs[i])
  {
    if gs == [] then [] else Rendered(gs[..|gs| - 1]) + [Render(gs[|gs| - 1])]
  }

  /** One grant per pool of a group, in the group's pool order. */
  function PoolGrants(perm: string, pools: seq<string>): (r: seq<Grant>)
    ensures |r| == |pools|
    ensures forall i :: 0 <= i < |pools| ==> r[i] == PoolGrant(perm, pools[i])
  {
    if pools == [] then [] else PoolGrants(perm, pools[..|pools| - 1]) + [PoolGrant(perm, pools[|pools| - 1])]
  }

  /** The grants of one permission over its groups, in group order; None
      when a group is missing from the service's groups (a KeyError). */
  function GroupGrants(perm: string, names: seq<string>, groups: map<string, Group>): Option<seq<Grant>> {
    if names == [] then Some([])
    else
      var last := names[|names| - 1];
      match GroupGrants(perm, names[..|names| - 1], groups)
      case None => None
      case Some(gs) => if last in groups then Some(gs + PoolGrants(perm, groups[last].pools)) else None
  }

  /** The pool grants of every permission, in the given permission order. */
  function PermGrants(perms: seq<(string, seq<string>)>, groups: map<string, Group>): Option<seq<Grant>> {
    if perms == [] then Some([])
    else
      var last := perms[|perms| - 1];
      match PermGrants(perms[..|perms| - 1], groups)
      case None => None
      case Some(gs) =>
        match GroupGrants(last.0, last.1, groups)
        case None => None
        case Some(more) => Some(gs + more)
  }

  /** Iterating a JSON value as Python does and formatting each item. */
  function Texts(v: Json): Option<seq<string>> {
    match OpItems(v)
    case None => None
    case Some(items) => Some(seq(|items|, k requires 0 <= k < |items| => Str(items[k])))
  }

  /** object_prefix_perms as (permission, prefixes) pairs; None when it is
      not a dict whose values can be iterated. */
  function PrefixTable(pp: Option<Json>): Option<seq<(string, seq<string>)>> {
    match pp
    case None => Some([])
    case Some(JObj(entries)) => PrefixEntries(entries)
    case Some(_) => None
  }

  function PrefixEntries(entries: seq<(string, Json)>): Option<seq<(string, seq<string>)>> {
    if entries == [] then Some([])
    else
      var last := entries[|entries| - 1];
      match PrefixEntries(entries[..|entries| - 1])
      case None => None
      case Some(t) =>
        match Texts(last.1)
        case None => None
        case Some(prefixes) => Some(Put(t, last.0, prefixes))
  }

  function PrefixGrants(table: seq<(string, seq<string>)>): seq<Grant> {
    if table == [] then []
    else
      var last := table[|table| - 1];
      PrefixGrants(table[..|table| - 1]) + ObjectGrants(last.0, last.1)
  }

  /** One grant per object prefix of a permission, in the listed order. */
  function ObjectGrants(perm: string, prefixes: seq<string>): (r: seq<Grant>)
    ensures |r| == |prefixes|
    ensures forall i :: 0 <= i < |prefixes| ==> r[i] == PrefixGrant(perm, prefixes[i])
  {
    if prefixes == [] then []
    else ObjectGrants(perm, prefixes[..|prefixes| - 1]) + [PrefixGrant(perm, prefixes[|prefixes| - 1])]
  }

  /** Every grant of a service, in the order pool_permission_list_for_service
      emits them; None when the source raises. */
  function ServiceGrants(service: Service): Option<seq<Grant>> {
    match PermGrants(SortBy(service.groupNames, KeyOf), service.groups)
    case None => None
    case Some(pools) =>
      match PrefixTable(service.prefixPerms)
      case None => None
      case Some(table) => Some(pools + PrefixGrants(SortBy(table, KeyOf)))
  }

  const MonCaps := "allow r, allow command \"osd blacklist\""

  /** The caps list handed to `ceph auth caps`. */
  function CapsList(grants: seq<Grant>): (caps: seq<string>)
    ensures |caps| == 4 && caps[0] == "mon" && caps[1] == MonCaps && caps[2] == "osd"
  {
    ["mon", MonCaps, "osd", Text.Join(", ", Rendered(grants))]
  }

  /** pool_permission_list_for_service: nested loops over the sorted
      permissions, their groups and the groups' pools, then over the sorted
      object-prefix permissions. */
  method PoolPermissionListForService(service: Service) returns (r: Result<seq<string>, string>)
    ensures ServiceGrants(service).Some? ==> r == Ok(CapsList(ServiceGrants(service).value))
    ensures ServiceGrants(service).None? ==> r.Err?
  {
    var pools := PoolLines(SortBy(service.groupNames, KeyOf), service.groups);
    if pools.None? {
      return Err("KeyError");
    }
    var table := PrefixTable(service.prefixPerms);
    if table.None? {
      return Err("AttributeError: object_prefix_perms");
    }
    var prefixes := PrefixLines(SortBy(table.value, KeyOf));
    RenderedAppend(PermGrants(SortBy(service.groupNames, KeyOf), service.groups).value,
                   PrefixGrants(SortBy(table.value, KeyOf)));
    r := Ok(["mon", MonCaps, "osd", Text.Join(", ", pools.value + prefixes)]);
  }

  lemma {:induction false} RenderedAppend(a: seq<Grant>, b: seq<Grant>)
    ensures Rendered(a + b) == Rendered(a) + Rendered(b)
  {
    var l, r := Rendered(a + b), Rendered(a) + Rendered(b);
    assert |l| == |r|;
    forall i | 0 <= i < |l| ensures l[i] == r[i] {
      if i < |a| {
        assert (a + b)[i] == a[i];
      } else {
        assert (a + b)[i] == b[i - |a|];
      }
    }
  }

  /** The pool part of the loops: one line per pool of each group of each
      permission, in that order. */
  method PoolLines(perms: seq<(string, seq<string>)>, groups: map<string, Group>) returns (lines: Option<seq<string>>)
    ensures PermGrants(perms, groups).Some? ==> lines == Some(Rendered(PermGrants(perms, groups).value))
    ensures PermGrants(perms, groups).None? ==> lines.None?
  {
    var permissions: seq<string> := [];
    ghost var gs: seq<Grant> := [];
    var i := 0;
    while i < |perms|
      invariant 0 <= i <= |perms|
      invariant PermGrants(perms[..i], groups) == Some(gs)
      invariant permissions == Rendered(gs)
    {
      assert perms[..i + 1][..i] == perms[..i];
      var more := GroupsLines(perms[i].0, perms[i].1, groups);
      if more.None? {
        PermGrantsMissing(perms, groups, i);
        return None;
      }
      RenderedAppend(gs, GroupGrants(perms[i].0, perms[i].1, groups).value);
      permissions := permissions + more.value;
      gs := gs + GroupGrants(perms[i].0, perms[i].1, groups).value;
      i := i + 1;
    }
    assert perms[..i] == perms;
    lines := Some(permissions);
  }

  /** The middle loop: the lines of one permission, group by group. */
  method GroupsLines(permission: string, names: seq<string>, groups: map<string, Group>)
    returns (lines: Option<seq<string>>)
    ensures GroupGrants(permission, names, groups).Some? ==>
              lines == Some(Rendered(GroupGrants(permission, names, groups).value))
    ensures GroupGrants(permission, names, groups).None? ==> lines.None?
  {
    var permissions: seq<string> := [];
    var j := 0;
    while j < |names|
      invariant 0 <= j <= |names|
      invariant GroupGrants(permission, names[..j], groups).Some?
      invariant permissions == Rendered(GroupGrants(permission, names[..j], groups).value)
    {
      assert names[..j + 1][..j] == names[..j];
      if names[j] !in groups {
        GroupGrantsMissing(permission, names, groups, j);
        return None;
      }
      var more := GroupLines(permission, groups[names[j]].pools);
      RenderedAppend(GroupGrants(permission, names[..j], groups).value, PoolGrants(permission, groups[names[j]].pools));
      permissions := permissions + more;
      j := j + 1;
    }
    assert names[..j] == names;
    lines := Some(permissions);
  }

  /** The innermost loop: one line per pool. */
  method GroupLines(permission: string, pools: seq<string>) returns (lines: seq<string>)
    ensures lines == Rendered(PoolGrants(permission, pools))
  {
    lines := [];
    var k := 0;
    while k < |pools|
      invariant 0 <= k <= |pools|
      invariant lines == Rendered(PoolGrants(permission, pools[..k]))
    {
      assert pools[..k + 1][..k] == pools[..k];
      lines := lines + ["allow " + permission + " pool=" + pools[k]];
      k := k + 1;
    }
    assert pools[..k] == pools;
  }

  lemma {:induction false} GroupGrantsMissing(p: string, names: seq<string>, groups: map<string, Group>, j: nat)
    requires j < |names| && names[j] !in groups
    ensures GroupGrants(p, names, groups).None?
  {
    GroupGrantsDefined(p, names, groups);
  }

  lemma {:induction false} PermGrantsMissing(perms: seq<(string, seq<string>)>, groups: map<string, Group>, i: nat)
    requires i < |perms| && GroupGrants(perms[i].0, perms[i].1, groups).None?
    ensures PermGrants(perms, groups).None?
  {
    PermGrantsDefined(perms, groups);
    GroupGrantsDefined(perms[i].0, perms[i].1, groups);
  }

  /** The object-prefix part of the loops. */
  method PrefixLines(table: seq<(string, seq<string>)>) returns (lines: seq<string>)
    ensures lines == Rendered(PrefixGrants(table))
  {
    lines := [];
    var i := 0;
    while i < |table|
      invariant 0 <= i <= |table|
      invariant lines == Rendered(PrefixGrants(table[..i]))
    {
      var (permission, prefixes) := table[i];
      assert table[..i + 1][..i] == table[..i];
      var more := ObjectLines(permission, prefixes);
      RenderedAppend(PrefixGrants(table[..i]), ObjectGrants(permission, prefixes));
      lines := lines + more;
      i := i + 1;
    }
    assert table[..i] == table;
  }

  /** The inner object-prefix loop: one line per prefix. */
  method ObjectLines(permission: string, prefixes: seq<string>) returns (lines: seq<string>)
    ensures lines == Rendered(ObjectGrants(permission, prefixes))
  {
    lines := [];
    var k := 0;
    while k < |prefixes|
      invariant 0 <= k <= |prefixes|
      invariant lines == Rendered(ObjectGrants(permission, prefixes[..k]))
    {
      assert prefixes[..k + 1][..k] == prefixes[..k];
      lines := lines + ["allow " + permission + " object_prefix " + prefixes[k]];
      k := k + 1;
    }
    assert prefixes[..k] == prefixes;
  }

  // ------------------------------------------------------------- properties

  /** Every pool grant names one of the listed permissions. */
  lemma {:induction false} PermGrantsPerms(perms: seq<(string, seq<string>)>, groups: map<string, Group>)
    requires PermGrants(perms, groups).Some?
    ensures forall g :: g in PermGrants(perms, groups).value ==>
              g.PoolGrant? && exists i :: 0 <= i < |perms| && perms[i].0 == g.perm
  {
    if perms != [] {
      var init := perms[..|perms| - 1];
      PermGrantsPerms(init, groups);
      GroupGrantsPerm(perms[|perms| - 1].0, perms[|perms| - 1].1, groups);
      forall g | g in PermGrants(perms, groups).value
        ensures g.PoolGrant? && exists i :: 0 <= i < |perms| && perms[i].0 == g.perm
      {
        if g in PermGrants(init, groups).value {
          var i :| 0 <= i < |init| && init[i].0 == g.perm;
          assert perms[i].0 == g.perm;
        } else {
          assert perms[|perms| - 1].0 == g.perm;
        }
      }
    }
  }

  lemma {:induction false} GroupGrantsPerm(perm: string, names: seq<string>, groups: map<string, Group>)
    requires GroupGrants(perm, names, groups).Some?
    ensures forall g :: g in GroupGrants(perm, names, groups).value ==> g.PoolGrant? && g.perm == perm
  {
    if names != [] {
      GroupGrantsPerm(perm, names[..|names| - 1], groups);
    }
  }

  predicate PermsSorted(gs: seq<Grant>) {
    forall i, j :: 0 <= i < j < |gs| ==> LexLe(gs[i].perm, gs[j].perm)
  }

  /** Pool grants come out ordered by permission when the permissions are. */
  lemma {:induction false} PermGrantsSorted(perms: seq<(string, seq<string>)>, groups: map<string, Group>)
    requires SortedBy(perms, KeyOf)
    requires PermGrants(perms, groups).Some?
    ensures PermsSorted(PermGrants(perms, groups).value)
  {
    if perms != [] {
      var init := perms[..|perms| - 1];
      var last := perms[|perms| - 1];
      assert SortedBy(init, KeyOf);
      PermGrantsSorted(init, groups);
      PermGrantsPerms(init, groups);
      GroupGrantsPerm(last.0, last.1, groups);
      var a := PermGrants(init, groups).value;
      var b := GroupGrants(last.0, last.1, groups).value;
      var gs := a + b;
      forall i, j | 0 <= i < j < |gs| ensures LexLe(gs[i].perm, gs[j].perm) {
        if j < |a| {
        } else if i >= |a| {
          assert gs[i] in b && gs[j] in b;
          LexIrreflexive(last.0);
        } else {
          assert gs[i] in a && gs[j] in b;
          var k :| 0 <= k < |init| && init[k].0 == gs[i].perm;
          assert KeyOf(perms[k]) == gs[i].perm;
          assert KeyOf(perms[|perms| - 1]) == gs[j].perm;
        }
      }
    }
  }

  /** Whether permission `perm` on pool `pool` is granted through one of the
      listed groups. */
  predicate GrantedThrough(perms: seq<(string, seq<string>)>, groups: map<string, Group>,
                           perm: string, pool: string)
  {
    exists i, j :: 0 <= i < |perms| && 0 <= j < |perms[i].1| && perms[i].0 == perm
                   && perms[i].1[j] in groups && pool in groups[perms[i].1[j]].pools
  }

  /** Exactly the (permission, pool) pairs reachable through the groups are
      granted. */
  lemma {:induction false} PermGrantsComplete(perms: seq<(string, seq<string>)>, groups: map<string, Group>,
                                              perm: string, pool: string)
    requires PermGrants(perms, groups).Some?
    ensures PoolGrant(perm, pool) in PermGrants(perms, groups).value <==> GrantedThrough(perms, groups, perm, pool)
  {
    if perms != [] {
      var init := perms[..|perms| - 1];
      var last := perms[|perms| - 1];
      PermGrantsComplete(init, groups, perm, pool);
      GroupGrantsComplete(last.0, last.1, groups, perm, pool);
      if GrantedThrough(perms, groups, perm, pool) {
        var i, j :| 0 <= i < |perms| && 0 <= j < |perms[i].1| && perms[i].0 == perm
                    && perms[i].1[j] in groups && pool in groups[perms[i].1[j]].pools;
        if i < |init| {
          assert init[i] == perms[i];
        }
      }
      if GrantedThrough(init, groups, perm, pool) {
        var i, j :| 0 <= i < |init| && 0 <= j < |init[i].1| && init[i].0 == perm
                    && init[i].1[j] in groups && pool in groups[init[i].1[j]].pools;
        assert perms[i] == init[i];
      }
    }
  }

  lemma {:induction false} GroupGrantsComplete(p: string, names: seq<string>, groups: map<string, Group>,
                                               perm: string, pool: string)
    requires GroupGrants(p, names, groups).Some?
    ensures PoolGrant(perm, pool) in GroupGrants(p, names, groups).value <==>
              p == perm && exists j :: 0 <= j < |names| && names[j] in groups && pool in groups[names[j]].pools
  {
    if names != [] {
      var init := names[..|names| - 1];
      GroupGrantsComplete(p, init, groups, perm, pool);
      var last := names[|names| - 1];
      var more := PoolGrants(p, groups[last].pools);
      if PoolGrant(perm, pool) in more {
        var k :| 0 <= k < |more| && more[k] == PoolGrant(perm, pool);
        assert names[|names| - 1] in groups && pool in groups[names[|names| - 1]].pools;
      }
      if p == perm && exists j :: 0 <= j < |names| && names[j] in groups && pool in groups[names[j]].pools {
        var j :| 0 <= j < |names| && names[j] in groups && pool in groups[names[j]].pools;
        if j < |init| {
          assert init[j] == names[j];
        } else {
          var k :| 0 <= k < |groups[last].pools| && groups[last].pools[k] == pool;
          assert more[k] == PoolGrant(perm, pool);
        }
      }
    }
  }

  /** The list fails exactly when some listed group is not among the
      service's groups. */
  lemma {:induction false} PermGrantsDefined(perms: seq<(string, seq<string>)>, groups: map<string, Group>)
    ensures PermGrants(perms, groups).Some? <==>
              forall i, j :: 0 <= i < |perms| && 0 <= j < |perms[i].1| ==> perms[i].1[j] in groups
  {
    if perms != [] {
      var init := perms[..|perms| - 1];
      var last := perms[|perms| - 1];
      PermGrantsDefined(init, groups);
      GroupGrantsDefined(last.0, last.1, groups);
      if forall i, j :: 0 <= i < |perms| && 0 <= j < |perms[i].1| ==> perms[i].1[j] in groups {
        forall i, j | 0 <= i < |init| && 0 <= j < |init[i].1| ensures init[i].1[j] in groups {
          assert init[i] == perms[i];
        }
      }
    }
  }

  lemma {:induction false} GroupGrantsDefined(p: string, names: seq<string>, groups: map<string, Group>)
    ensures GroupGrants(p, names, groups).Some? <==> forall j :: 0 <= j < |names| ==> names[j] in groups
  {
    if names != [] {
      GroupGrantsDefined(p, names[..|names| - 1], groups);
    }
  }

  /** A service as rebuilt by get_service_groups never fails the KeyError
      lookup: every listed group is present. */
  lemma RebuiltGroupsCoverNames(groupNames: seq<(string, seq<string>)>, namespace: Json,
                                store: map<string, Stored<Group>>)
    ensures PermGrants(SortBy(groupNames, KeyOf), BuildServiceGroups(groupNames, namespace, store)).Some?
  {
    var sorted := SortBy(groupNames, KeyOf);
    var groups := BuildServiceGroups(groupNames, namespace, store);
    BuildServiceGroupsReads(groupNames, namespace, store);
    SortByKeeps(groupNames, KeyOf);
    forall i, j | 0 <= i < |sorted| && 0 <= j < |sorted[i].1| ensures sorted[i].1[j] in groups {
      assert sorted[i] in groupNames;
      assert sorted[i].1[j] in sorted[i].1;
      assert Listed(groupNames, sorted[i].1[j]);
    }
    PermGrantsDefined(sorted, groups);
  }

  /** The pool grants of a service are ordered by permission name. */
  lemma ServicePoolGrantsSorted(service: Service)
    requires PermGrants(SortBy(service.groupNames, KeyOf), service.groups).Some?
    ensures PermsSorted(PermGrants(SortBy(service.groupNames, KeyOf), service.groups).value)
  {
    SortBySorted(service.groupNames, KeyOf);
    PermGrantsSorted(SortBy(service.groupNames, KeyOf), service.groups);
  }

  /** Object-prefix grants follow every pool grant. */
  lemma PrefixGrantsLast(service: Service)
    requires ServiceGrants(service).Some?
    ensures var gs := ServiceGrants(service).value;
            forall i, j :: 0 <= i < j < |gs| && gs[i].PrefixGrant? ==> gs[j].PrefixGrant?
  {
    var pools := PermGrants(SortBy(service.groupNames, KeyOf), service.groups).value;
    PermGrantsPerms(SortBy(service.groupNames, KeyOf), service.groups);
    var table := SortBy(PrefixTable(service.prefixPerms).value, KeyOf);
    PrefixGrantsAllPrefix(table);
    var gs := ServiceGrants(service).value;
    assert gs == pools + PrefixGrants(table);
    assert forall k :: 0 <= k < |pools| ==> gs[k] == pools[k] && gs[k] in pools;
    forall i, j | 0 <= i < j < |gs| && gs[i].PrefixGrant? ensures gs[j].PrefixGrant? {
      assert gs[j] == PrefixGrants(table)[j - |pools|];
    }
  }

  lemma {:induction false} PrefixGrantsAllPrefix(table: seq<(string, seq<string>)>)
    ensures forall g :: g in PrefixGrants(table) ==> g.PrefixGrant?
  {
    if table != [] {
      PrefixGrantsAllPrefix(table[..|table| - 1]);
    }
  }
}
