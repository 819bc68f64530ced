// The request broker of charms_ceph/broker.py: process_requests and the
// handlers it dispatches to, acting on the monitors' admin key store (groups
// and services), the cluster's pools and erasure profiles, and the ceph
// commands it issues (recorded as effects).

module Broker {
  import opened Wrappers
  import opened BrokerRequests
  import opened BrokerPermissions

  /** A ceph command the broker issued. */
  datatype Effect =
    | ProfileCreated(name: string, failureDomain: Json)
    | PoolCreated(pool: string)
    | PoolUpdated(pool: string)
    | PoolValueSet(pool: string, key: string, value: Json)
    | CapsSet(client: string, caps: seq<string>)
    | OtherOp(op: string)

  const BucketTypes: seq<string> :=
    ["osd", "host", "chassis", "rack", "row", "pdu", "pod", "room", "datacenter", "region", "root"]

  /** str(CEPH_BUCKET_TYPES) */
  const BucketTypesText: string :=
    "['osd', 'host', 'chassis', 'rack', 'row', 'pdu', 'pod', 'room', 'datacenter', 'region', 'root']"

  /** The keys of POOL_KEYS. */
  const PoolKeys: set<string> := {
    "size", "min_size", "crash_replay_interval", "pgp_num", "crush_ruleset",
    "hashpspool", "nodelete", "nopgchange", "nosizechange", "write_fadvise_dontneed",
    "noscrub", "nodeep-scrub", "hit_set_type", "hit_set_count", "hit_set_period",
    "hit_set_fpp", "cache_target_dirty_ratio", "cache_target_dirty_high_ratio",
    "cache_target_full_ratio", "target_max_bytes", "target_max_objects",
    "cache_min_flush_age", "cache_min_evict_age", "fast_read", "allow_ec_overwrites",
    "compression_mode", "compression_algorithm", "compression_required_ratio", "crush_rule"}

  /** The ops process_requests_v1 dispatches. */
  const KnownOps: set<string> := {
    "create-pool", "create-cephfs", "create-cache-tier", "remove-cache-tier",
    "create-erasure-profile", "delete-pool", "rename-pool", "snapshot-pool",
    "remove-pool-snapshot", "set-pool-value", "rgw-region-set", "rgw-zone-set",
    "rgw-regionmap-update", "rgw-regionmap-default", "rgw-create-user",
    "move-osd-to-bucket", "add-permissions-to-key", "set-key-permissions"}

  predicate KnownOp(op: Json) {
    op.JStr? && op.s in KnownOps
  }

  /** failure-domain check: a truthy value outside CEPH_BUCKET_TYPES. */
  predicate BadFailureDomain(fd: Json) {
    Truthy(fd) && !(fd.JStr? && fd.s in BucketTypes)
  }

  function FailureDomainError(): (d: Response)
    ensures d == Failure("failure-domain must be one of " + BucketTypesText)
  {
    Failure("failure-domain must be one of " + BucketTypesText)
  }

  // ----------------------------------------------------------- pg_num cap

  /** An int (or bool) as Python arithmetic sees it. */
  function AsInt(v: Json): (r: Option<int>)
    ensures v.JInt? ==> r == Some(v.i)
    ensures !v.JInt? && !v.JBool? ==> r.None?
  {
    match v
    case JInt(i) => Some(i)
    case JBool(b) => Some(if b then 1 else 0)
    case _ => None
  }

  /** Python's a // b: rounds toward negative infinity. */
  function FloorDiv(a: int, b: int): (q: int)
    requires b != 0
    ensures b > 0 ==> q * b <= a < q * b + b
    ensures b < 0 ==> q * b >= a > q * b + b
  {
    if b > 0 then a / b else (-a) / (-b)
  }

  /** min(pg_num, len(osds) * 100 // replicas); exceptions as Err. */
  function CappedPgNum(pg: Json, osdCount: nat, replicas: Json): (r: Result<Json, string>)
    ensures r.Ok? ==> AsInt(replicas).Some? && AsInt(replicas).value != 0 && AsInt(pg).Some?
    ensures r.Ok? ==> var cap := FloorDiv(osdCount * 100, AsInt(replicas).value);
                      (AsInt(pg).value <= cap ==> r.value == pg)
                      && (cap < AsInt(pg).value ==> r.value == JInt(cap))
    ensures AsInt(replicas).Some? && AsInt(replicas).value != 0 && AsInt(pg).Some? ==> r.Ok?
  {
    match AsInt(replicas)
    case None => Err("TypeError: unsupported operand type for //")
    case Some(rep) =>
      if rep == 0 then Err("ZeroDivisionError: integer division or modulo by zero")
      else
        var cap := FloorDiv(osdCount * 100, rep);
        match AsInt(pg)
        case None => Err("TypeError: '<' not supported")
        case Some(p) => Ok(if cap < p then JInt(cap) else pg)
  }

  /** With positive replicas the capped pg_num never asks for more than 100
      placement groups per OSD across all replicas. */
  lemma CapBoundsPlacementGroups(pg: Json, osdCount: nat, replicas: Json)
    requires AsInt(replicas).Some? && AsInt(replicas).value > 0 && AsInt(pg).Some?
    ensures var r := CappedPgNum(pg, osdCount, replicas).value;
            AsInt(r).value <= AsInt(pg).value
            && AsInt(r).value * AsInt(replicas).value <= osdCount * 100
  {
  }

  /** The request handed to ReplicatedPool: pg_num capped when it is truthy
      and OSDs are known. */
  function ReplicatedRequest(req: Request, osds: seq<string>): Result<Request, string> {
    var pg := Get(req, "pg_num");
    if Truthy(pg) && |osds| > 0 then
      match CappedPgNum(pg, |osds|, Get(req, "replicas"))
      case Err(e) => Err(e)
      case Ok(c) => Ok(req["pg_num" := c])
    else Ok(req)
  }

  /** Without OSDs, or without a pg_num, the request goes through untouched. */
  lemma ReplicatedRequestUntouched(req: Request, osds: seq<string>)
    requires |osds| == 0 || !Truthy(Get(req, "pg_num"))
    ensures ReplicatedRequest(req, osds) == Ok(req)
  {
  }

  // ------------------------------------------------------------- groups

  /** The group after add_pool_to_group: the pool appended when absent. */
  function WithPool(g: Group, pool: string): (r: Group)
    ensures pool in r.pools && r.services == g.services
    ensures forall p :: p in r.pools <==> p in g.pools || p == pool
    ensures pool in g.pools ==> r == g
    ensures pool !in g.pools ==> r.pools == g.pools + [pool]
  {
    if pool in g.pools then g else g.(pools := g.pools + [pool])
  }

  /** The group after handle_add_permissions_to_key: the service appended
      when absent. */
  function WithService(g: Group, service: string): (r: Group)
    ensures service in r.services && r.pools == g.pools
    ensures forall s :: s in r.services <==> s in g.services || s == service
    ensures service in g.services ==> r == g
    ensures service !in g.services ==> r.services == g.services + [service]
  {
    if service in g.services then g else g.(services := g.services + [service])
  }

  predicate NoDuplicates(xs: seq<string>) {
    forall i, j :: 0 <= i < j < |xs| ==> xs[i] != xs[j]
  }

  /** The name appended to a list when absent (`if x not in l: l.append(x)`). */
  function AppendNew(xs: seq<string>, x: string): (r: seq<string>)
    ensures x in xs ==> r == xs
    ensures x !in xs ==> r == xs + [x]
  {
    if x in xs then xs else xs + [x]
  }

  /** Appending only absent names never creates a duplicate, and a second
      append of the same name changes nothing. */
  lemma AppendNewKeepsDistinct(xs: seq<string>, x: string)
    requires NoDuplicates(xs)
    ensures NoDuplicates(AppendNew(xs, x))
    ensures AppendNew(AppendNew(xs, x), x) == AppendNew(xs, x)
    ensures multiset(AppendNew(xs, x))[x] == 1
  {
    if x !in xs {
      assert multiset(xs)[x] == 0;
      assert multiset(xs + [x]) == multiset(xs) + multiset{x};
    } else {
      var k :| 0 <= k < |xs| && xs[k] == x;
      DistinctCountsOnce(xs, k);
    }
  }

  lemma {:induction false} DistinctCountsOnce(xs: seq<string>, k: nat)
    requires NoDuplicates(xs) && k < |xs|
    ensures multiset(xs)[xs[k]] == 1
  {
    var init := xs[..|xs| - 1];
    assert xs == init + [xs[|xs| - 1]];
    assert NoDuplicates(init);
    if k == |xs| - 1 {
      assert xs[k] !in init;
      assert multiset(init)[xs[k]] == 0;
    } else {
      DistinctCountsOnce(init, k);
      assert init[k] == xs[k];
    }
  }

  /** group_names after handle_add_permissions_to_key. */
  function WithGroupName(groupNames: seq<(string, seq<string>)>, permission: string, group: string)
    : seq<(string, seq<string>)>
  {
    var current := Lookup(groupNames, permission).GetOr([]);
    Put(groupNames, permission, AppendNew(current, group))
  }

  /** Afterwards the permission lists the group (appended to its old list
      when missing), every other permission keeps its list, and no other
      entry appears. */
  lemma WithGroupNameLists(groupNames: seq<(string, seq<string>)>, permission: string, group: string)
    ensures var r := WithGroupName(groupNames, permission, group);
            (permission, AppendNew(Lookup(groupNames, permission).GetOr([]), group)) in r
            && (forall e :: e in groupNames && e.0 != permission ==> e in r)
            && (forall e :: e in r ==> e.0 == permission || e in groupNames)
  {
    var current := Lookup(groupNames, permission).GetOr([]);
    PutSets(groupNames, permission, AppendNew(current, group));
    var r := WithGroupName(groupNames, permission, group);
    forall e | e in groupNames && e.0 != permission ensures e in r {
      var i :| 0 <= i < |groupNames| && groupNames[i] == e;
    }
  }

  /** The caps update for one service; None when the permission list raises. */
  function CapsFor(service: string, obj: Service): Option<Effect> {
    match ServiceGrants(obj)
    case None => None
    case Some(gs) => Some(CapsSet("client." + service, CapsList(gs)))
  }

  /** The caps update of each service, as get_service_groups reads it. */
  function ServiceCaps(namespace: Json, groups: map<string, Stored<Group>>,
                       services: map<string, Stored<Service>>): string -> Option<Effect>
  {
    n => CapsFor(n, GetServiceGroups(services, groups, n, namespace))
  }

  /** The record update_service_permissions works on: the one passed in,
      or the stored one. */
  function ServiceObject(obj: Option<Service>, services: map<string, Stored<Service>>,
                         groups: map<string, Stored<Group>>, service: string, namespace: Json): Service
  {
    if obj.Some? then obj.value else GetServiceGroups(services, groups, service, namespace)
  }

  lemma ServiceCapsApply(n: string, namespace: Json, groups: map<string, Stored<Group>>,
                         services: map<string, Stored<Service>>)
    ensures ServiceCaps(namespace, groups, services)(n) == CapsFor(n, ServiceObject(None, services, groups, n, namespace))
  {
  }

  /** update_service_permissions for each service in turn, stopping at the
      first that raises; the flag says whether all of them went through. */
  function Recaps(names: seq<string>, caps: string -> Option<Effect>): (r: (seq<Effect>, bool))
    ensures |r.0| <= |names|
    ensures r.1 ==> |r.0| == |names|
  {
    if names == [] then ([], true)
    else
      var prior := Recaps(names[..|names| - 1], caps);
      if !prior.1 then prior
      else
        match caps(names[|names| - 1])
        case None => (prior.0, false)
        case Some(e) => (prior.0 + [e], true)
  }

  lemma AppendAssoc<T>(a: seq<T>, b: seq<T>, c: seq<T>)
    ensures a + (b + c) == (a + b) + c
  {
  }

  lemma {:induction false} RecapsStops(names: seq<string>, i: nat, caps: string -> Option<Effect>)
    requires i < |names|
    requires Recaps(names[..i], caps).1 && caps(names[i]).None?
    ensures Recaps(names, caps) == (Recaps(names[..i], caps).0, false)
  {
    if i + 1 < |names| {
      assert names[..|names| - 1][..i] == names[..i];
      RecapsStops(names[..|names| - 1], i, caps);
    } else {
      assert names[..|names| - 1] == names[..i];
    }
  }

  lemma RecapsStep(names: seq<string>, i: nat, caps: string -> Option<Effect>)
    requires i < |names|
    requires Recaps(names[..i], caps).1 && caps(names[i]).Some?
    ensures Recaps(names[..i + 1], caps) == (Recaps(names[..i], caps).0 + [caps(names[i]).value], true)
  {
    assert names[..i + 1][..i] == names[..i];
  }

  /** Rebuilt services never fail the permission list for a missing group,
      so only a malformed object_prefix_perms can stop the updates. */
  lemma {:induction false} RecapsOfRebuiltServices(names: seq<string>, namespace: Json,
                                                   groups: map<string, Stored<Group>>,
                                                   services: map<string, Stored<Service>>)
    requires forall n :: n in services && services[n].Value? ==>
               PrefixTable(services[n].v.prefixPerms).Some?
    ensures Recaps(names, ServiceCaps(namespace, groups, services)).1
  {
    if names != [] {
      RecapsOfRebuiltServices(names[..|names| - 1], namespace, groups, services);
      var n := names[|names| - 1];
      var obj := GetServiceGroups(services, groups, n, namespace);
      if n in services && services[n].Value? {
        RebuiltGroupsCoverNames(services[n].v.groupNames, namespace, groups);
      }
      assert ServiceGrants(obj).Some?;
    }
  }

  /** The store after add_pool_to_group saved the (namespaced) group with
      the pool added at most once. */
  predicate GroupSaved(pool: string, group: string, namespace: Json,
                       groups0: map<string, Stored<Group>>, groups1: map<string, Stored<Group>>)
  {
    var name := NamespacedName(namespace, group);
    groups1 == groups0[name := Value(WithPool(GetGroup(groups0, name), pool))]
  }

  /** What add_pool_to_group does: the group is saved with the pool, then
      each of its services has its caps set, until one raises (ok is false
      then). */
  predicate PoolAdded(pool: string, group: string, namespace: Json,
                      groups0: map<string, Stored<Group>>, groups1: map<string, Stored<Group>>,
                      services: map<string, Stored<Service>>,
                      effects0: seq<Effect>, effects1: seq<Effect>, ok: bool)
  {
    GroupSaved(pool, group, namespace, groups0, groups1)
    && var g := GetGroup(groups1, NamespacedName(namespace, group));
       var updates := Recaps(g.services, ServiceCaps(namespace, groups1, services));
       ok == updates.1 && effects1 == effects0 + updates.0
  }

  /** Adding a pool twice stores the same group as adding it once, and the
      group's pools stay free of duplicates. */
  lemma GroupSavedTwice(pool: string, group: string, namespace: Json, groups0: map<string, Stored<Group>>,
                        groups1: map<string, Stored<Group>>, groups2: map<string, Stored<Group>>)
    requires GroupSaved(pool, group, namespace, groups0, groups1)
    requires GroupSaved(pool, group, namespace, groups1, groups2)
    ensures groups2 == groups1
    ensures var pools := GetGroup(groups2, NamespacedName(namespace, group)).pools;
            pool in pools && (NoDuplicates(GetGroup(groups0, NamespacedName(namespace, group)).pools) ==> NoDuplicates(pools))
  {
    var name := NamespacedName(namespace, group);
    var g := WithPool(GetGroup(groups0, name), pool);
    assert GetGroup(groups1, name) == g;
    if NoDuplicates(GetGroup(groups0, name).pools) {
      AppendNewKeepsDistinct(GetGroup(groups0, name).pools, pool);
      assert g.pools == AppendNew(GetGroup(groups0, name).pools, pool);
    }
  }

  /** The monitors' admin key store and the cluster the broker acts on. */
  class Cluster {
    var groups: map<string, Stored<Group>>
    var services: map<string, Stored<Service>>
    var pools: set<string>
    var profiles: set<string>
    var effects: seq<Effect>
    /** get_osds: the OSD ids (an empty list when there are none or the
        query fails). */
    const osds: seq<string>
    /** Whether ReplicatedPool/ErasurePool find every parameter they need
        in the request (otherwise they raise KeyError). */
    const poolRequestComplete: Request -> bool
    /** Whether validator accepts a value for a pool key (otherwise it raises). */
    const validValue: (string, Json) -> bool
    /** The ops not modelled here (cephfs, cache tiers, pool deletion,
        renaming and snapshots, rgw, move-osd-to-bucket, set-key-permissions). */
    const otherOp: (string, Request) -> Outcome

    constructor(groups0: map<string, Stored<Group>>, services0: map<string, Stored<Service>>,
                pools0: set<string>, profiles0: set<string>, osds0: seq<string>,
                complete: Request -> bool, valid: (string, Json) -> bool,
                other: (string, Request) -> Outcome)
      ensures groups == groups0 && services == services0 && pools == pools0 && profiles == profiles0
      ensures effects == [] && osds == osds0
      ensures poolRequestComplete == complete && validValue == valid && otherOp == other
    {
      groups, services, pools, profiles := groups0, services0, pools0, profiles0;
      effects := [];
      osds, poolRequestComplete, validValue, otherOp := osds0, complete, valid, other;
    }

    /** save_group */
    method SaveGroup(g: Group, name: string)
      modifies this
      ensures groups == old(groups)[name := Value(g)]
      ensures services == old(services) && pools == old(pools) && profiles == old(profiles)
      ensures effects == old(effects)
    {
      groups := groups[name := Value(g)];
    }

    /** save_service: the record is stored with its groups emptied (and the
        caller's object is emptied likewise). */
    method SaveService(name: string, s: Service) returns (saved: Service)
      modifies this
      ensures saved == s.(groups := map[])
      ensures services == old(services)[name := Value(saved)]
      ensures groups == old(groups) && pools == old(pools) && profiles == old(profiles)
      ensures effects == old(effects)
    {
      saved := s.(groups := map[]);
      services := services[name := Value(saved)];
    }

    /** update_service_permissions: `ceph auth caps client.<service>` with
        the service's permission list; false when that list raises. */
    method UpdateServicePermissions(service: string, obj: Option<Service>, namespace: Json) returns (ok: bool)
      modifies this`effects
      ensures var e := if obj.Some? then CapsFor(service, obj.value)
                       else ServiceCaps(namespace, groups, services)(service);
              ok == e.Some? && effects == old(effects) + (if ok then [e.value] else [])
    {
      if obj.Some? {
        ok := SetCaps(service, obj.value);
      } else {
        ServiceCapsApply(service, namespace, groups, services);
        ok := SetCaps(service, GetServiceGroups(services, groups, service, namespace));
      }
    }

    /** The `ceph auth caps` call of update_service_permissions for the
        record `obj`. */
    method SetCaps(service: string, obj: Service) returns (ok: bool)
      modifies this`effects
      ensures ok == CapsFor(service, obj).Some?
      ensures effects == old(effects) + (if ok then [CapsFor(service, obj).value] else [])
    {
      var caps := PoolPermissionListForService(obj);
      if caps.Err? {
        return false;
      }
      effects := effects + [CapsSet("client." + service, caps.value)];
      ok := true;
    }

    /** add_pool_to_group: the pool joins the (namespaced) group at most once,
        the group is saved, and every member service gets its caps refreshed. */
    method AddPoolToGroup(pool: string, group: string, namespace: Json) returns (ok: bool)
      modifies this
      ensures PoolAdded(pool, group, namespace, old(groups), groups, services, old(effects), effects, ok)
      ensures services == old(services) && pools == old(pools) && profiles == old(profiles)
    {
      var name := NamespacedName(namespace, group);
      var g := GetGroup(groups, name);
      if pool !in g.pools {
        g := g.(pools := g.pools + [pool]);
      }
      SaveGroup(g, name);
      assert GetGroup(groups, name) == g;
      ok := RefreshMembers(g.services, namespace);
    }

    /** update_service_permissions(service, None, namespace), stated through
        the caps function of the current store. */
    method RecapStored(service: string, namespace: Json, ghost caps: string -> Option<Effect>) returns (ok: bool)
      requires caps == ServiceCaps(namespace, groups, services)
      modifies this`effects
      ensures ok == caps(service).Some?
      ensures effects == old(effects) + (if ok then [caps(service).value] else [])
    {
      ok := UpdateServicePermissions(service, None, namespace);
    }

    /** The loop of add_pool_to_group over the group's services. */
    method RefreshMembers(members: seq<string>, namespace: Json) returns (ok: bool)
      modifies this`effects
      ensures var updates := Recaps(members, ServiceCaps(namespace, groups, services));
              ok == updates.1 && effects == old(effects) + updates.0
    {
      ghost var caps := ServiceCaps(namespace, groups, services);
      var i := 0;
      assert members[..0] == [];
      while i < |members|
        invariant 0 <= i <= |members|
        invariant Recaps(members[..i], caps).1
        invariant effects == old(effects) + Recaps(members[..i], caps).0
      {
        ghost var prior := Recaps(members[..i], caps).0;
        ok := RecapStored(members[i], namespace, caps);
        if !ok {
          RecapsStops(members, i, caps);
          return;
        }
        RecapsStep(members, i, caps);
        AppendAssoc(old(effects), prior, [caps(members[i]).value]);
        i := i + 1;
      }
      assert members[..i] == members;
      ok := true;
    }

    /** handle_add_permissions_to_key: the service joins the group once, the
        group joins the service under the permission (default rwx) once,
        both are saved and the service's caps are set. */
    method HandleAddPermissionsToKey(req: Request) returns (out: Outcome)
      modifies this
      ensures PermissionAdded(req, old(groups), groups, old(services), services, old(effects), effects, out)
      ensures pools == old(pools) && profiles == old(profiles)
    {
      var service := Str(Get(req, "name"));
      var namespace := Get(req, "group-namespace");
      var obj := RecordPermission(req);
      obj := obj.(groups := BuildServiceGroups(obj.groupNames, namespace, groups));
      var ok := UpdateServicePermissions(service, Some(obj), namespace);
      if !ok {
        return Raised("error building the permission list");
      }
      out := Returned(Dict(Success()));
    }

    /** The bookkeeping of handle_add_permissions_to_key: the service joins
        the group, the group is listed under the permission, and both are
        saved; the stored service record is returned. */
    method RecordPermission(req: Request) returns (obj: Service)
      modifies this`groups, this`services
      ensures groups == old(groups)[GroupNameOf(req) :=
                Value(WithService(GetGroup(old(groups), GroupNameOf(req)), Str(Get(req, "name"))))]
      ensures obj == ServiceRecordAfter(req, old(services), old(groups))
      ensures services == old(services)[Str(Get(req, "name")) := Value(obj)]
    {
      var service := Str(Get(req, "name"));
      var namespace := Get(req, "group-namespace");
      var groupName := NamespacedName(namespace, Str(Get(req, "group")));
      var group := GetGroup(groups, groupName);
      obj := GetServiceGroups(services, groups, service, namespace);
      ghost var before := obj;
      if Truthy(Get(req, "object-prefix-permissions")) {
        obj := obj.(prefixPerms := Some(Get(req, "object-prefix-permissions")));
      }
      var permission := if Truthy(Get(req, "group-permission")) then Str(Get(req, "group-permission")) else "rwx";
      if service !in group.services {
        group := group.(services := group.services + [service]);
      }
      groups := groups[groupName := Value(group)];
      var listed := Lookup(obj.groupNames, permission).GetOr([]);
      if groupName !in listed {
        listed := listed + [groupName];
      }
      obj := obj.(groupNames := Put(obj.groupNames, permission, listed));
      assert obj.groupNames == WithGroupName(before.groupNames, PermissionOf(req), GroupNameOf(req));
      obj := obj.(groups := map[]);
      services := services[service := Value(obj)];
    }

    /** handle_create_erasure_profile */
    method HandleCreateErasureProfile(req: Request) returns (ret: Ret)
      modifies this
      ensures BadFailureDomain(Get(req, "failure-domain")) ==>
                ret == Dict(FailureDomainError()) && effects == old(effects) && profiles == old(profiles)
      ensures !BadFailureDomain(Get(req, "failure-domain")) ==>
                ret == Dict(Success())
                && effects == old(effects) + [ProfileCreated(Str(Get(req, "name")), Get(req, "failure-domain"))]
                && profiles == old(profiles) + {Str(Get(req, "name"))}
      ensures groups == old(groups) && services == old(services) && pools == old(pools)
    {
      var fd := Get(req, "failure-domain");
      if Truthy(fd) && !(fd.JStr? && fd.s in BucketTypes) {
        return Dict(FailureDomainError());
      }
      var name := Str(Get(req, "name"));
      profiles := profiles + {name};
      effects := effects + [ProfileCreated(name, fd)];
      ret := Dict(Success());
    }

    /** The end of both pool handlers: the pool object's constructor raises
        KeyError on a missing parameter; otherwise the pool is created when
        absent and updated. */
    method FinishPool(pool: string, req: Request) returns (out: Outcome)
      modifies this
      ensures PoolFinished(pool, req, old(pools), pools, old(effects), effects, out)
      ensures !poolRequestComplete(req) ==> unchanged(this)
      ensures groups == old(groups) && services == old(services) && profiles == old(profiles)
    {
      if !poolRequestComplete(req) {
        return Returned(Dict(Failure("Missing parameter.")));
      }
      CreateOrUpdate(pool);
      out := Returned(NoDict);
    }

    /** How the end of a pool handler leaves the pools and the effects: an
        incomplete request answers `Missing parameter.` and changes nothing;
        otherwise the pool is created when absent, then updated. */
    predicate PoolFinished(pool: string, req: Request, pools0: set<string>, pools1: set<string>,
                           effects0: seq<Effect>, effects1: seq<Effect>, out: Outcome)
    {
      && (!poolRequestComplete(req) ==>
            out == Returned(Dict(Failure("Missing parameter."))) && pools1 == pools0 && effects1 == effects0)
      && (poolRequestComplete(req) ==>
            out == Returned(NoDict) && pools1 == pools0 + {pool}
            && effects1 == effects0 + (if pool in pools0 then [] else [PoolCreated(pool)]) + [PoolUpdated(pool)])
    }

    /** Creating the pool when absent, then updating it (both pool handlers). */
    method CreateOrUpdate(pool: string)
      modifies this
      ensures pools == old(pools) + {pool}
      ensures pool in old(pools) ==> effects == old(effects) + [PoolUpdated(pool)]
      ensures pool !in old(pools) ==> effects == old(effects) + [PoolCreated(pool), PoolUpdated(pool)]
      ensures groups == old(groups) && services == old(services) && profiles == old(profiles)
    {
      if pool !in pools {
        pools := pools + {pool};
        effects := effects + [PoolCreated(pool)];
      }
      effects := effects + [PoolUpdated(pool)];
    }

    /** How the `if group_name:` step leaves the groups and the effects:
        unchanged without a group, otherwise the pool is added to it. */
    predicate GroupJoined(pool: string, req: Request, groups0: map<string, Stored<Group>>,
                          groups1: map<string, Stored<Group>>, services: map<string, Stored<Service>>,
                          effects0: seq<Effect>, effects1: seq<Effect>, ok: bool)
    {
      && (!Truthy(Get(req, "group")) ==> ok && groups1 == groups0 && effects1 == effects0)
      && (Truthy(Get(req, "group")) ==>
            PoolAdded(pool, Str(Get(req, "group")), Get(req, "group-namespace"), groups0, groups1,
                      services, effects0, effects1, ok))
    }

    /** The `if group_name:` step of both pool handlers: add_pool_to_group
        with the request's group and namespace. */
    method JoinGroup(pool: string, req: Request) returns (ok: bool)
      modifies this
      ensures GroupJoined(pool, req, old(groups), groups, services, old(effects), effects, ok)
      ensures services == old(services) && pools == old(pools) && profiles == old(profiles)
    {
      ok := true;
      if Truthy(Get(req, "group")) {
        ok := AddPoolToGroup(pool, Str(Get(req, "group")), Get(req, "group-namespace"));
      }
    }

    /** handle_replicated_pool: caps pg_num, adds the pool to its group,
        then creates (when absent) and updates the pool. */
    method HandleReplicatedPool(req: Request)
      returns (out: Outcome, ghost joined: bool, ghost midGroups: map<string, Stored<Group>>, ghost midEffects: seq<Effect>)
      modifies this
      ensures ReplicatedRequest(req, osds).Err? ==> out.Raised? && unchanged(this)
      ensures var pool := Str(Get(req, "name"));
              ReplicatedRequest(req, osds).Ok? ==>
                GroupJoined(pool, req, old(groups), midGroups, services, old(effects), midEffects, joined)
                && groups == midGroups
                && (!joined ==> out.Raised? && pools == old(pools) && effects == midEffects)
                && (joined ==> PoolFinished(pool, ReplicatedRequest(req, osds).value, old(pools), pools,
                                            midEffects, effects, out))
      ensures out.Returned? ==> ReplicatedRequest(req, osds).Ok?
      ensures out.Returned? && !poolRequestComplete(ReplicatedRequest(req, osds).value) ==>
                out == Returned(Dict(Failure("Missing parameter."))) && pools == old(pools)
      ensures out.Returned? && poolRequestComplete(ReplicatedRequest(req, osds).value) ==>
                out == Returned(NoDict) && pools == old(pools) + {Str(Get(req, "name"))}
      ensures !Truthy(Get(req, "group")) ==> groups == old(groups)
      ensures services == old(services) && profiles == old(profiles)
    {
      var pool := Str(Get(req, "name"));
      var sent := ReplicatedRequest(req, osds);
      joined, midGroups, midEffects := true, groups, effects;
      if sent.Err? {
        return Raised(sent.error), joined, midGroups, midEffects;
      }
      var ok := JoinGroup(pool, req);
      joined, midGroups, midEffects := ok, groups, effects;
      if !ok {
        return Raised("error building the permission list"), joined, midGroups, midEffects;
      }
      out := FinishPool(pool, sent.value);
    }

    /** handle_erasure_pool */
    method HandleErasurePool(req: Request)
      returns (out: Outcome, ghost joined: bool, ghost midGroups: map<string, Stored<Group>>, ghost midEffects: seq<Effect>)
      modifies this
      ensures var pool := Str(Get(req, "name"));
              GroupJoined(pool, req, old(groups), midGroups, services, old(effects), midEffects, joined)
              && groups == midGroups
      ensures !joined ==> out.Raised? && pools == old(pools) && effects == midEffects
      ensures joined && Str(ErasureProfileOf(req)) !in profiles ==> pools == old(pools) && effects == midEffects
      ensures joined && Str(ErasureProfileOf(req)) in profiles ==>
                PoolFinished(Str(Get(req, "name")), req, old(pools), pools, midEffects, effects, out)
      ensures var profile := Str(ErasureProfileOf(req));
              out.Returned? && profile !in profiles ==>
                out == Returned(Dict(Failure("erasure-profile " + profile
                                             + " does not exist.  Please create it with: create-erasure-profile")))
                && pools == old(pools)
      ensures out.Returned? && Str(ErasureProfileOf(req)) in profiles && !poolRequestComplete(req) ==>
                out == Returned(Dict(Failure("Missing parameter."))) && pools == old(pools)
      ensures out.Returned? && Str(ErasureProfileOf(req)) in profiles && poolRequestComplete(req) ==>
                out == Returned(NoDict) && pools == old(pools) + {Str(Get(req, "name"))}
      ensures !Truthy(Get(req, "group")) ==> out.Returned? && groups == old(groups)
      ensures services == old(services) && profiles == old(profiles)
    {
      var pool := Str(Get(req, "name"));
      var profile := Str(ErasureProfileOf(req));
      var ok := JoinGroup(pool, req);
      joined, midGroups, midEffects := ok, groups, effects;
      if !ok {
        return Raised("error building the permission list"), joined, midGroups, midEffects;
      }
      if profile !in profiles {
        return Returned(Dict(Failure("erasure-profile " + profile
                                     + " does not exist.  Please create it with: create-erasure-profile"))),
               joined, midGroups, midEffects;
      }
      out := FinishPool(pool, req);
    }

    /** handle_set_pool_value (as dispatched, without coercion). */
    method HandleSetPoolValue(req: Request) returns (out: Outcome)
      modifies this
      ensures var key := Get(req, "key");
              (key.JList? || key.JObj?) ==> out.Raised? && effects == old(effects)
      ensures var key := Get(req, "key");
              !(key.JList? || key.JObj?) && !(key.JStr? && key.s in PoolKeys) ==>
                out == Returned(Dict(Failure("Invalid key '" + Str(key) + "'"))) && effects == old(effects)
      ensures var key := Get(req, "key");
              key.JStr? && key.s in PoolKeys ==>
                (out.Raised? <==> !validValue(key.s, Get(req, "value")))
                && (out.Raised? ==> effects == old(effects))
                && (out.Returned? ==> (out == Returned(NoDict)
                      && effects == old(effects) + [PoolValueSet(Str(Get(req, "name")), key.s, Get(req, "value"))]))
      ensures groups == old(groups) && services == old(services)
      ensures pools == old(pools) && profiles == old(profiles)
    {
      var key := Get(req, "key");
      if key.JList? || key.JObj? {
        return Raised("TypeError: unhashable type");
      }
      if !(key.JStr? && key.s in PoolKeys) {
        return Returned(Dict(Failure("Invalid key '" + Str(key) + "'")));
      }
      var value := Get(req, "value");
      if !validValue(key.s, value) {
        return Raised("invalid value for " + key.s);
      }
      effects := effects + [PoolValueSet(Str(Get(req, "name")), key.s, value)];
      out := Returned(NoDict);
    }

    /** One op of process_requests_v1 (the op is known). */
    method Dispatch(req: Request) returns (out: Outcome)
      requires KnownOp(Get(req, "op"))
      modifies this
      ensures var op := Get(req, "op").s;
              op !in {"create-pool", "create-erasure-profile", "set-pool-value", "add-permissions-to-key"} ==>
                out == otherOp(op, req) && effects == old(effects) + [OtherOp(op)]
      ensures Get(req, "op").s == "create-erasure-profile" ==> out.Returned?
    {
      var op := Get(req, "op").s;
      if op == "create-pool" {
        ghost var joined, midGroups, midEffects;
        if Get(req, "pool-type") == JStr("erasure") {
          out, joined, midGroups, midEffects := HandleErasurePool(req);
        } else {
          out, joined, midGroups, midEffects := HandleReplicatedPool(req);
        }
      } else if op == "create-erasure-profile" {
        var ret := HandleCreateErasureProfile(req);
        out := Returned(ret);
      } else if op == "set-pool-value" {
        out := HandleSetPoolValue(req);
      } else if op == "add-permissions-to-key" {
        out := HandleAddPermissionsToKey(req);
      } else {
        effects := effects + [OtherOp(op)];
        out := otherOp(op, req);
      }
    }

    /** process_requests_v1: every op in turn; an unknown op answers at
        once; otherwise only the last op's return value is looked at. */
    method ProcessRequestsV1(ops: Json) returns (r: V1Result, ghost rets: seq<Ret>)
      modifies this
      ensures OpItems(ops).None? ==> r.V1Raised? && effects == old(effects)
      ensures OpItems(ops).Some? ==>
                var items := OpItems(ops).value;
                |rets| <= |items|
                && (forall k :: 0 <= k < |rets| ==> KnownOp(OpOf(items[k])))
                && (r.V1Reply? && |rets| == |items| ==>
                      r.reply == FinalReply(if rets == [] then NoDict else rets[|rets| - 1]))
                && (r.V1Reply? && |rets| < |items| ==>
                      !KnownOp(OpOf(items[|rets|])) && r.reply == UnknownOperation(OpOf(items[|rets|])))
      ensures r.V1Reply? ==> "exit-code" in r.reply
    {
      var items := OpItems(ops);
      rets := [];
      if items.None? {
        return V1Raised("TypeError: object has no len()"), rets;
      }
      var ret := NoDict;
      var i := 0;
      while i < |items.value|
        invariant 0 <= i <= |items.value| && |rets| == i
        invariant forall k :: 0 <= k < i ==> KnownOp(OpOf(items.value[k]))
        invariant ret == if rets == [] then NoDict else rets[|rets| - 1]
      {
        var item := items.value[i];
        if !item.JObj? {
          return V1Raised("AttributeError: object has no attribute 'get'"), rets;
        }
        var req := ToMap(item.entries);
        var op := Get(req, "op");
        if !KnownOp(op) {
          return V1Reply(UnknownOperation(op)), rets;
        }
        var out := Dispatch(req);
        if out.Raised? {
          return V1Raised(out.error), rets;
        }
        ret := out.ret;
        rets := rets + [ret];
        i := i + 1;
      }
      r := V1Reply(FinalReply(ret));
    }

    /** process_requests: the api-version gate around process_requests_v1. */
    method ProcessRequests(body: seq<(string, Json)>) returns (d: Response, v1: V1Result)
      modifies this
      ensures d == Respond(body, v1)
      ensures !RunsV1(ToMap(body)) ==> effects == old(effects)
      ensures RunsV1(ToMap(body)) && "ops" !in ToMap(body) ==>
                v1.V1Raised? && "exit-code" in d && d["exit-code"] == JInt(1)
      ensures RunsV1(ToMap(body)) && v1.V1Reply? ==> "exit-code" in d
    {
      var reqs := ToMap(body);
      v1 := V1Raised("KeyError: 'ops'");
      if RunsV1(reqs) && "ops" in reqs {
        ghost var rets;
        v1, rets := ProcessRequestsV1(reqs["ops"]);
      }
      d := Respond(body, v1);
    }
  }

  /** What handle_add_permissions_to_key does to the store: the service
      joins the group, the service record lists the group under the
      permission, and the caps of the service are set from the saved record
      with its groups rebuilt (out is the reply, or the exception). */
  predicate PermissionAdded(req: Request, groups0: map<string, Stored<Group>>, groups1: map<string, Stored<Group>>,
                            services0: map<string, Stored<Service>>, services1: map<string, Stored<Service>>,
                            effects0: seq<Effect>, effects1: seq<Effect>, out: Outcome)
  {
    var service := Str(Get(req, "name"));
    var rec := ServiceRecordAfter(req, services0, groups0);
    var caps := CapsFor(service, rec.(groups := BuildServiceGroups(rec.groupNames, Get(req, "group-namespace"), groups1)));
    groups1 == groups0[GroupNameOf(req) := Value(WithService(GetGroup(groups0, GroupNameOf(req)), service))]
    && services1 == services0[service := Value(rec)]
    && (out == Returned(Dict(Success())) <==> caps.Some?)
    && (out.Raised? || out == Returned(Dict(Success())))
    && effects1 == effects0 + (if caps.Some? then [caps.value] else [])
  }

  /** The permission handle_add_permissions_to_key grants (default rwx). */
  function PermissionOf(req: Request): (p: string)
    ensures !Truthy(Get(req, "group-permission")) ==> p == "rwx"
  {
    if Truthy(Get(req, "group-permission")) then Str(Get(req, "group-permission")) else "rwx"
  }

  /** The group handle_add_permissions_to_key adds the service to. */
  function GroupNameOf(req: Request): string {
    NamespacedName(Get(req, "group-namespace"), Str(Get(req, "group")))
  }

  /** The service record handle_add_permissions_to_key stores. */
  function ServiceRecordAfter(req: Request, services: map<string, Stored<Service>>,
                              groups: map<string, Stored<Group>>): Service
  {
    var before := GetServiceGroups(services, groups, Str(Get(req, "name")), Get(req, "group-namespace"));
    var prefix := if Truthy(Get(req, "object-prefix-permissions"))
                  then Some(Get(req, "object-prefix-permissions")) else before.prefixPerms;
    Service(WithGroupName(before.groupNames, PermissionOf(req), GroupNameOf(req)), map[], prefix)
  }

  /** The stored record lists the group under the permission exactly once
      when it listed it at most once before, and keeps the other
      permissions' lists. */
  lemma ServiceRecordListsGroupOnce(req: Request, services: map<string, Stored<Service>>,
                                    groups: map<string, Stored<Group>>)
    requires var before := GetServiceGroups(services, groups, Str(Get(req, "name")), Get(req, "group-namespace"));
             NoDuplicates(Lookup(before.groupNames, PermissionOf(req)).GetOr([]))
    ensures var rec := ServiceRecordAfter(req, services, groups);
            var listed := AppendNew(Lookup(GetServiceGroups(services, groups, Str(Get(req, "name")),
                                                            Get(req, "group-namespace")).groupNames,
                                           PermissionOf(req)).GetOr([]), GroupNameOf(req));
            (PermissionOf(req), listed) in rec.groupNames
            && NoDuplicates(listed) && multiset(listed)[GroupNameOf(req)] == 1
  {
    var before := GetServiceGroups(services, groups, Str(Get(req, "name")), Get(req, "group-namespace"));
    var listed := AppendNew(Lookup(before.groupNames, PermissionOf(req)).GetOr([]), GroupNameOf(req));
    AppendNewKeepsDistinct(Lookup(before.groupNames, PermissionOf(req)).GetOr([]), GroupNameOf(req));
    PutSets(before.groupNames, PermissionOf(req), listed);
  }

  /** With a truthy namespace the stored service lists the group under its
      namespaced name "ns-grp", and rebuilding the service namespaces that
      name once more: the group read back for it is the one stored under
      "ns-ns-grp", not the group handle_add_permissions_to_key saved. */
  lemma NamespacedGroupPrefixedTwice(req: Request, services: map<string, Stored<Service>>,
                                     groups0: map<string, Stored<Group>>, groups1: map<string, Stored<Group>>)
    requires Truthy(Get(req, "group-namespace"))
    ensures var ns := Get(req, "group-namespace");
            var saved := GroupNameOf(req);
            var rec := ServiceRecordAfter(req, services, groups0);
            var rebuilt := BuildServiceGroups(rec.groupNames, ns, groups1);
            saved == Str(ns) + "-" + Str(Get(req, "group"))
            && saved in rebuilt
            && rebuilt[saved] == GetGroup(groups1, Str(ns) + "-" + saved)
            && Str(ns) + "-" + saved != saved
  {
    var ns := Get(req, "group-namespace");
    var saved := GroupNameOf(req);
    var before := GetServiceGroups(services, groups0, Str(Get(req, "name")), ns);
    var listed := AppendNew(Lookup(before.groupNames, PermissionOf(req)).GetOr([]), saved);
    var rec := ServiceRecordAfter(req, services, groups0);
    WithGroupNameLists(before.groupNames, PermissionOf(req), saved);
    assert (PermissionOf(req), listed) in rec.groupNames && saved in listed;
    assert Listed(rec.groupNames, saved);
    BuildServiceGroupsReads(rec.groupNames, ns, groups1);
    assert |Str(ns) + "-" + saved| > |saved|;
  }

  /** The profile handle_erasure_pool looks for. */
  function ErasureProfileOf(req: Request): (p: Json)
    ensures Get(req, "erasure-profile") == JNull ==> p == JStr("default-canonical")
    ensures Get(req, "erasure-profile") != JNull ==> p == Get(req, "erasure-profile")
  {
    var p := Get(req, "erasure-profile");
    if p == JNull then JStr("default-canonical") else p
  }

  /** The op named by one element of the ops list. */
  function OpOf(item: Json): Json {
    if item.JObj? then Get(ToMap(item.entries), "op") else JNull
  }

  /** A failed op is forgotten when a later op succeeds: the reply depends on
      the last return value only. */
  lemma LastRetDecides(rets: seq<Ret>, earlier: Ret)
    requires rets != []
    ensures FinalReply(([earlier] + rets)[|rets|]) == FinalReply(rets[|rets| - 1])
  {
  }
}
