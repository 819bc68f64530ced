// The older request broker of ceph/ceph_broker.py: process_requests, the ops
// process_requests_v1 dispatches, and the checks each handler makes before it
// issues its ceph or radosgw-admin commands (recorded as effects). Every op
// runs as the `admin` client.

module LegacyBroker {
  import opened Wrappers
  import opened BrokerRequests
  import Broker

  /** A command or file action the broker issued. */
  datatype Effect =
    | ProfileCreated(name: Json, failureDomain: string, plugin: Json, k: Json, m: Json, l: Json)
    | ReplicatedPoolCreated(pool: string, kwargs: map<string, Json>)
    | ErasurePoolCreated(pool: string, profile: string, weight: Json)
    | QuotaSet(pool: string, maxBytes: Json)
    | CacheTierAdded(cold: string, hot: string, mode: Json)
    | CacheTierRemoved(cold: string, hot: string)
    | PoolValueSet(pool: string, key: string, value: Json)
    | PoolOp(op: string, args: seq<Json>)
    | FileWritten(path: string, content: string)
    | FileRemoved(path: string)
    | Ran(cmd: seq<string>)

  /** The keys of this copy's POOL_KEYS. */
  const PoolKeys: set<string> := {
    "size", "min_size", "crash_replay_interval", "pgp_num", "crush_ruleset",
    "hashpspool", "nodelete", "nopgchange", "nosizechange", "write_fadvise_dontneed",
    "noscrub", "nodeep-scrub", "hit_set_type", "hit_set_count", "hit_set_period",
    "hit_set_fpp", "cache_target_dirty_ratio", "cache_target_dirty_high_ratio",
    "cache_target_full_ratio", "target_max_bytes", "target_max_objects",
    "cache_min_flush_age", "cache_min_evict_age", "fast_read"}

  /** The ops process_requests_v1 dispatches. */
  const KnownOps: set<string> := {
    "create-pool", "create-cephfs", "create-cache-tier", "remove-cache-tier",
    "create-erasure-profile", "delete-pool", "rename-pool", "snapshot-pool",
    "remove-pool-snapshot", "set-pool-value", "rgw-region-set", "rgw-zone-set",
    "rgw-regionmap-update", "rgw-regionmap-default", "rgw-create-user"}

  /** The ops handed straight to the pool helpers. */
  const PoolOps: set<string> := {"delete-pool", "rename-pool", "snapshot-pool", "remove-pool-snapshot"}

  /** The radosgw-admin ops. */
  const RgwOps: set<string> := {"rgw-region-set", "rgw-zone-set", "rgw-regionmap-update",
                                "rgw-regionmap-default", "rgw-create-user"}

  predicate KnownOp(op: Json) {
    op.JStr? && op.s in KnownOps
  }

  /** Every op this copy knows is known to the current broker too, which
      adds three ops of its own. */
  lemma KnownOpsGrew()
    ensures KnownOps < Broker.KnownOps
    ensures Broker.KnownOps - KnownOps == {"move-osd-to-bucket", "add-permissions-to-key", "set-key-permissions"}
  {
    assert "move-osd-to-bucket" in Broker.KnownOps - KnownOps;
  }

  /** Every key this copy accepts is accepted by the current broker. */
  lemma PoolKeysGrew()
    ensures PoolKeys < Broker.PoolKeys
    ensures "crush_rule" in Broker.PoolKeys - PoolKeys
  {
  }

  // ------------------------------------------------------ erasure profiles

  /** `failure_domain not in CEPH_BUCKET_TYPES` (a missing one included). */
  predicate BadFailureDomain(fd: Json) {
    !(fd.JStr? && fd.s in Broker.BucketTypes)
  }

  /** This copy refuses every failure-domain the current broker refuses;
      the ones only it refuses are the falsy ones, a missing one among them. */
  lemma StricterFailureDomain(fd: Json)
    ensures Broker.BadFailureDomain(fd) ==> BadFailureDomain(fd)
    ensures BadFailureDomain(fd) && !Broker.BadFailureDomain(fd) ==> !Truthy(fd)
    ensures BadFailureDomain(JNull) && !Broker.BadFailureDomain(JNull)
  {
  }

  // ------------------------------------------------------ replicated pools

  /** pg_num after the cap: only a truthy pg_num with OSDs present is capped,
      and the cap divides by replicas (so it raises on a missing one). */
  function PgAfterCap(pg: Json, osdCount: nat, replicas: Json): (r: Result<Json, string>)
    ensures !Truthy(pg) || osdCount == 0 ==> r == Ok(pg)
    ensures Truthy(pg) && osdCount > 0 ==> r == Broker.CappedPgNum(pg, osdCount, replicas)
  {
    if Truthy(pg) && osdCount > 0 then Broker.CappedPgNum(pg, osdCount, replicas) else Ok(pg)
  }

  /** The cap comes before the check for missing parameters: a truthy
      pg_num with OSDs present and no replicas raises instead of answering
      "Missing parameter. name and replicas are required". */
  lemma CapPrecedesMissingCheck(pg: Json, osdCount: nat)
    requires Truthy(pg) && osdCount > 0
    ensures PgAfterCap(pg, osdCount, JNull).Err?
  {
  }

  /** The capped pg_num never exceeds the requested one, nor 100 placement
      groups per OSD across the replicas. */
  lemma CappedPgBounded(pg: Json, osdCount: nat, replicas: Json)
    requires Truthy(pg) && osdCount > 0
    requires Broker.AsInt(replicas).Some? && Broker.AsInt(replicas).value > 0 && Broker.AsInt(pg).Some?
    ensures PgAfterCap(pg, osdCount, replicas).Ok?
    ensures var r := Broker.AsInt(PgAfterCap(pg, osdCount, replicas).value).value;
            r <= Broker.AsInt(pg).value && r * Broker.AsInt(replicas).value <= osdCount * 100
  {
    Broker.CapBoundsPlacementGroups(pg, osdCount, replicas);
  }

  /** The keyword arguments ReplicatedPool is built with. */
  function PoolKwargs(pg: Json, weight: Json, replicas: Json): map<string, Json> {
    var a: map<string, Json> := if Truthy(pg) then map["pg_num" := pg] else map[];
    var b := if Truthy(weight) then a["percent_data" := weight] else a;
    if Truthy(replicas) then b["replicas" := replicas] else b
  }

  /** Only the truthy optional parameters are passed, each under its own
      keyword. */
  lemma KwargsAreTheTruthyOnes(pg: Json, weight: Json, replicas: Json)
    ensures var kw := PoolKwargs(pg, weight, replicas);
            kw.Keys <= {"pg_num", "percent_data", "replicas"}
            && (forall k :: k in kw ==> Truthy(kw[k]))
            && ("pg_num" in kw <==> Truthy(pg)) && ("pg_num" in kw ==> kw["pg_num"] == pg)
            && ("percent_data" in kw <==> Truthy(weight)) && ("percent_data" in kw ==> kw["percent_data"] == weight)
            && ("replicas" in kw <==> Truthy(replicas)) && ("replicas" in kw ==> kw["replicas"] == replicas)
  {
  }

  /** The creation step of both pool handlers: nothing when the pool exists. */
  function CreatedUnlessPresent(pool: string, pools: set<string>, e: Effect): (r: seq<Effect>)
    ensures pool in pools <==> r == []
  {
    if pool in pools then [] else [e]
  }

  /** The quota step of both pool handlers: only when max-bytes is not None. */
  function QuotaIfGiven(pool: string, quota: Json): (r: seq<Effect>)
    ensures quota == JNull <==> r == []
  {
    if quota == JNull then [] else [QuotaSet(pool, quota)]
  }

  // ------------------------------------------------------------- pool ops

  /** The arguments process_requests_v1 hands to a pool helper. */
  function PoolOpArgs(op: string, req: Request): (args: seq<Json>)
    requires op in PoolOps
    ensures |args| == (if op == "delete-pool" then 1 else 2) && args[0] == Get(req, "name")
  {
    if op == "delete-pool" then [Get(req, "name")]
    else if op == "rename-pool" then [Get(req, "name"), Get(req, "new-name")]
    else [Get(req, "name"), Get(req, "snapshot-name")]
  }

  // ------------------------------------------------------------------ rgw

  /** The radosgw-admin command prefix every rgw op uses. */
  const Rgw: seq<string> := ["radosgw-admin", "--id", "admin"]

  /** The reply of a command that failed: its output as stderr. */
  function CommandRet(result: Result<string, string>): (ret: Ret)
    ensures result.Ok? <==> ret == NoDict
    ensures result.Err? ==> ret == Dict(Failure(result.error))
  {
    match result
    case Ok(_) => NoDict
    case Err(e) => Dict(Failure(e))
  }

  /** handle_rgw_create_user's reply when the command's output is not JSON:
      exit-code 1 with the ValueError object itself as stderr. */
  function UnparsableUserReply(): (d: Response)
    ensures d.Keys == {"exit-code", "stderr"} && d["exit-code"] == JInt(1)
    ensures !Encodable(d["stderr"])
  {
    map["exit-code" := JInt(1), "stderr" := JValueError("No JSON object could be decoded")]
  }

  /** handle_rgw_zone_set and handle_rgw_region_set refuse unless all four
      parameters are truthy. */
  predicate FileParamsMissing(json: Json, name: Json, region: Json, zone: Json) {
    !Truthy(json) || !Truthy(name) || !Truthy(region) || !Truthy(zone)
  }

  /** What check_output raises when an argument of the command is not a
      string. */
  const ArgTypeError := "TypeError: expected str, bytes or os.PathLike object"

  /** Every one of `keys` is truthy in the request. */
  predicate AllGiven(req: Request, keys: seq<string>) {
    keys == [] || (Truthy(Get(req, keys[0])) && AllGiven(req, keys[1..]))
  }

  /** Every one of `keys` is a string in the request. */
  predicate AllStrings(req: Request, keys: seq<string>) {
    keys == [] || (Get(req, keys[0]).JStr? && AllStrings(req, keys[1..]))
  }

  /** What handle_rgw_region_set and handle_rgw_zone_set set. */
  function SetKind(op: string): string {
    if op == "rgw-region-set" then "region" else "zone"
  }

  /** The request key holding the JSON text they set. */
  function SetJsonKey(op: string): string {
    SetKind(op) + "-json"
  }

  /** The keys a radosgw op refuses to run without. */
  function RgwRequiredKeys(op: string): seq<string> {
    if op in {"rgw-region-set", "rgw-zone-set"} then [SetJsonKey(op), "client-name", "region-name", "zone-name"]
    else RgwArgKeys(op)
  }

  /** The keys a radosgw op writes to its file or puts on its command line;
      each must be a string. */
  function RgwArgKeys(op: string): seq<string> {
    if op in {"rgw-region-set", "rgw-zone-set"} then [SetJsonKey(op), "zone-name", "client-name"]
    else if op == "rgw-regionmap-update" then ["client-name"]
    else if op == "rgw-regionmap-default" then ["rgw-region", "client-name"]
    else ["rgw-uid", "display-name", "client-name"]
  }

  /** What the key lists of the radosgw ops ask of a request, op by op. */
  lemma RgwKeysMeaning(op: string, req: Request)
    requires op in RgwOps
    ensures var name := Get(req, "client-name");
            op in {"rgw-region-set", "rgw-zone-set"} ==>
              var json := Get(req, SetJsonKey(op));
              var zone := Get(req, "zone-name");
              (AllGiven(req, RgwRequiredKeys(op)) <==> !FileParamsMissing(json, name, Get(req, "region-name"), zone))
              && (AllStrings(req, RgwArgKeys(op)) <==> json.JStr? && zone.JStr? && name.JStr?)
    ensures var name := Get(req, "client-name");
            op == "rgw-regionmap-update" ==>
              (AllGiven(req, RgwRequiredKeys(op)) <==> Truthy(name)) && (AllStrings(req, RgwArgKeys(op)) <==> name.JStr?)
    ensures var name := Get(req, "client-name");
            var region := Get(req, "rgw-region");
            op == "rgw-regionmap-default" ==>
              (AllGiven(req, RgwRequiredKeys(op)) <==> Truthy(region) && Truthy(name))
              && (AllStrings(req, RgwArgKeys(op)) <==> region.JStr? && name.JStr?)
    ensures var name := Get(req, "client-name");
            var display := Get(req, "display-name");
            var uid := Get(req, "rgw-uid");
            op == "rgw-create-user" ==>
              (AllGiven(req, RgwRequiredKeys(op)) <==> Truthy(uid) && Truthy(display) && Truthy(name))
              && (AllStrings(req, RgwArgKeys(op)) <==> uid.JStr? && display.JStr? && name.JStr?)
  {
    var name, zone := "client-name", "zone-name";
    if op in {"rgw-region-set", "rgw-zone-set"} {
      KeysOf4(req, SetJsonKey(op), name, "region-name", zone);
      KeysOf3(req, SetJsonKey(op), zone, name);
    } else if op == "rgw-regionmap-update" {
      KeysOf1(req, name);
    } else if op == "rgw-regionmap-default" {
      KeysOf2(req, "rgw-region", name);
    } else {
      KeysOf3(req, "rgw-uid", "display-name", name);
    }
  }

  lemma KeysOf1(req: Request, a: string)
    ensures AllGiven(req, [a]) <==> Truthy(Get(req, a))
    ensures AllStrings(req, [a]) <==> Get(req, a).JStr?
  {
    assert [a][1..] == [];
  }

  lemma KeysOf2(req: Request, a: string, b: string)
    ensures AllGiven(req, [a, b]) <==> Truthy(Get(req, a)) && Truthy(Get(req, b))
    ensures AllStrings(req, [a, b]) <==> Get(req, a).JStr? && Get(req, b).JStr?
  {
    assert [a, b][1..] == [b];
    KeysOf1(req, b);
  }

  lemma KeysOf3(req: Request, a: string, b: string, c: string)
    ensures AllGiven(req, [a, b, c]) <==> Truthy(Get(req, a)) && Truthy(Get(req, b)) && Truthy(Get(req, c))
    ensures AllStrings(req, [a, b, c]) <==> Get(req, a).JStr? && Get(req, b).JStr? && Get(req, c).JStr?
  {
    assert [a, b, c][1..] == [b, c];
    KeysOf2(req, b, c);
  }

  lemma KeysOf4(req: Request, a: string, b: string, c: string, d: string)
    ensures AllGiven(req, [a, b, c, d])
            <==> Truthy(Get(req, a)) && Truthy(Get(req, b)) && Truthy(Get(req, c)) && Truthy(Get(req, d))
  {
    assert [a, b, c, d][1..] == [b, c, d];
    KeysOf3(req, b, c, d);
  }

  /** What every radosgw op promises: effects are only appended; a missing
      parameter answers exit-code 1 and changes nothing; the op raises
      exactly when its parameters are given but one it passes on is not a
      string, and then at most the temporary file has been written. */
  predicate RgwOutcome(op: string, req: Request, out: Outcome, before: seq<Effect>, after: seq<Effect>) {
    && before <= after
    && (!AllGiven(req, RgwRequiredKeys(op)) ==>
          out.Returned? && out.ret.Dict? && "exit-code" in out.ret.d && out.ret.d["exit-code"] == JInt(1)
          && after == before)
    && (out.Raised? <==> AllGiven(req, RgwRequiredKeys(op)) && !AllStrings(req, RgwArgKeys(op)))
    && (out.Raised? ==>
          after == before
          || (op in {"rgw-region-set", "rgw-zone-set"} && |after| == |before| + 1 && after[|before|].FileWritten?))
  }

  /** handle_create_cephfs gets as far as `fs new`: its three names are
      given and both pools exist. */
  predicate CephfsReady(req: Request, pools: set<string>) {
    Truthy(Get(req, "mds_name")) && Truthy(Get(req, "data_pool")) && Truthy(Get(req, "metadata_pool"))
    && Str(Get(req, "data_pool")) in pools && Str(Get(req, "metadata_pool")) in pools
  }

  predicate CephfsArgsAreStrings(req: Request) {
    Get(req, "mds_name").JStr? && Get(req, "data_pool").JStr? && Get(req, "metadata_pool").JStr?
  }

  class Cluster {
    var pools: set<string>
    var profiles: set<string>
    var effects: seq<Effect>
    /** get_osds: the OSD ids (none when the query fails). */
    const osds: seq<string>
    /** Whether validator accepts a value for a pool key (otherwise it raises). */
    const validValue: (string, Json) -> bool
    /** check_output: the command's output, or the output of the failure. */
    const run: seq<string> -> Result<string, string>
    /** json.loads of a command's output (None on ValueError). */
    const loads: string -> Option<Json>
    /** The outcome of delete_pool, rename_pool, snapshot_pool and
        remove_pool_snapshot. */
    const poolOp: (string, seq<Json>) -> Outcome
    /** The path NamedTemporaryFile picks. */
    const tempFile: string

    constructor(pools0: set<string>, profiles0: set<string>, osds0: seq<string>,
                valid: (string, Json) -> bool, run0: seq<string> -> Result<string, string>,
                loads0: string -> Option<Json>, poolOp0: (string, seq<Json>) -> Outcome, temp: string)
      ensures pools == pools0 && profiles == profiles0 && effects == [] && osds == osds0
      ensures validValue == valid && run == run0 && loads == loads0 && poolOp == poolOp0 && tempFile == temp
    {
      pools, profiles, effects := pools0, profiles0, [];
      osds, validValue, run, loads, poolOp, tempFile := osds0, valid, run0, loads0, poolOp0, temp;
    }

    /** handle_create_erasure_profile */
    method HandleCreateErasureProfile(req: Request) returns (ret: Ret)
      modifies this`effects, this`profiles
      ensures var fd := Get(req, "failure-domain");
              BadFailureDomain(fd) ==>
                ret == Dict(Broker.FailureDomainError()) && effects == old(effects) && profiles == old(profiles)
      ensures var fd := Get(req, "failure-domain");
              !BadFailureDomain(fd) ==>
                ret == NoDict && profiles == old(profiles) + {Str(Get(req, "name"))}
                && effects == old(effects) + [ProfileCreated(Get(req, "name"), fd.s, Get(req, "erasure-type"),
                                                             Get(req, "k"), Get(req, "m"), Get(req, "l"))]
    {
      var fd := Get(req, "failure-domain");
      if !(fd.JStr? && fd.s in Broker.BucketTypes) {
        return Dict(Broker.FailureDomainError());
      }
      var name := Get(req, "name");
      effects := effects + [ProfileCreated(name, fd.s, Get(req, "erasure-type"),
                                           Get(req, "k"), Get(req, "m"), Get(req, "l"))];
      profiles := profiles + {Str(name)};
      ret := NoDict;
    }

    /** handle_erasure_pool */
    method HandleErasurePool(req: Request) returns (ret: Ret)
      modifies this`effects, this`pools
      ensures Get(req, "name") == JNull ==>
                ret == Dict(Failure("Missing parameter. name is required for the pool"))
                && effects == old(effects) && pools == old(pools)
      ensures var profile := Str(Broker.ErasureProfileOf(req));
              Get(req, "name") != JNull && profile !in profiles ==>
                ret == Dict(Failure("erasure-profile " + profile
                                    + " does not exist.  Please create it with: create-erasure-profile"))
                && effects == old(effects) && pools == old(pools)
      ensures var pool := Str(Get(req, "name"));
              var profile := Str(Broker.ErasureProfileOf(req));
              Get(req, "name") != JNull && profile in profiles ==>
                ret == NoDict && pools == old(pools) + {pool}
                && effects == old(effects)
                              + CreatedUnlessPresent(pool, old(pools), ErasurePoolCreated(pool, profile, Get(req, "weight")))
                              + QuotaIfGiven(pool, Get(req, "max-bytes"))
    {
      var name := Get(req, "name");
      var profile := Str(Broker.ErasureProfileOf(req));
      if name == JNull {
        return Dict(Failure("Missing parameter. name is required for the pool"));
      }
      if profile !in profiles {
        return Dict(Failure("erasure-profile " + profile
                            + " does not exist.  Please create it with: create-erasure-profile"));
      }
      var pool := Str(name);
      effects := effects + CreatedUnlessPresent(pool, pools, ErasurePoolCreated(pool, profile, Get(req, "weight")));
      pools := pools + {pool};
      effects := effects + QuotaIfGiven(pool, Get(req, "max-bytes"));
      ret := NoDict;
    }

    /** handle_replicated_pool */
    method HandleReplicatedPool(req: Request) returns (out: Outcome)
      modifies this`effects, this`pools
      ensures var capped := PgAfterCap(Get(req, "pg_num"), |osds|, Get(req, "replicas"));
              capped.Err? ==> out == Raised(capped.error) && effects == old(effects) && pools == old(pools)
      ensures var capped := PgAfterCap(Get(req, "pg_num"), |osds|, Get(req, "replicas"));
              capped.Ok? && (Get(req, "name") == JNull || Get(req, "replicas") == JNull) ==>
                out == Returned(Dict(Failure("Missing parameter. name and replicas are required")))
                && effects == old(effects) && pools == old(pools)
      ensures var capped := PgAfterCap(Get(req, "pg_num"), |osds|, Get(req, "replicas"));
              var pool := Str(Get(req, "name"));
              capped.Ok? && Get(req, "name") != JNull && Get(req, "replicas") != JNull ==>
                var kw := PoolKwargs(capped.value, Get(req, "weight"), Get(req, "replicas"));
                out == Returned(NoDict) && pools == old(pools) + {pool}
                && effects == old(effects)
                              + CreatedUnlessPresent(pool, old(pools), ReplicatedPoolCreated(pool, kw))
                              + QuotaIfGiven(pool, Get(req, "max-bytes"))
    {
      var name := Get(req, "name");
      var replicas := Get(req, "replicas");
      var capped := PgAfterCap(Get(req, "pg_num"), |osds|, replicas);
      if capped.Err? {
        return Raised(capped.error);
      }
      if name == JNull || replicas == JNull {
        return Returned(Dict(Failure("Missing parameter. name and replicas are required")));
      }
      var pool := Str(name);
      var kw := PoolKwargs(capped.value, Get(req, "weight"), replicas);
      effects := effects + CreatedUnlessPresent(pool, pools, ReplicatedPoolCreated(pool, kw));
      pools := pools + {pool};
      effects := effects + QuotaIfGiven(pool, Get(req, "max-bytes"));
      out := Returned(NoDict);
    }

    /** handle_create_cache_tier: both pools must exist; the mode defaults
        to writeback. */
    method HandleCreateCacheTier(req: Request) returns (ret: Ret)
      modifies this`effects
      ensures var cold := Str(Get(req, "cold-pool"));
              var hot := Str(Get(req, "hot-pool"));
              (cold !in pools || hot !in pools) ==>
                ret == Dict(Failure("cold-pool: " + cold + " and hot-pool: " + hot
                                    + " must exist. Please create them first"))
                && effects == old(effects)
      ensures var cold := Str(Get(req, "cold-pool"));
              var hot := Str(Get(req, "hot-pool"));
              var mode := if Get(req, "mode") == JNull then JStr("writeback") else Get(req, "mode");
              cold in pools && hot in pools ==>
                ret == NoDict && effects == old(effects) + [CacheTierAdded(cold, hot, mode)]
    {
      var cold := Str(Get(req, "cold-pool"));
      var hot := Str(Get(req, "hot-pool"));
      var mode := Get(req, "mode");
      if mode == JNull {
        mode := JStr("writeback");
      }
      if cold !in pools || hot !in pools {
        return Dict(Failure("cold-pool: " + cold + " and hot-pool: " + hot
                            + " must exist. Please create them first"));
      }
      effects := effects + [CacheTierAdded(cold, hot, mode)];
      ret := NoDict;
    }

    /** handle_remove_cache_tier: both pools must exist. */
    method HandleRemoveCacheTier(req: Request) returns (ret: Ret)
      modifies this`effects
      ensures var cold := Str(Get(req, "cold-pool"));
              var hot := Str(Get(req, "hot-pool"));
              (cold !in pools || hot !in pools) ==>
                ret == Dict(Failure("cold-pool: " + cold + " or hot-pool: " + hot
                                    + " doesn't exist. Not deleting cache tier"))
                && effects == old(effects)
      ensures var cold := Str(Get(req, "cold-pool"));
              var hot := Str(Get(req, "hot-pool"));
              cold in pools && hot in pools ==>
                ret == NoDict && effects == old(effects) + [CacheTierRemoved(cold, hot)]
    {
      var cold := Str(Get(req, "cold-pool"));
      var hot := Str(Get(req, "hot-pool"));
      if cold !in pools || hot !in pools {
        return Dict(Failure("cold-pool: " + cold + " or hot-pool: " + hot
                            + " doesn't exist. Not deleting cache tier"));
      }
      effects := effects + [CacheTierRemoved(cold, hot)];
      ret := NoDict;
    }

    /** handle_set_pool_value: the key is looked up before anything is
        validated or set. */
    method HandleSetPoolValue(req: Request) returns (out: Outcome)
      modifies this`effects
      ensures var key := Get(req, "key");
              (key.JList? || key.JObj?) ==> out.Raised? && effects == old(effects)
      ensures var key := Get(req, "key");
              !(key.JList? || key.JObj?) && !(key.JStr? && key.s in PoolKeys) ==>
                out == Returned(Dict(Failure("Invalid key '" + Str(key) + "'"))) && effects == old(effects)
      ensures var key := Get(req, "key");
              key.JStr? && key.s in PoolKeys ==>
                (out.Raised? <==> !validValue(key.s, Get(req, "value")))
                && (out.Raised? ==> effects == old(effects))
                && (out.Returned? ==> (out == Returned(NoDict)
                      && effects == old(effects) + [PoolValueSet(Str(Get(req, "name")), key.s, Get(req, "value"))]))
    {
      var key := Get(req, "key");
      if key.JList? || key.JObj? {
        return Raised("TypeError: unhashable type");
      }
      if !(key.JStr? && key.s in PoolKeys) {
        return Returned(Dict(Failure("Invalid key '" + Str(key) + "'")));
      }
      var value := Get(req, "value");
      if !validValue(key.s, value) {
        return Raised("invalid value for " + key.s);
      }
      effects := effects + [PoolValueSet(Str(Get(req, "name")), key.s, value)];
      out := Returned(NoDict);
    }

    /** check_output of a command whose failure becomes the reply. */
    method RunCommand(cmd: seq<string>) returns (ret: Ret)
      modifies this`effects
      ensures ret == CommandRet(run(cmd)) && effects == old(effects) + [Ran(cmd)]
    {
      effects := effects + [Ran(cmd)];
      ret := CommandRet(run(cmd));
    }

    /** handle_rgw_regionmap_update */
    method HandleRegionmapUpdate(req: Request) returns (out: Outcome)
      modifies this`effects
      ensures var name := Get(req, "client-name");
              !Truthy(name) ==>
                out == Returned(Dict(Failure("Missing rgw-region or client-name params"))) && effects == old(effects)
      ensures var name := Get(req, "client-name");
              Truthy(name) && !name.JStr? ==> out == Raised(ArgTypeError) && effects == old(effects)
      ensures var name := Get(req, "client-name");
              Truthy(name) && name.JStr? ==>
                var cmd := Rgw + ["regionmap", "update", "--name", name.s];
                out == Returned(CommandRet(run(cmd))) && effects == old(effects) + [Ran(cmd)]
      ensures RgwOutcome("rgw-regionmap-update", req, out, old(effects), effects)
    {
      RgwKeysMeaning("rgw-regionmap-update", req);
      var name := Get(req, "client-name");
      if !Truthy(name) {
        return Returned(Dict(Failure("Missing rgw-region or client-name params")));
      }
      if !name.JStr? {
        return Raised(ArgTypeError);
      }
      var ret := RunCommand(Rgw + ["regionmap", "update", "--name", name.s]);
      out := Returned(ret);
    }

    /** handle_rgw_regionmap_default */
    method HandleRegionmapDefault(req: Request) returns (out: Outcome)
      modifies this`effects
      ensures var region := Get(req, "rgw-region");
              var name := Get(req, "client-name");
              !Truthy(region) || !Truthy(name) ==>
                out == Returned(Dict(Failure("Missing rgw-region or client-name params"))) && effects == old(effects)
      ensures var region := Get(req, "rgw-region");
              var name := Get(req, "client-name");
              Truthy(region) && Truthy(name) && !(region.JStr? && name.JStr?) ==>
                out == Raised(ArgTypeError) && effects == old(effects)
      ensures var region := Get(req, "rgw-region");
              var name := Get(req, "client-name");
              Truthy(region) && Truthy(name) && region.JStr? && name.JStr? ==>
                var cmd := Rgw + ["regionmap", "default", "--rgw-region", region.s, "--name", name.s];
                out == Returned(CommandRet(run(cmd))) && effects == old(effects) + [Ran(cmd)]
      ensures RgwOutcome("rgw-regionmap-default", req, out, old(effects), effects)
    {
      RgwKeysMeaning("rgw-regionmap-default", req);
      var region := Get(req, "rgw-region");
      var name := Get(req, "client-name");
      if !Truthy(region) || !Truthy(name) {
        return Returned(Dict(Failure("Missing rgw-region or client-name params")));
      }
      if !(region.JStr? && name.JStr?) {
        return Raised(ArgTypeError);
      }
      var ret := RunCommand(Rgw + ["regionmap", "default", "--rgw-region", region.s, "--name", name.s]);
      out := Returned(ret);
    }

    /** The shared body of handle_rgw_zone_set and handle_rgw_region_set:
        the JSON text goes to a temporary file, which is removed only when
        the command succeeds. */
    method SetFromFile(op: string, req: Request) returns (out: Outcome)
      requires op in {"rgw-region-set", "rgw-zone-set"}
      modifies this`effects
      ensures var json := Get(req, SetJsonKey(op));
              FileParamsMissing(json, Get(req, "client-name"), Get(req, "region-name"), Get(req, "zone-name")) ==>
                out == Returned(Dict(Failure("Missing json-file or client-name params"))) && effects == old(effects)
      ensures var json := Get(req, SetJsonKey(op));
              !FileParamsMissing(json, Get(req, "client-name"), Get(req, "region-name"), Get(req, "zone-name"))
              && !json.JStr? ==>
                out.Raised? && effects == old(effects)
      ensures var json := Get(req, SetJsonKey(op));
              var zone := Get(req, "zone-name");
              var name := Get(req, "client-name");
              !FileParamsMissing(json, name, Get(req, "region-name"), zone)
              && json.JStr? && !(zone.JStr? && name.JStr?) ==>
                out == Raised(ArgTypeError) && effects == old(effects) + [FileWritten(tempFile, json.s)]
      ensures var json := Get(req, SetJsonKey(op));
              var zone := Get(req, "zone-name");
              var name := Get(req, "client-name");
              !FileParamsMissing(json, name, Get(req, "region-name"), zone)
              && json.JStr? && zone.JStr? && name.JStr? ==>
                var cmd := Rgw + [SetKind(op), "set", "--rgw-zone", zone.s, "--infile", tempFile, "--name", name.s];
                out == Returned(CommandRet(run(cmd)))
                && effects == old(effects) + [FileWritten(tempFile, json.s), Ran(cmd)]
                              + (if run(cmd).Ok? then [FileRemoved(tempFile)] else [])
      ensures RgwOutcome(op, req, out, old(effects), effects)
    {
      RgwKeysMeaning(op, req);
      var json := Get(req, SetJsonKey(op));
      var name := Get(req, "client-name");
      var zone := Get(req, "zone-name");
      if FileParamsMissing(json, name, Get(req, "region-name"), zone) {
        return Returned(Dict(Failure("Missing json-file or client-name params")));
      }
      if !json.JStr? {
        return Raised("TypeError: write() argument must be str");
      }
      effects := effects + [FileWritten(tempFile, json.s)];
      if !(zone.JStr? && name.JStr?) {
        return Raised(ArgTypeError);
      }
      var ret := RunCommand(Rgw + [SetKind(op), "set", "--rgw-zone", zone.s, "--infile", tempFile, "--name", name.s]);
      if ret == NoDict {
        effects := effects + [FileRemoved(tempFile)];
      }
      out := Returned(ret);
    }

    /** handle_rgw_create_user: the created user's JSON is the reply. */
    method HandleCreateUser(req: Request) returns (out: Outcome)
      modifies this`effects
      ensures var uid := Get(req, "rgw-uid");
              var display := Get(req, "display-name");
              var name := Get(req, "client-name");
              !Truthy(name) || !Truthy(display) || !Truthy(uid) ==>
                out == Returned(Dict(Failure("Missing client-name, display-name or rgw-uid")))
                && effects == old(effects)
      ensures var uid := Get(req, "rgw-uid");
              var display := Get(req, "display-name");
              var name := Get(req, "client-name");
              Truthy(name) && Truthy(display) && Truthy(uid) && !(uid.JStr? && display.JStr? && name.JStr?) ==>
                out == Raised(ArgTypeError) && effects == old(effects)
      ensures var uid := Get(req, "rgw-uid");
              var display := Get(req, "display-name");
              var name := Get(req, "client-name");
              Truthy(name) && Truthy(display) && Truthy(uid) && uid.JStr? && display.JStr? && name.JStr? ==>
                var cmd := Rgw + ["user", "create", "--uid", uid.s, "--display-name", display.s,
                                  "--name", name.s, "--system"];
                effects == old(effects) + [Ran(cmd)]
                && (run(cmd).Err? ==> out == Returned(Dict(Failure(run(cmd).error))))
                && (run(cmd).Ok? && loads(run(cmd).value).Some? ==>
                      out == Returned(Dict(map["exit-code" := JInt(0), "user" := loads(run(cmd).value).value])))
                && (run(cmd).Ok? && loads(run(cmd).value).None? ==>
                      out == Returned(Dict(UnparsableUserReply())))
      ensures RgwOutcome("rgw-create-user", req, out, old(effects), effects)
    {
      RgwKeysMeaning("rgw-create-user", req);
      var uid := Get(req, "rgw-uid");
      var display := Get(req, "display-name");
      var name := Get(req, "client-name");
      if !Truthy(name) || !Truthy(display) || !Truthy(uid) {
        return Returned(Dict(Failure("Missing client-name, display-name or rgw-uid")));
      }
      if !(uid.JStr? && display.JStr? && name.JStr?) {
        return Raised(ArgTypeError);
      }
      var cmd := Rgw + ["user", "create", "--uid", uid.s, "--display-name", display.s, "--name", name.s, "--system"];
      effects := effects + [Ran(cmd)];
      match run(cmd)
      case Err(e) =>
        out := Returned(Dict(Failure(e)));
      case Ok(text) =>
        match loads(text)
        case Some(user) =>
          out := Returned(Dict(map["exit-code" := JInt(0), "user" := user]));
        case None =>
          out := Returned(Dict(UnparsableUserReply()));
    }

    /** handle_create_cephfs: all three parameters, then both pools, then
        `fs new`, whose arguments must be strings. */
    method HandleCreateCephfs(req: Request) returns (out: Outcome)
      modifies this`effects
      ensures var mds := Get(req, "mds_name");
              var data := Get(req, "data_pool");
              var meta := Get(req, "metadata_pool");
              !Truthy(mds) || !Truthy(data) || !Truthy(meta) ==>
                out == Returned(Dict(Failure("Missing mds_name, data_pool or metadata_pool params")))
                && effects == old(effects)
      ensures var mds := Get(req, "mds_name");
              var data := Get(req, "data_pool");
              var meta := Get(req, "metadata_pool");
              Truthy(mds) && Truthy(data) && Truthy(meta) && Str(data) !in pools ==>
                out == Returned(Dict(Failure("CephFS data pool does not exist.  Cannot create CephFS")))
                && effects == old(effects)
      ensures var mds := Get(req, "mds_name");
              var data := Get(req, "data_pool");
              var meta := Get(req, "metadata_pool");
              Truthy(mds) && Truthy(data) && Truthy(meta) && Str(data) in pools && Str(meta) !in pools ==>
                out == Returned(Dict(Failure("CephFS metadata pool does not exist.  Cannot create CephFS")))
                && effects == old(effects)
      ensures CephfsReady(req, pools) && !CephfsArgsAreStrings(req) ==>
                out == Raised(ArgTypeError) && effects == old(effects)
      ensures var mds := Get(req, "mds_name");
              var data := Get(req, "data_pool");
              var meta := Get(req, "metadata_pool");
              CephfsReady(req, pools) && CephfsArgsAreStrings(req) ==>
                var cmd := ["ceph", "--id", "admin", "fs", "new", mds.s, meta.s, data.s];
                out == Returned(CommandRet(run(cmd))) && effects == old(effects) + [Ran(cmd)]
    {
      var mds := Get(req, "mds_name");
      var data := Get(req, "data_pool");
      var meta := Get(req, "metadata_pool");
      if !Truthy(mds) || !Truthy(data) || !Truthy(meta) {
        return Returned(Dict(Failure("Missing mds_name, data_pool or metadata_pool params")));
      }
      if Str(data) !in pools {
        return Returned(Dict(Failure("CephFS data pool does not exist.  Cannot create CephFS")));
      }
      if Str(meta) !in pools {
        return Returned(Dict(Failure("CephFS metadata pool does not exist.  Cannot create CephFS")));
      }
      if !(mds.JStr? && meta.JStr? && data.JStr?) {
        return Raised(ArgTypeError);
      }
      var ret := RunCommand(["ceph", "--id", "admin", "fs", "new", mds.s, meta.s, data.s]);
      out := Returned(ret);
    }

    /** One op of process_requests_v1 (the op is known). */
    method Dispatch(req: Request) returns (out: Outcome)
      requires KnownOp(Get(req, "op"))
      modifies this`effects, this`pools, this`profiles
      ensures var op := Get(req, "op").s;
              op in PoolOps ==>
                out == poolOp(op, PoolOpArgs(op, req)) && effects == old(effects) + [PoolOp(op, PoolOpArgs(op, req))]
      ensures Get(req, "op").s == "create-erasure-profile" ==> out.Returned?
      ensures Get(req, "op").s != "create-erasure-profile" ==> profiles == old(profiles)
      ensures Get(req, "op").s != "create-pool" ==> pools == old(pools)
    {
      var op := Get(req, "op").s;
      if op in PoolOps {
        var args := PoolOpArgs(op, req);
        effects := effects + [PoolOp(op, args)];
        out := poolOp(op, args);
      } else if op in RgwOps {
        out := DispatchRgw(op, req);
      } else {
        out := DispatchPool(op, req);
      }
    }

    /** The ops on pools and the file system that have handlers here. */
    method DispatchPool(op: string, req: Request) returns (out: Outcome)
      requires op in KnownOps - PoolOps - RgwOps
      modifies this`effects, this`pools, this`profiles
      ensures op == "create-erasure-profile" ==> out.Returned?
      ensures op != "create-erasure-profile" ==> profiles == old(profiles)
      ensures op != "create-pool" ==> pools == old(pools)
    {
      var ret: Ret;
      if op == "create-pool" {
        if Get(req, "pool-type") == JStr("erasure") {
          ret := HandleErasurePool(req);
          out := Returned(ret);
        } else {
          out := HandleReplicatedPool(req);
        }
      } else if op == "create-erasure-profile" {
        ret := HandleCreateErasureProfile(req);
        out := Returned(ret);
      } else {
        out := DispatchChecked(op, req);
      }
    }

    /** The ops that check existing pools or keys and create nothing. */
    method DispatchChecked(op: string, req: Request) returns (out: Outcome)
      requires op in {"create-cephfs", "create-cache-tier", "remove-cache-tier", "set-pool-value"}
      modifies this`effects
      ensures op in {"create-cache-tier", "remove-cache-tier"} ==> out.Returned?
      ensures op == "create-cephfs" ==> (out.Raised? <==> CephfsReady(req, pools) && !CephfsArgsAreStrings(req))
      ensures old(effects) <= effects && |effects| <= |old(effects)| + 1
      ensures var cold := Str(Get(req, "cold-pool"));
              var hot := Str(Get(req, "hot-pool"));
              op in {"create-cache-tier", "remove-cache-tier"} ==>
                (out == Returned(NoDict) <==> cold in pools && hot in pools)
      ensures op == "create-cephfs" ==>
                (effects != old(effects) <==> CephfsReady(req, pools) && CephfsArgsAreStrings(req))
    {
      if op == "create-cephfs" {
        out := HandleCreateCephfs(req);
      } else if op == "create-cache-tier" {
        var ret := HandleCreateCacheTier(req);
        out := Returned(ret);
      } else if op == "remove-cache-tier" {
        var ret := HandleRemoveCacheTier(req);
        out := Returned(ret);
      } else {
        out := HandleSetPoolValue(req);
      }
    }

    /** The radosgw ops. */
    method DispatchRgw(op: string, req: Request) returns (out: Outcome)
      requires op in RgwOps
      modifies this`effects
      ensures RgwOutcome(op, req, out, old(effects), effects)
      ensures op == "rgw-create-user" && !(Truthy(Get(req, "client-name")) && Truthy(Get(req, "display-name"))
                                           && Truthy(Get(req, "rgw-uid"))) ==>
                out == Returned(Dict(Failure("Missing client-name, display-name or rgw-uid")))
      ensures op in {"rgw-regionmap-update", "rgw-regionmap-default"} && !Truthy(Get(req, "client-name")) ==>
                out == Returned(Dict(Failure("Missing rgw-region or client-name params")))
    {
      if op in {"rgw-region-set", "rgw-zone-set"} {
        out := SetFromFile(op, req);
      } else if op == "rgw-regionmap-update" {
        out := HandleRegionmapUpdate(req);
      } else if op == "rgw-regionmap-default" {
        out := HandleRegionmapDefault(req);
      } else {
        out := HandleCreateUser(req);
      }
    }

    /** process_requests_v1: every op in turn; an unknown op answers at
        once; otherwise only the last op's return value is looked at. */
    method ProcessRequestsV1(ops: Json) returns (r: V1Result, ghost rets: seq<Ret>)
      modifies this`effects, this`pools, this`profiles
      ensures OpItems(ops).None? ==> r.V1Raised? && effects == old(effects)
      ensures OpItems(ops).Some? ==>
                var items := OpItems(ops).value;
                |rets| <= |items|
                && (forall k :: 0 <= k < |rets| ==> KnownOp(Broker.OpOf(items[k])))
                && (r.V1Reply? && |rets| == |items| ==>
                      r.reply == FinalReply(if rets == [] then NoDict else rets[|rets| - 1]))
                && (r.V1Reply? && |rets| < |items| ==>
                      !KnownOp(Broker.OpOf(items[|rets|])) && r.reply == UnknownOperation(Broker.OpOf(items[|rets|])))
      ensures r.V1Reply? ==> "exit-code" in r.reply
    {
      var items := OpItems(ops);
      rets := [];
      if items.None? {
        return V1Raised("TypeError: object has no len()"), rets;
      }
      var ret := NoDict;
      var i := 0;
      while i < |items.value|
        invariant 0 <= i <= |items.value| && |rets| == i
        invariant forall k :: 0 <= k < i ==> KnownOp(Broker.OpOf(items.value[k]))
        invariant ret == if rets == [] then NoDict else rets[|rets| - 1]
      {
        var item := items.value[i];
        if !item.JObj? {
          return V1Raised("AttributeError: object has no attribute 'get'"), rets;
        }
        var req := ToMap(item.entries);
        var op := Get(req, "op");
        if !KnownOp(op) {
          return V1Reply(UnknownOperation(op)), rets;
        }
        var out := Dispatch(req);
        if out.Raised? {
          return V1Raised(out.error), rets;
        }
        ret := out.ret;
        rets := rets + [ret];
        i := i + 1;
      }
      r := V1Reply(FinalReply(ret));
    }

    /** process_requests: the api-version gate around process_requests_v1. */
    method ProcessRequests(body: seq<(string, Json)>) returns (d: Response, v1: V1Result)
      modifies this`effects, this`pools, this`profiles
      ensures d == Respond(body, v1)
      ensures !RunsV1(ToMap(body)) ==> effects == old(effects) && pools == old(pools)
      ensures RunsV1(ToMap(body)) && "ops" !in ToMap(body) ==>
                v1.V1Raised? && "exit-code" in d && d["exit-code"] == JInt(1)
      ensures RunsV1(ToMap(body)) && v1.V1Reply? ==> "exit-code" in d
    {
      var reqs := ToMap(body);
      v1 := V1Raised("KeyError: 'ops'");
      if RunsV1(reqs) && "ops" in reqs {
        ghost var rets;
        v1, rets := ProcessRequestsV1(reqs["ops"]);
      }
      d := Respond(body, v1);
    }
  }

  /** A pool op's reply is passed on whatever it is: a failed earlier op
      is forgotten once a later op returns something other than a dict
      with an exit-code. */
  lemma EarlierFailureForgotten(failed: Response, last: Ret)
    requires "exit-code" in failed && failed["exit-code"] == JInt(1)
    requires !(last.Dict? && "exit-code" in last.d)
    ensures FinalReply(([Dict(failed)] + [last])[1]) == Success()
  {
  }

  /** When that reply is the last op's, process_requests returns it (with
      the request-id) and json.dumps raises TypeError: the caller receives
      no reply at all. */
  lemma UnparsableUserEscapes(body: seq<(string, Json)>)
    requires RunsV1(ToMap(body))
    ensures Dumps(Respond(body, V1Reply(FinalReply(Dict(UnparsableUserReply()))))).Err?
  {
    var d := Respond(body, V1Reply(FinalReply(Dict(UnparsableUserReply()))));
    assert "stderr" in d && !Encodable(d["stderr"]);
  }

  /** A later op whose return value is not a dict with an exit-code hides
      the unencodable reply: the answer is exit-code 0 and is encoded. */
  lemma LaterOpHidesUnparsableUser(body: seq<(string, Json)>, last: Ret)
    requires RunsV1(ToMap(body)) && Encodable(Get(ToMap(body), "request-id"))
    requires !(last.Dict? && "exit-code" in last.d)
    ensures Dumps(Respond(body, V1Reply(FinalReply(([Dict(UnparsableUserReply())] + [last])[1])))).Ok?
  {
    var d := Respond(body, V1Reply(FinalReply(([Dict(UnparsableUserReply())] + [last])[1])));
    assert d == WithRequestId(Success(), ToMap(body));
    assert forall k :: k in d ==> k == "exit-code" || k == "request-id";
  }
}
