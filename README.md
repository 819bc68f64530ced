# charms.ceph: rolling upgrades, device helpers, CRUSH buckets and the request broker

This project models the core of the charms.ceph library in Dafny. The
Juju charms for Ceph use that library on every unit of a cluster. Five parts are modelled.

- **The rolling-upgrade coordinator** of `charms_ceph/utils.py`.
  - Every monitor or OSD host sorts the cluster's members by name and finds
    its own rank.
  - It waits until the member ranked just before it has written its `_done`
    key into the monitors' shared key/value store.
  - It then upgrades itself. Before the upgrade it writes
    `"{service}_{name}_{version}_start"`, while upgrading it stamps `_alive`
    through a `WatchDog`, and afterwards it writes `_done`.
  - For the `luminous` release the monitors also wait at a barrier for each
    other.

  The store, the clock, `random.randrange(5, 30)`, the workload status and
  `sys.exit` live in the class `Runtime.World`. Every read, write, status
  change, sleep and exit is appended to its `trace`, so ordering properties
  are stated on the trace.
- **Helpers of the same file.** These are `parse_key`, `_partition_name`,
  `_get_osd_num_from_dirname`, `_is_int`, `calculate_volume_size`,
  `find_least_used_utility_device`, the output parsing of `get_pool_param`
  and `get_pool_quota`, the `apply_osd_settings` loop, and the processed-device
  bookkeeping of `osdize_dev`. The LVM volume allocation and command assembly
  of `_ceph_volume` are modelled too.
- **`Crushmap`** of `charms_ceph/crush_utils.py`. This covers parsing the
  decompiled map, allocating bucket ids, `ensure_bucket_is_present`, and
  writing the map back with `build_crushmap`.
- **The request brokers** `charms_ceph/broker.py` and `ceph/ceph_broker.py`.
  They cover the api-version gate, dispatch of a list of ops, the handlers'
  validation branches, and the group/service permission bookkeeping kept in
  the monitors' key store.
- **The two older copies of the coordinator**, `ceph/utils.py` and
  `ceph/__init__.py`. They are modelled beside the current one so that their
  differences are explicit: the plain ten-minute dead-predecessor rule, `None`
  for a missing rank, keys that do not match, and `ceph-disk` commands.

Structure:

- `world.dfy` (`Runtime`) holds the store, clock and trace. `wrappers.dfy` holds Option and Result.
- `sorting.dfy` has `sorted()` and string order. `text.dfy` has `str` methods, decimal text and scanning.
- The current coordinator:
  - `upgrade.dfy`: the rolling-upgrade coordinator;
  - `watchdog.dfy`: `WatchDog`;
  - `helpers.dfy`: the pure helpers;
  - `pool_queries.dfy`, `osd_settings.dfy`, `osd_devices.dfy` and `ceph_volume.dfy`: the remaining helpers.
- CRUSH: `crush_scan.dfy` holds the regex scanners and `crush.dfy` holds `Crushmap`.
- Brokers:
  - `broker_requests.dfy`: requests and responses;
  - `broker_permissions.dfy`: the permission store;
  - `broker.dfy` and `legacy_broker.dfy`: the current and older broker.
- Older coordinators: `legacy_utils.dfy` models `ceph/utils.py` and `ceph_init.dfy` models `ceph/__init__.py`.

## Model

| member | source | states |
|---|---|---|
| Runtime.UpgradeKeyInjective | charms_ceph/utils.py:2277-2310 | Two upgrade keys `{service}_{name}_{version}_{phase}` of one service and version are equal only for the same node and phase, so a unit's start, alive and done keys never collide with another unit's |
| Runtime.UpgradeKeyPhase | charms_ceph/utils.py:2325-2336 | The key names keep the three phases apart: equal keys of one node mean equal phases |
| Runtime.RandomDelay | charms_ceph/utils.py:2464-2466 | `random.randrange(5, 30)` yields a delay between 5 and 29 seconds |
| Runtime.World.KeyExists | charms_ceph/utils.py:2329-2332 | `monitor_key_exists` answers whether the key is in the store, changes nothing and logs one read |
| Runtime.World.KeyGet | charms_ceph/utils.py:2333-2336 | `monitor_key_get` returns the stored value or None, changes nothing and logs one read |
| Runtime.World.KeySetNow | charms_ceph/utils.py:2277-2278 | `monitor_key_set(key, time.time())` stores the current time under the key and logs the write |
| Sorting.SortByPermutes | charms_ceph/utils.py:2142 | `sorted()` returns a permutation of the member list |
| Sorting.SortBySorted | charms_ceph/utils.py:2580 | `sorted()` returns a list in ascending name order |
| Sorting.SortByKeeps | charms_ceph/utils.py:2142 | Sorting keeps exactly the members of the list, so a unit is found after sorting iff it was listed |
| Sorting.SortIntsSorted | charms_ceph/crush_utils.py:63 | The CRUSH ids are sorted ascending |
| Sorting.SortInts | charms_ceph/crush_utils.py:63 | The sorted ids are a permutation of the parsed ids |
| Sorting.LexTotal | charms_ceph/utils.py:532-545 | Python's string order is total, which the name comparisons of `CrushLocation` rely on |
| Sorting.LexTransitive | charms_ceph/utils.py:532-545 | Python's string order is transitive |
| Text.ParseNatToString | charms_ceph/crush_utils.py:60-62 | `int()` of the decimal text of a number gives the number back |
| Text.IntToStringRoundTrip | charms_ceph/crush_utils.py:137 | `int(str(i)) == i` for negative ids as well; the text is a valid integer literal |
| Text.SplitLines | charms_ceph/utils.py:1043 | `str.splitlines()`: no line contains a line break, only the empty string has no lines, and the first line is the text up to the first break |
| Text.SplitLinesJoin | charms_ceph/utils.py:1043 | For text whose only breaks are `\n`, the lines joined with `\n` give the text back, with a final `\n` when the text ends in one |
| Text.Strip | charms_ceph/utils.py:1048 | `str.strip()` gives the input without its maximal leading and trailing whitespace: the result is the infix that starts after the leading whitespace, with only whitespace before and after it, and no whitespace at its ends |
| Text.Find | charms_ceph/utils.py:1048 | `str.find` returns the first occurrence, or none when there is none |
| Text.Split | charms_ceph/utils.py:1048 | `str.split(sep)`: the parts joined with sep give the input back, the last part holds no sep, and every other part followed by sep has its first sep at its end, so each part is the text between consecutive separators |
| Helpers.FirstLineWith | charms_ceph/utils.py:1045-1048 | The first line containing `key` is found, with no earlier line containing it; none is found iff no line contains it |
| Helpers.ParseKey | charms_ceph/utils.py:1037-1049 | A single line is returned unchanged. Otherwise the result is the stripped text after `' = '` on the first line containing `key`, or None when no line has it. A `key` line without `' = '` raises IndexError. The copy at ceph/utils.py:1020-1032 is the same |
| Helpers.ParseKeyOfKeyring | charms_ceph/utils.py:1037-1049 | For `get` output (a header line, then `key = K`), parse_key returns K |
| Helpers.PartitionName | charms_ceph/utils.py:1754-1764 | The device name plus `p1` when it ends in a digit, plus `1` otherwise. An empty name raises IndexError |
| Helpers.PartitionNameRoundTrip | charms_ceph/utils.py:1754-1764 | The device name can be recovered from the first partition's name |
| Helpers.PartitionNamesCollide | charms_ceph/utils.py:1754-1764 | `x1p` and `x1` get the same first partition name, so the naming is not injective on all names |
| Helpers.OsdNumFromDirname | charms_ceph/utils.py:642-657 | The digits after the first `ceph-` followed by a digit are returned. When there is no such match, ValueError is raised |
| Helpers.OsdNumOfOsdDir | charms_ceph/utils.py:642-657 | For `ceph-N` the OSD number N is returned |
| Helpers.IsIntOfIntToString | charms_ceph/utils.py:705-711 | `_is_int` accepts the decimal text of every integer |
| Helpers.IsIntNeedsADigit | charms_ceph/utils.py:705-711 | `_is_int` rejects text without a digit |
| Helpers.FirstLeastIndex | charms_ceph/utils.py:1479-1483 | `min` keyed on the usage count picks a device of least usage, the first such on ties |
| Helpers.FindLeastUsedUtilityDevice | charms_ceph/utils.py:1468-1483 | The result is a listed device with the fewest partitions (or LVs), the first one on ties. An empty list raises ValueError. The copy at ceph/utils.py:1359-1374 is the same |
| Helpers.CalculateVolumeSize | charms_ceph/utils.py:1835-1871 | Unknown types raise KeyError. An unset or zero setting gives the default (db 1024, wal 576, journal 1024). Otherwise the configured size is divided by the unit (bytes to MB for db and wal, 1 for journal). The copy at ceph/utils.py:1682-1717 is the same |
| Helpers.VolumeSizeOfMegabytes | charms_ceph/utils.py:1859-1870 | A setting of N megabytes in the type's unit yields N |
| WatchDogs.WatchDog.constructor | charms_ceph/utils.py:2421-2434 | The dog starts with no kick and no run, the given interval and kick function, and the current time as start |
| WatchDogs.WatchDog.KickTheDog | charms_ceph/utils.py:2436-2448 | Every call records the kick time. The kick function (an `_alive` write) runs, and the last-run time moves, only on the first call or when more than the interval has passed since the last run |
| WatchDogs.FireTimes | charms_ceph/utils.py:2436-2448 | Over a series of calls, the kicks that fire are a subsequence of the calls |
| WatchDogs.FireTimesSpaced | charms_ceph/utils.py:2442-2448 | Consecutive fired kicks are more than the interval apart |
| WatchDogs.FirstCallFires | charms_ceph/utils.py:2443-2446 | The first call always fires |
| WatchDogs.LastRunIsRecent | charms_ceph/utils.py:2442-2448 | After any non-empty series of calls the last run is at most one interval before the last call |
| WatchDogs.WaitUntil | charms_ceph/utils.py:2451-2467 | The result is complete iff the awaited key is present. It is a timeout only after more than `timeout` seconds. The loop reads only that key, writes nothing, and spends at most timeout plus one delay |
| WatchDogs.TimedWaitVerdict | charms_ceph/utils.py:2523-2543 | One round of `timed_wait`: completion is checked first. With no kick yet, the compatibility time applies; with a kick older than `max_kick_interval`, the dog is dead. After `wait_time`, it times out; otherwise the loop goes on |
| WatchDogs.TimedWaitEnds | charms_ceph/utils.py:2539-2540 | Past `wait_time`, every round decides |
| WatchDogs.KickingExtendsWait | charms_ceph/utils.py:2536-2540 | Recent kicks keep the wait going past the compatibility time, up to `wait_time` |
| WatchDogs.TimedWait | charms_ceph/utils.py:2469-2543 | The outcome is the verdict of the store at the end. Only the alive and done keys are read, nothing is written, and at most wait_time plus one delay is spent |
| Upgrade.CrushLocationEqIsNameEq | charms_ceph/utils.py:532-536 | `==` and `!=` of `CrushLocation` look only at the name and are each other's negation |
| Upgrade.CrushLocationTrichotomy | charms_ceph/utils.py:532-542 | Exactly one of `<`, `==`, `>` holds, and `>=` is `>` or `==` |
| Upgrade.LeAsWrittenIrreflexive | charms_ceph/utils.py:544-545 | As written, `a <= a` is false. The copy at ceph/__init__.py:436-437 is the same |
| Upgrade.LeIsLtOrEq | charms_ceph/utils.py:544-545 | The corrected `<=` is `<` or `==`, and is reflexive |
| Upgrade.GetUpgradePosition | charms_ceph/utils.py:2546-2561 | The index of the first entry with the given name. ValueError is raised iff no entry has that name |
| Upgrade.IndexOf | charms_ceph/utils.py:2145 | `list.index`: the first position of the name. ValueError is raised iff it is absent |
| Upgrade.PredecessorIsOther | charms_ceph/utils.py:2142-2161 | In the sorted list, the member ranked before a unit is another member and sorts no later |
| Upgrade.Predecessor | charms_ceph/utils.py:2147-2161 | Rank 0 has no predecessor; every other rank has one |
| Upgrade.WatchedKeysDisjoint | charms_ceph/utils.py:2325-2336 | The keys a unit watches on its predecessor are disjoint from its own keys |
| Upgrade.RunUpgrade | charms_ceph/utils.py:2185-2259 | During `upgrade_osd`/`upgrade_monitor` only the alive key is written (by the watchdog's kicks) and time only moves forward |
| Upgrade.UpgradeWithWatchDog | charms_ceph/utils.py:2281-2294 | The upgrade action runs under a fresh watchdog whose kicks write only the unit's `_alive` key |
| Upgrade.LockAndRoll | charms_ceph/utils.py:2262-2310 | The start key is written first, with the start time. Then comes the upgrade, for `osd` and `mon` only. Then status "maintenance" and the done key, last. A failed upgrade exits 1 with status blocked and no done key. An unknown service still gets both keys |
| Upgrade.LockAndRollKeysOrdered | charms_ceph/utils.py:2277-2310 | In a successful roll the start key is the first event and the done key the last |
| Upgrade.WaitOnPreviousNode | charms_ceph/utils.py:2313-2384 | It always returns, reading only the predecessor's start, alive and done keys, starting with start, and writing nothing, within two 30-minute waits plus one delay each. The wait for the start key never ends dead. When it times out, the start key is absent and more than 30 minutes have passed; otherwise the second wait runs, and its outcome is the `timed_wait` verdict of the store and the clock at the end |
| Upgrade.AllMonitorsDone | charms_ceph/utils.py:2104-2106 | True iff every monitor's `mon_{name}_{version}_done` key exists; only those keys are read |
| Upgrade.BarrierDecision | charms_ceph/utils.py:2107-2112 | A round raises iff more than ten minutes have passed. It sleeps and then ends iff all monitors are done within time |
| Upgrade.WaitForAllMonitorsToUpgrade | charms_ceph/utils.py:2086-2114 | It raises only after more than ten minutes and returns within ten minutes and thirty seconds. A return without raising means every monitor's done key was in the store at the final poll, 30 seconds before the end. It reads only monitors' done keys and writes nothing |
| Upgrade.BarrierRaisesWhenAllDoneLate | charms_ceph/utils.py:2104-2109 | Even when every monitor is done, a round that sees the deadline passed raises |
| Upgrade.RolledThen | charms_ceph/utils.py:2163-2173 | A roll's trace stays a roll when the luminous tail is appended |
| Upgrade.RollAfter | charms_ceph/utils.py:2147-2166 | Rank 0 rolls at once. Any other rank sets status "waiting", then waits on its predecessor, then calls lock_and_roll. The unit exits iff the upgrade fails and has written its done key otherwise |
| Upgrade.FinishMonitorRoll | charms_ceph/utils.py:2170-2173 | For `luminous` only, the barrier runs and then `bootstrap_manager`; otherwise nothing happens |
| Upgrade.RollMonitorCluster | charms_ceph/utils.py:2119-2177 | An empty monitor map gives status blocked and exit 1 before any key is touched. An unlisted unit gives status blocked and touches no key. Otherwise the sorted rank decides, and the roll follows `RollAfter` and then the luminous barrier |
| Upgrade.RollOsdCluster | charms_ceph/utils.py:2568-2620 | The tree is what get_osd_tree returns. None (a tree without nodes) makes `sorted` raise outside the `try`, and nothing is written. Otherwise the rank is the position in the name-sorted tree. An absent unit gives status blocked and touches no key. Otherwise the predecessor is the previous entry's name, the roll follows `RollAfter`, and the outcome is a return iff the upgrade succeeds |
| PoolQueries.GetPoolParam | charms_ceph/utils.py:2958-2981 | A failure with code 2 mentioning `ENOENT: option` is None, and any other failure raises. Output without `:` gives None. With `:` the result is the text between the first and the second `:` (or the end), stripped |
| PoolQueries.GetPoolParamOfReply | charms_ceph/utils.py:2976-2981 | `param: value` gives back the value |
| PoolQueries.MatchQuotaLine | charms_ceph/utils.py:3020 | The quota regex matches whitespace, `max`, a name without whitespace, `:` and a number |
| PoolQueries.QuotaLineRoundTrip | charms_ceph/utils.py:3020-3026 | A line as `ceph osd pool get-quota` prints it parses to its name and number |
| PoolQueries.QuotaNeedsLeadingSpace | charms_ceph/utils.py:3020 | A line not starting with whitespace does not match |
| PoolQueries.GetPoolQuota | charms_ceph/utils.py:3005-3026 | The dictionary is filled line by line from the matching lines |
| PoolQueries.QuotaKeys | charms_ceph/utils.py:3021-3026 | A key is in the result iff some line matches with that name |
| PoolQueries.QuotaLastWins | charms_ceph/utils.py:3021-3026 | A later matching line for the same name overwrites an earlier one |
| PoolQueries.QuotaOfStep | charms_ceph/utils.py:3021-3025 | Each line adds its match, if any, to the dictionary |
| OsdDevices.RecordedOnlyWhenUsable | charms_ceph/utils.py:1517-1617 | A device is recorded iff the key manager is supported and the device is new, exists and is a block device, and it is either a mounted OSD disk, or an unmounted non-OSD device that is an active bluestore device, or one that is no mapped LUKS device whose preparation succeeded (or failed with ignore_errors and lsblk output). A recorded device raises nothing |
| OsdDevices.UnsupportedKeyManagerRaises | charms_ceph/utils.py:1537-1538 | An unknown key manager raises ValueError before anything else |
| OsdDevices.RecordedDeviceSkipped | charms_ceph/utils.py:1543-1546 | A device already in `osd-devices` is skipped silently |
| OsdDevices.IntendedVerdict | charms_ceph/utils.py:1595-1609 | With lsblk output bound even when lsblk fails, there is no UnboundLocalError, and the outcome is as written whenever lsblk succeeds |
| OsdDevices.IgnoreErrorsRecordsFailure | charms_ceph/utils.py:1601-1604 | Under the corrected verdict, with ignore_errors a failed preparation of a usable device is recorded and raises nothing |
| OsdDevices.LsblkFailureDefeatsIgnoreErrors | charms_ceph/utils.py:1596-1604 | As written, a failing `lsblk` after a failed preparation raises UnboundLocalError even with ignore_errors |
| OsdDevices.UnitDb.OsdizeDev | charms_ceph/utils.py:1517-1617 | `osd-devices` gains the device exactly when the verdict records it. The list is saved whenever the key manager passes (the `finally`). A list without duplicates stays without duplicates |
| OsdDevices.OsdizeTwice | charms_ceph/utils.py:1543-1546 | When the first call records the device, a second call raises nothing and the list holds the device once, as after the first call |
| OsdSettings.CliKey | charms_ceph/utils.py:3342-3344 | The key keeps its length and every non-space character, and no space remains (spaces become `_`) |
| OsdSettings.Diff | charms_ceph/utils.py:3358-3361 | The settings to set are exactly those whose current value differs from the wanted one |
| OsdSettings.CommandsAt | charms_ceph/utils.py:3362-3372 | One `ceph daemon osd.N config set` per stale setting, in sorted key order |
| OsdSettings.RunCommandsMeaning | charms_ceph/utils.py:3362-3372 | The set loop stops at the first failing command. It succeeds iff every command succeeds, and it issues only a prefix of its commands |
| OsdSettings.DiffOfIsDiff | charms_ceph/utils.py:3347-3361 | The diff built from the values read equals the diff against the current values |
| OsdSettings.ReadSettings | charms_ceph/utils.py:3347-3357 | The get loop fails iff some key cannot be read; otherwise it returns every current value |
| OsdSettings.WriteSettings | charms_ceph/utils.py:3362-3372 | The set loop issues its commands in order and stops at the first failure |
| OsdSettings.ApplyToOsd | charms_ceph/utils.py:3345-3372 | One OSD's step: read, diff, set |
| OsdSettings.OsdStepOutcome | charms_ceph/utils.py:3345-3372 | A get failure issues nothing, and a set failure reports the failed set; otherwise every stale setting is set |
| OsdSettings.NoRedundantSet | charms_ceph/utils.py:3358-3372 | Every issued command sets a listed setting on a local OSD whose value differed |
| OsdSettings.AppliedSetsEverything | charms_ceph/utils.py:3345-3373 | When the whole call returns True, every setting of every OSD was current or has been set |
| OsdSettings.ApplyIdempotent | charms_ceph/utils.py:3358-3361 | When all values are already current, nothing is set and the call succeeds |
| OsdSettings.StaleSettingPlanned | charms_ceph/utils.py:3358-3362 | A stale setting is planned for setting |
| OsdSettings.PlannedIsStale | charms_ceph/utils.py:3358-3362 | Only stale settings are planned |
| OsdSettings.ApplyOsdSettings | charms_ceph/utils.py:3327-3373 | The method with its loops over OSDs and keys computes exactly the specification `ApplySpec` |
| CephVolume.ExpectedKindsShape | charms_ceph/utils.py:1690-1749 | Bluestore gives data then optional wal and db. Filestore gives an on-disk journal (none listed) or data then a shared journal |
| CephVolume.Host.InitializeDisk | charms_ceph/utils.py:1888-1933 | With vaultlocker (encrypt with the vault key manager), an existing LUKS mapping is reused, or the device is encrypted once; the path is `/dev/mapper/crypt-UUID`. Otherwise it is the device itself |
| CephVolume.Host.VolumeGroupOf | charms_ceph/utils.py:1966-1979 | An existing PV keeps its VG and issues nothing. A new PV gets `ceph-FSID`, or `ceph-TYPE-UUID` when shared, issuing pvcreate, a rescan when its path is missing, and vgcreate |
| CephVolume.Host.CreateLogicalVolume | charms_ceph/utils.py:1981-1982 | The LV is created only when absent, issuing lvcreate then, so LV names stay distinct |
| CephVolume.Host.AllocateLogicalVolume | charms_ceph/utils.py:1936-1984 | The LV `osd-TYPE-FSID` exists afterwards and LV names stay distinct. A shared allocation draws a new uuid, and one more for a new shared VG; otherwise the fsid is used. The LUKS map, the present paths and the issued commands are stated in full: vaultlocker when it encrypts, then pvcreate/rescan/vgcreate for a new PV, then lvcreate when the LV is absent |
| CephVolume.Host.LeastUsed | charms_ceph/utils.py:1725-1726 | The chosen device carries the fewest LVs among those listed |
| CephVolume.Host.CephVolume | charms_ceph/utils.py:1666-1751 | The command starts `ceph-volume lvm create --osd-fsid F` with the store flag, and `--dmcrypt` for ceph-managed encryption. Each volume argument names an LV `osd-TYPE-F` that now exists, in the expected order |
| CephVolume.Host.BluestoreVolumes | charms_ceph/utils.py:1713-1735 | Bluestore arguments are `--data`, then `--block.wal` and `--block.db` when such devices are configured |
| CephVolume.Host.FilestoreVolumes | charms_ceph/utils.py:1701-1718 | Filestore arguments are an on-disk journal when no journal device is listed, then `--data`, then a shared journal when listed |
| CephVolume.Host.OwnVolume | charms_ceph/utils.py:1701-1718 | A volume on the OSD device itself (the on-disk journal, the data or block volume) appends exactly one argument, on that device, after the earlier ones unchanged; its LV exists afterwards and LV names stay distinct |
| CephVolume.Host.SharedVolume | charms_ceph/utils.py:1724-1733 | The shared LV `osd-TYPE-F` is allocated on the device that was least used before the call; it exists afterwards, no LV is lost, and LV names stay distinct |
| CephVolume.Host.MaybeShared | charms_ceph/utils.py:1721-1749 | An empty device list leaves the arguments unchanged. Otherwise exactly one volume argument is appended, on the device that was least used before the call |
| CephVolume.Pushed | charms_ceph/utils.py:1703-1749 | Appending a flag and path keeps the command equal to its arguments flattened |
| CrushScan.FindIds | charms_ceph/crush_utils.py:50 | Every match of `id\s+(-?\d+)` is an integer literal |
| CrushScan.FindRoots | charms_ceph/crush_utils.py:45 | Every match of the root regex yields a one-line name and an integer literal id |
| CrushScan.IntAtOfString | charms_ceph/crush_utils.py:50 | The decimal text of an id is scanned back whole |
| Crush.BucketOfText | charms_ceph/crush_utils.py:135-138 | A `CRUSHBucket` keeps the name and default flag and converts the id with `int()` |
| Crush.BucketIdIsInteger | charms_ceph/crush_utils.py:137-147 | `-01` and `-1` make equal buckets; the default flag takes part in equality |
| Crush.BucketNamesAgree | charms_ceph/crush_utils.py:24-39 | The bucket text names the same bucket in `root NAME` and in the rule's `step take NAME` |
| Crush.HeadParsesBack | charms_ceph/crush_utils.py:24-25 | The root regex finds the name and id at the head of a bucket block |
| Crush.BucketBlockParsesBack | charms_ceph/crush_utils.py:127-129 | The root pattern tried at the first character of a block from `bucket_string(name, id)` reads back that name and id, whatever surrounds the block |
| Crush.DefaultsAddNothing | charms_ceph/crush_utils.py:119-123 | Default buckets add nothing to the written map |
| Crush.OnlyDefaultsWriteBackUnchanged | charms_ceph/crush_utils.py:116-125 | A map with only default buckets is written back unchanged |
| Crush.AddedBlockParsesBack | charms_ceph/crush_utils.py:116-125 | After a bucket's block is appended, the root pattern tried right after its blank line reads back the bucket's name and id |
| Crush.AddedBucketFound | charms_ceph/crush_utils.py:45 | When the left-to-right scan of `re.findall` lands on the added block, the bucket's name and id are among the roots found |
| Crush.RootlessScanReachesBlock | charms_ceph/crush_utils.py:116-125 | When `root` occurs nowhere in the map before the block, the scan lands on the block |
| Crush.AddedToRootlessMapFound | charms_ceph/crush_utils.py:116-125 | A map without `root`, written back with an added bucket, yields that bucket among the roots when parsed again |
| CrushScan.FoundWhenReached | charms_ceph/crush_utils.py:45 | A match at a position the scan reaches is among the matches `re.findall` returns |
| CrushScan.ScanReachesWithoutRoot | charms_ceph/crush_utils.py:45 | With no `root` between the start and a position, the scan reaches that position |
| Crush.MinOf | charms_ceph/crush_utils.py:97 | `min(ids)` is an element no greater than any other |
| Crush.InitialIdsSorted | charms_ceph/crush_utils.py:60-72 | The ids are all parsed ids sorted ascending, or `[0]` when none are found |
| Crush.CheckOutput | charms_ceph/crush_utils.py:78-79 | A plain string passed as stdin fails with AttributeError `fileno`; a file object runs the command |
| Crush.LoadCrushmapAsWritten | charms_ceph/crush_utils.py:74-84 | As written, a failing `ceph osd getcrushmap` raises CalledProcessError |
| Crush.LoadAsWrittenNeverLoads | charms_ceph/crush_utils.py:76-80 | As written, `crush.stdout` on a str always raises AttributeError, so no map is ever loaded |
| Crush.LoadCrushmap | charms_ceph/crush_utils.py:74-84 | Corrected: the map loads iff both commands succeed and is the decompiled text; a failing fetch raises CalledProcessError |
| Crush.SaveAsWrittenNeverSaves | charms_ceph/crush_utils.py:101-114 | As written, passing a str as stdin always fails, so nothing is ever saved |
| Crush.SaveMap | charms_ceph/crush_utils.py:101-114 | Corrected: compile then `setcrushmap`. It succeeds iff both succeed, with the second's output; a failing compile raises |
| Crush.Crushmap.constructor | charms_ceph/crush_utils.py:56-72 | The text is kept. Every root match becomes a default bucket, and the ids are the sorted parsed ids or `[0]` |
| Crush.Crushmap.AddBucket | charms_ceph/crush_utils.py:95-99 | The new id is `min(ids) - 1`, below every existing id. It is appended to the ids, and a non-default bucket is appended to the buckets |
| Crush.Crushmap.BuildCrushmap | charms_ceph/crush_utils.py:116-125 | The loaded text followed by `"\n\n" + bucket_string` of each non-default bucket, in order |
| Crush.Crushmap.Save | charms_ceph/crush_utils.py:101-114 | The built map is saved; on success it is recorded as saved; buckets and ids are unchanged |
| Crush.Crushmap.EnsureBucketIsPresent | charms_ceph/crush_utils.py:86-89 | A known name changes nothing. A new name gets a bucket through `add_bucket` and one save |
| Crush.EnsureTwice | charms_ceph/crush_utils.py:86-89 | Two calls with one name add the bucket at most once and save at most once; the second call returns no error |
| Crush.FirstBucketOnEmptyMap | charms_ceph/crush_utils.py:69-72 | On a map without ids the first added bucket gets id -1 |
| BrokerRequests.StrOfStrings | charms_ceph/broker.py:137-143 | `str()` of a string, None and an int, as messages format them |
| BrokerRequests.ToMap | charms_ceph/broker.py:105-111 | The decoded request has exactly the keys of its entries |
| BrokerRequests.Get | charms_ceph/broker.py:124 | `dict.get` of an absent key is None |
| BrokerRequests.Success | charms_ceph/broker.py:905 | `{'exit-code': 0}` |
| BrokerRequests.Failure | charms_ceph/broker.py:180-181 | `{'exit-code': 1, 'stderr': msg}` |
| BrokerRequests.FinalReply | charms_ceph/broker.py:902-905 | The last op's return value is the reply when it is a dict with `exit-code`; otherwise the reply is exit-code 0 |
| BrokerRequests.UnknownOperation | charms_ceph/broker.py:897-900 | An unknown op answers `Unknown operation '<op>'` with exit-code 1 |
| BrokerRequests.OpItems | charms_ceph/broker.py:828-840 | A list of ops is iterated. None or a number raises TypeError. An empty list gives no ops |
| BrokerRequests.WithRequestId | charms_ceph/broker.py:124-131 | A truthy `request-id` is echoed in the response; otherwise the response is unchanged |
| BrokerRequests.Respond | charms_ceph/broker.py:115-147 | A version that is not equal to 1 (`1`, `True` and `1.0` all are), or an exception in v1, answers exit-code 1. Version 1 answers the v1 reply |
| BrokerRequests.BadVersionRefused | charms_ceph/broker.py:143-147 | A version not equal to 1 in Python's sense answers `Missing or invalid api version (v)`, with the request id echoed |
| BrokerRequests.FloatVersionOneAnswered | charms_ceph/broker.py:126 | An api-version written as the float `1.0` passes the gate as `1` does, and the v1 reply is the answer |
| BrokerRequests.Dumps | charms_ceph/broker.py:105-111 | `json.dumps` of the reply succeeds, unchanged, iff every value in it can be encoded; an exception object cannot |
| BrokerRequests.FailureEncoded | charms_ceph/broker.py:105-111 | The exit-code replies built from strings and integers are always encoded |
| BrokerRequests.VersionOneAnswered | charms_ceph/broker.py:124-132 | Version 1 returns the v1 reply, with the request id echoed |
| BrokerRequests.MissingVersionReportsNone | charms_ceph/broker.py:125-143 | A request without `api-version` reports `(None)` |
| BrokerPermissions.StoreKeysDistinct | charms_ceph/broker.py:377-395 | `cephx.groups.NAME` and `cephx.services.NAME` keys never collide and are injective in the name |
| BrokerPermissions.NamespacedName | charms_ceph/broker.py:265-268 | With a namespace the group is `{namespace}-{group}`; otherwise it is the group |
| BrokerPermissions.GetGroup | charms_ceph/broker.py:356-374 | A stored group is returned; a missing, empty or unparsable one is `{'pools': [], 'services': []}` |
| BrokerPermissions.ReadGroupsReads | charms_ceph/broker.py:329-353 | Every listed group is read through get_group |
| BrokerPermissions.BuildServiceGroupsReads | charms_ceph/broker.py:329-353 | `_build_service_groups` maps each group name to its stored group |
| BrokerPermissions.GetServiceGroupsDefaults | charms_ceph/broker.py:298-326 | A missing or unparsable service record is `{'group_names': {}, 'groups': {}}`; otherwise its groups are rebuilt from the store |
| BrokerPermissions.LookupFinds | charms_ceph/broker.py:298-326 | A lookup finds the entry with the key iff there is one |
| BrokerPermissions.PutSets | charms_ceph/broker.py:220-230 | Setting a key replaces its entry or appends one, leaving other keys alone |
| BrokerPermissions.PoolGrants | charms_ceph/broker.py:284-288 | One `allow PERM pool=POOL` per pool of a group, in order |
| BrokerPermissions.ObjectGrants | charms_ceph/broker.py:289-293 | One `allow PERM object_prefix PREFIX` per prefix, in order |
| BrokerPermissions.CapsList | charms_ceph/broker.py:294-295 | `['mon', 'allow r, allow command "osd blacklist"', 'osd', joined]` |
| BrokerPermissions.PoolPermissionListForService | charms_ceph/broker.py:275-295 | A service whose groups are all known gets its caps list. A group missing from its groups raises KeyError |
| BrokerPermissions.PoolLines | charms_ceph/broker.py:279-288 | The pool lines are the rendered grants of each permission's groups |
| BrokerPermissions.GroupsLines | charms_ceph/broker.py:284-288 | The lines for one permission's groups |
| BrokerPermissions.GroupLines | charms_ceph/broker.py:286-288 | The lines of one group's pools |
| BrokerPermissions.PrefixLines | charms_ceph/broker.py:289-293 | The object-prefix lines |
| BrokerPermissions.ObjectLines | charms_ceph/broker.py:291-293 | The lines for one permission's prefixes |
| BrokerPermissions.PermGrantsPerms | charms_ceph/broker.py:279-288 | Every pool grant carries one of the service's permissions |
| BrokerPermissions.PermGrantsSorted | charms_ceph/broker.py:279-288 | Pool grants come in sorted permission order when the permissions are sorted |
| BrokerPermissions.PermGrantsComplete | charms_ceph/broker.py:279-288 | A pool is granted a permission iff one of the permission's groups holds the pool |
| BrokerPermissions.PermGrantsDefined | charms_ceph/broker.py:286-287 | The grants exist iff every named group is known |
| BrokerPermissions.RebuiltGroupsCoverNames | charms_ceph/broker.py:298-353 | Groups rebuilt from the store cover every group name, so the caps list never raises on them |
| BrokerPermissions.ServicePoolGrantsSorted | charms_ceph/broker.py:279-288 | A service's pool grants follow sorted permission order |
| BrokerPermissions.PrefixGrantsLast | charms_ceph/broker.py:279-293 | Object-prefix grants come after all pool grants |
| Broker.AsInt | charms_ceph/broker.py:458-465 | The pg_num and replicas integers as Python sees them (an int, or a bool as 0/1) |
| Broker.FloorDiv | charms_ceph/broker.py:464 | Python's `//` floors for either sign of divisor |
| Broker.CappedPgNum | charms_ceph/broker.py:458-465 | With OSDs present, pg_num becomes `min(pg_num, osds*100 // replicas)`. Division by zero or None raises |
| Broker.CapBoundsPlacementGroups | charms_ceph/broker.py:458-465 | The capped pg_num is at most the requested one and at most the cap |
| Broker.ReplicatedRequestUntouched | charms_ceph/broker.py:458-460 | Without pg_num or without OSDs the request is untouched |
| Broker.WithPool | charms_ceph/broker.py:262-272 | The pool is appended to the group only if absent, and the services are kept |
| Broker.WithService | charms_ceph/broker.py:220-221 | The service is appended to the group only if absent |
| Broker.AppendNew | charms_ceph/broker.py:220-225 | Append only when absent |
| Broker.AppendNewKeepsDistinct | charms_ceph/broker.py:220-225 | Appending only when absent keeps a list duplicate-free, is idempotent, and leaves the element once |
| Broker.WithGroupNameLists | charms_ceph/broker.py:222-225 | The group name is listed under its permission once, and other permissions are unchanged |
| Broker.Recaps | charms_ceph/broker.py:271-272 | The members' caps, in order, stopping at the first member that cannot be computed |
| Broker.RecapsStops | charms_ceph/broker.py:271-272 | A member whose caps raise stops the loop there |
| Broker.RecapsOfRebuiltServices | charms_ceph/broker.py:271-272 | For services rebuilt from the store the loop never stops early |
| Broker.GroupSavedTwice | charms_ceph/broker.py:262-272 | Adding the same pool twice saves the same group and lists the pool once |
| Broker.Cluster.SaveGroup | charms_ceph/broker.py:385-390 | The group is stored under its name; nothing else changes |
| Broker.Cluster.SaveService | charms_ceph/broker.py:377-382 | The service is stored with its `groups` emptied; nothing else changes |
| Broker.Cluster.UpdateServicePermissions | charms_ceph/broker.py:250-259 | The caps of the service are set via `ceph auth caps` when computable |
| Broker.Cluster.AddPoolToGroup | charms_ceph/broker.py:262-272 | The pool is added to the (namespaced) group once and the group saved, then every member service's caps are refreshed |
| Broker.Cluster.RefreshMembers | charms_ceph/broker.py:271-272 | Each member's caps are set in order until one fails |
| Broker.Cluster.HandleAddPermissionsToKey | charms_ceph/broker.py:200-235 | The service joins the group once, the group name is listed once under the permission (default `rwx`), the records are saved and caps updated |
| Broker.Cluster.RecordPermission | charms_ceph/broker.py:209-226 | The stored group and service record after the request |
| Broker.PermissionOf | charms_ceph/broker.py:219 | The permission defaults to `rwx` |
| Broker.ServiceRecordListsGroupOnce | charms_ceph/broker.py:222-226 | The service record lists the group under its permission exactly once |
| Broker.NamespacedGroupPrefixedTwice | charms_ceph/broker.py:209-226 | With a namespace, the group is saved as `ns-grp` and listed under that name, but rebuilding the service reads it from `ns-ns-grp`, another key |
| Broker.Cluster.HandleCreateErasureProfile | charms_ceph/broker.py:150-197 | A truthy failure-domain outside `CEPH_BUCKET_TYPES` fails with exit-code 1 and creates nothing; otherwise the profile is created and exit-code 0 is returned |
| Broker.ErasureProfileOf | charms_ceph/broker.py:409-410 | A missing erasure profile defaults to `default-canonical` |
| Broker.Cluster.HandleErasurePool | charms_ceph/broker.py:398-442 | The profile defaults to `default-canonical`. A requested group is joined first: the pool is added to the stored group and its services' caps are refreshed, and the handler raises when that fails. Without a group, groups and effects are untouched. After the join, an unknown profile answers `erasure-profile P does not exist` with exit-code 1 and an incomplete request answers `Missing parameter.`; neither creates a pool or adds an effect. Otherwise the pool exists afterwards: a PoolCreated effect when it was absent, then PoolUpdated |
| Broker.Cluster.HandleReplicatedPool | charms_ceph/broker.py:445-491 | The pg cap applies first; when it fails the handler raises with nothing changed. A requested group is then joined: the pool is added to the stored group and its services' caps are refreshed, and the handler raises when that fails. Without a group, groups and effects are untouched. After the join, an incomplete request answers `Missing parameter.` and creates no pool. Otherwise the pool exists afterwards: a PoolCreated effect when it was absent, then PoolUpdated |
| Broker.Cluster.CreateOrUpdate | charms_ceph/broker.py:436-442 | A pool is created only when absent and updated in either case |
| Broker.Cluster.JoinGroup | charms_ceph/broker.py:411-416 | A truthy `group` adds the pool to that group; otherwise nothing changes |
| Broker.Cluster.FinishPool | charms_ceph/broker.py:426-442 | An incomplete pool request answers `Missing parameter.` with exit-code 1 and changes nothing; otherwise the pool is created if absent and updated |
| Broker.Cluster.HandleSetPoolValue | charms_ceph/broker.py:543-582 | A key outside `POOL_KEYS` fails with exit-code 1 before validation; an invalid value raises; otherwise the value is set |
| Broker.Cluster.Dispatch | charms_ceph/broker.py:840-900 | create-erasure-profile always returns. Ops other than create-pool, create-erasure-profile, set-pool-value and add-permissions-to-key go to handlers outside the model and are recorded as such |
| Broker.Cluster.ProcessRequestsV1 | charms_ceph/broker.py:828-905 | Ops run in order. An unknown op answers at once. Otherwise the reply comes from the last op's return value |
| Broker.LastRetDecides | charms_ceph/broker.py:902-905 | Earlier return values do not affect the reply |
| Broker.Cluster.ProcessRequests | charms_ceph/broker.py:115-147 | The response is the version gate's answer. A bad version changes nothing. Missing `ops` raises inside the guard |
| LegacyBroker.KnownOpsGrew | ceph/ceph_broker.py:464-530 | The older broker knows fewer ops: the current one adds `move-osd-to-bucket`, `add-permissions-to-key` and `set-key-permissions` |
| LegacyBroker.PoolKeysGrew | ceph/ceph_broker.py:49 | The older `POOL_KEYS` lack `crush_rule` |
| LegacyBroker.StricterFailureDomain | ceph/ceph_broker.py:145-148 | The older check rejects every failure-domain outside `CEPH_BUCKET_TYPES`, None included |
| LegacyBroker.PgAfterCap | ceph/ceph_broker.py:200-205 | With truthy pg_num and OSDs present, pg_num is capped as in the current broker; otherwise it is untouched |
| LegacyBroker.CapPrecedesMissingCheck | ceph/ceph_broker.py:200-211 | The cap runs before the missing-parameter check, so missing replicas with pg_num raises TypeError |
| LegacyBroker.CappedPgBounded | ceph/ceph_broker.py:200-205 | The capped value is bounded by the request and the cap |
| LegacyBroker.KwargsAreTheTruthyOnes | ceph/ceph_broker.py:213-219 | Only truthy pg_num, weight and replicas are passed on |
| LegacyBroker.CreatedUnlessPresent | ceph/ceph_broker.py:223-229 | The pool is created iff absent |
| LegacyBroker.QuotaIfGiven | ceph/ceph_broker.py:232-233 | The quota is set iff one is given |
| LegacyBroker.PoolOpArgs | ceph/ceph_broker.py:496-514 | delete, rename and snapshot ops pass the pool name first |
| LegacyBroker.CommandRet | ceph/ceph_broker.py:302-308 | A failed `radosgw-admin`/`ceph` command answers its output with exit-code 1; success returns nothing |
| LegacyBroker.Cluster.HandleCreateErasureProfile | ceph/ceph_broker.py:135-152 | A bad failure-domain fails with exit-code 1 and creates nothing; otherwise the profile is created |
| LegacyBroker.Cluster.HandleErasurePool | ceph/ceph_broker.py:155-190 | A null name fails first. The profile defaults to `default-canonical` and an unknown one fails; neither creates anything. Otherwise the pool is created if absent, with the given weight, and a given quota set |
| LegacyBroker.Cluster.HandleReplicatedPool | ceph/ceph_broker.py:193-233 | Cap first, then the name/replicas check, then creation if absent with the truthy kwargs, then the quota |
| LegacyBroker.Cluster.HandleCreateCacheTier | ceph/ceph_broker.py:236-254 | Both pools must exist, else exit-code 1. The mode defaults to `writeback` |
| LegacyBroker.Cluster.HandleRemoveCacheTier | ceph/ceph_broker.py:257-269 | Both pools must exist, else exit-code 1; otherwise the tier is removed |
| LegacyBroker.Cluster.HandleSetPoolValue | ceph/ceph_broker.py:272-293 | A key outside `POOL_KEYS` fails before validation; an invalid value raises; otherwise the value is set |
| LegacyBroker.Cluster.RunCommand | ceph/ceph_broker.py:302-308 | The command is run and its failure answered |
| LegacyBroker.Cluster.HandleRegionmapUpdate | ceph/ceph_broker.py:296-308 | A missing client-name fails without running anything. A client-name that is not a string makes check_output raise TypeError before anything runs. Otherwise `regionmap update` runs and its failure output is the reply |
| LegacyBroker.Cluster.HandleRegionmapDefault | ceph/ceph_broker.py:311-329 | A missing region or client-name fails. Either one not being a string raises TypeError before anything runs. Otherwise `regionmap default` runs |
| LegacyBroker.Cluster.SetFromFile | ceph/ceph_broker.py:332-359 | Missing json, client, region or zone fails. A json that is not a string raises at the write. Otherwise the json is written to a temporary file. A zone or client name that is not a string then raises TypeError, leaving the file. Otherwise the command is run, and the file is removed only on success |
| LegacyBroker.Cluster.HandleCreateUser | ceph/ceph_broker.py:362-392 | Missing uid, display name or client fails. Any of them not being a string raises TypeError before anything runs. A failing command answers its output. Unparsable output answers exit-code 1 with the ValueError object itself as stderr. Otherwise the user JSON is returned |
| LegacyBroker.UnparsableUserReply | ceph/ceph_broker.py:387-389 | The reply to unparsable user output has exit-code 1 and a stderr value that JSON cannot encode |
| LegacyBroker.UnparsableUserEscapes | ceph/ceph_broker.py:92-97 | When that reply is the last op's, `json.dumps` of process_requests' answer raises TypeError, so the caller gets no reply |
| LegacyBroker.LaterOpHidesUnparsableUser | ceph/ceph_broker.py:532-535 | A later op whose return value is not a dict with an exit-code replaces that reply, and the answer encodes |
| LegacyBroker.Cluster.HandleCreateCephfs | ceph/ceph_broker.py:395-430 | Missing names fail. A missing data or metadata pool fails, in that order. A name that is not a string then raises TypeError before anything runs. Otherwise `fs new` runs |
| LegacyBroker.Cluster.Dispatch | ceph/ceph_broker.py:475-530 | delete, rename and snapshot ops go to pool commands with the pool name first. Only create-pool touches pools, only create-erasure-profile touches profiles, and create-erasure-profile always returns |
| LegacyBroker.Cluster.DispatchPool | ceph/ceph_broker.py:481-516 | The pool and profile ops of the dispatch |
| LegacyBroker.Cluster.DispatchChecked | ceph/ceph_broker.py:489-516 | Only set-pool-value and create-cephfs can raise; create-cephfs raises exactly when it gets as far as `fs new` with a name that is not a string. At most one effect is appended. The cache-tier ops return nothing iff both pools exist; create-cephfs acts iff its names are given and strings and both pools exist |
| LegacyBroker.Cluster.DispatchRgw | ceph/ceph_broker.py:517-526 | Effects are only appended. A missing parameter answers exit-code 1 and changes nothing, with the op's own message. An op raises exactly when its parameters are given but one it writes or passes to radosgw-admin is not a string. Then at most the temporary file has been written |
| LegacyBroker.Cluster.ProcessRequestsV1 | ceph/ceph_broker.py:464-535 | An unknown op answers at once; otherwise the last op's return value decides |
| LegacyBroker.Cluster.ProcessRequests | ceph/ceph_broker.py:102-132 | The response is the version gate's answer (`1`, `True` and `1.0` pass), with the request id echoed. A bad version changes nothing. Missing `ops` raises inside the guard |
| LegacyBroker.EarlierFailureForgotten | ceph/ceph_broker.py:532-535 | A failing op followed by a succeeding one answers exit-code 0, although the docstring says processing stops on error |
| LegacyUtils.NodesAmong | ceph/utils.py:583-598 | The tree lists the nodes whose id is among the first node's children |
| LegacyUtils.GetOsdTree | ceph/utils.py:565-598 | No nodes gives None; otherwise the children of the first node, in node order. The copy at ceph/__init__.py:440-471 is the same |
| LegacyUtils.UpgradePosition | ceph/utils.py:2154-2164 | The first index with the name, or None when there is none. The copy at ceph/__init__.py:1355-1359 is the same |
| LegacyUtils.UpgradePositionAgrees | ceph/utils.py:2154-2164 | It agrees with the current `get_upgrade_position` except that it returns None where that raises |
| LegacyUtils.OsdRollStepAsWritten | ceph/utils.py:2196-2223 | As written, an absent unit makes `osd_sorted_list[None - 1]` raise TypeError, which the `except ValueError` does not catch |
| LegacyUtils.AbsentHostCrashes | ceph/utils.py:2196-2223 | An absent unit crashes as written and is blocked as intended |
| LegacyUtils.IntendedOsdRollStep | ceph/utils.py:2220-2223 | Corrected: an absent unit sets status blocked `failed to upgrade osd` |
| LegacyUtils.OsdRollStepsAgree | ceph/utils.py:2196-2219 | When the unit is listed, the two steps agree and the predecessor is another unit |
| LegacyUtils.LockAndRoll | ceph/utils.py:2059-2098 | Start key first. The upgrade runs for osd/mon only. Then "maintenance" and the done key, or exit on failure |
| LegacyUtils.WaitOnPreviousNode | ceph/utils.py:2101-2151 | An existing done key returns at once without sleeping. It returns presuming the predecessor dead once a start value exists and `now - 600 > start`. Each other poll sleeps 5 to 29 seconds and re-reads the done key. It ends out of polls only after all 1 + 3 × bound reads, with the done key absent; otherwise it has read no more. Nothing is written |
| LegacyUtils.RecordedOnlyAfterPreparation | ceph/utils.py:1404-1495 | The older `osdize_dev` records a device iff every check passes and preparation succeeds or its failure is ignored |
| LegacyUtils.CurrentRecordsMore | ceph/utils.py:1442-1445 | Whatever the older copy records (other than a mapped LUKS device) the current one records too. A mounted OSD disk is recorded only by the current one |
| LegacyUtils.OsdizeDev | ceph/utils.py:1404-1495 | `osd-devices` gains the device exactly when recorded, is saved only then, and stays duplicate-free |
| LegacyUtils.Remove | ceph/utils.py:2605 | `list.remove` drops the first occurrence, and raises ValueError when absent |
| LegacyUtils.RemoveDropsFirst | ceph/utils.py:2605 | The first occurrence is dropped |
| LegacyUtils.PackageList.DeterminePackages | ceph/utils.py:2599-2607 | Outside a container the module list is returned unchanged; in a container `ntp` is removed from the module list itself |
| LegacyUtils.SecondCallInContainerRaises | ceph/utils.py:2604-2607 | The first call in a container removes `ntp`; a second call raises ValueError |
| LegacyUtils.IntendedPackages | ceph/utils.py:2599-2607 | Corrected: in a container every package but `ntp`, on every call; otherwise the full list |
| CephInit.OldKey | ceph/__init__.py:1319 | The oldest waiter's keys are `{prev}_{version}_{phase}` |
| CephInit.OldKeysNeverWritten | ceph/__init__.py:1297-1333 | The keys the oldest waiter reads are never keys that `lock_and_roll` writes |
| CephInit.LockAndRoll | ceph/__init__.py:1289-1311 | Start key, then `upgrade_osd`, then the done key; a failed upgrade exits 1 with status blocked |
| CephInit.MonitorsRunTheOsdUpgrade | ceph/__init__.py:1301 | A monitor's roll runs the OSD upgrade and never the monitor upgrade |
| CephInit.WaitRound | ceph/__init__.py:1331-1352 | Each round reads the start key. An absent start spins without sleeping or polling (Python 2 orders None below numbers). A present start is a string, which Python 2 orders above every number, so the round never presumes the predecessor dead: it sleeps 5 to 29 seconds and re-reads the done key |
| CephInit.WaitRounds | ceph/__init__.py:1331-1352 | The rounds end only when the done key is present or the poll bound is used up, never presuming the predecessor dead. With no start key they only spin |
| CephInit.WaitOnPreviousNode | ceph/__init__.py:1314-1352 | A done key present at first returns at once. It never returns presuming the predecessor dead. It ends done only with the done key present, and out of polls only after more than the bound's polls with the done key absent. Without a start key, the loop spins re-reading the start key, without sleeping |
| CephInit.WaitForTurn | ceph/__init__.py:1237-1241 | Status blocked `Waiting on P to finish upgrading`, then the wait |
| CephInit.RollAfter | ceph/__init__.py:1231-1242 | Rank 0 rolls at once; other ranks open and wait first |
| CephInit.RollOsdCluster | ceph/__init__.py:1366-1407 | No tree crashes in `sorted(None)`. An absent unit crashes with TypeError. Otherwise rank 0 rolls at once and others wait on the previous name first |
| CephInit.RollMonitorCluster | ceph/__init__.py:1206-1246 | An empty map blocks and exits 1. An unlisted unit is blocked. Otherwise rank by sorted name, then wait and roll as `mon` |
| CephInit.LastLineWithIsLast | ceph/__init__.py:884-886 | The last line containing `key` is found; none iff no line contains it |
| CephInit.ParsableLinesAll | ceph/__init__.py:884-886 | The loop succeeds iff every `key` line has a `' = '` |
| CephInit.ParseKey | ceph/__init__.py:875-887 | A single line is returned unchanged; for more lines the last line containing `key` wins |
| CephInit.LastKey | ceph/__init__.py:884-887 | The loop over the lines returns the last key line's value or None; a `key` line without `' = '` raises |
| CephInit.FirstAndLastKeyLines | ceph/__init__.py:884-887 | With one key line the oldest and the current parse_key agree |
| CephInit.LastKeyLineWins | ceph/__init__.py:884-887 | With two key lines the oldest copy takes the second and the current one the first |
| CephInit.FindLeastUsedJournal | ceph/__init__.py:1096-1099 | A journal with the fewest partitions; an empty list raises |
| CephInit.OsdizeDev | ceph/__init__.py:1111-1161 | Missing and non-block devices, OSD disks without reformat, and mounted devices are skipped. Otherwise the command is `ceph-disk prepare`, then `--dmcrypt` only for encryption on ceph ≥ 0.60. On ≥ 0.48.3 come `--fs-type F`, `--zap-disk` when reformatting, the device, then the least used journal. Older versions get the device alone and zap it when reformatting. A failure raises unless ignored |

## Left out

- Shell commands (`ceph`, `crushtool`, `radosgw-admin`, `ceph-volume`, `lvm`, `cryptsetup`, `vaultlocker`, `lsblk`) are parameters or oracle functions. Their results are inputs; what they do inside is not modelled.
- charmhelpers are parameters too. `monitor_key_*` is the store of `Runtime.World`. The other members' writes are an arbitrary function of time, `peers`. `get_mon_map`, `kv()`, `ReplicatedPool`/`ErasurePool`, `validator` and `create_erasure_profile` are parameters or recorded effects.
- JSON decoding is left out. Requests, stored groups and services are datatypes. An unparsable stored record is the `Unreadable` value.
- ProcessRequests returns the reply dict before `json.dumps`. The encoding step of `decode_req_encode_rsp` is the separate `Dumps`, which only decides whether the reply can be encoded; the JSON text itself is not modelled.
- Floating point: timestamps are whole seconds. `calculate_volume_size`'s true division is floor division on integers. Float pool validators are an oracle `validValue`.
- CalculateVolumeSize: the configured size is taken as already read as an integer. The ValueError that `int(configured_size)` raises on a non-numeric option is not modelled.
- Status and log messages are recorded as events. `log()` is left out.
- Several units interleaving on the store is left out. Only one unit's protocol against the store is modelled.
- The inner steps of `upgrade_osd` and `upgrade_monitor` are left out: apt, services, chown and mkdir. They are one run of work stretches with watchdog kicks that succeeds or fails. Its failure message uses the version requested.
- `osdize_dir`, `_ceph_disk`, `get_osd_tree`'s JSON parsing and the `is_*` probes are left out. The probes are the `DeviceProbe` fields.
- The `umount` of ceph/__init__.py is a foreign ctypes call and is not modelled.
- In both brokers these ops are dispatched to an oracle `otherOp` and not modelled further: cache tiers (current broker), pool delete, rename and snapshot, rgw ops (current broker), `move-osd-to-bucket`, `set-key-permissions` and `create-cephfs` (current broker).
- CephInit.WaitOnPreviousNode: the loop can spin forever without a start key, and polls forever with one until the done key appears. The model bounds it with `fuel` polls and reports `OutOfPolls`.
- CephInit.RollOsdCluster: the `StillWaiting` outcome stands for running out of that bound.
- LegacyUtils.WaitOnPreviousNode: the unbounded loop is bounded by `fuel` polls. Running out of them is the model's bound, not a give-up of the source.
- Upgrade.WaitOnPreviousNode: the 30-minute waits are modelled. The real waits also log elapsed minutes, and that is left out.
- Broker.Cluster.Dispatch: only the ops listed above the oracle are modelled in detail.
- The `request-id` of a response is echoed as the request's JSON value. No string conversion happens.
- IsSpace, IsDigit and the members that use them (Strip, SplitLines, ParseInt, FindIds, FindRoots, IsInt, ParseKey, GetPoolParam, MatchQuotaLine): white space is the ASCII and Latin-1 set and digits are `0`-`9`. Python 3's `\s`, `\d`, `str.strip()` and `int()` also accept the other Unicode spaces and decimal digits, which the model does not.
- ProcessRequests (both brokers), AsInt, CappedPgNum, PgAfterCap: a JSON float `pg_num` or `replicas` is computed on by the source in floating point; the model answers with an error instead. Only the api-version gate reads floats (as equal to 1 or not).
- BucketBlockParsesBack, AddedBlockParsesBack: they state the match at the block's position. That `re.findall` over the whole map returns it is AddedBucketFound, under the hypothesis that the scan lands on the block; this is shown outright only for maps in which `root` does not occur (AddedToRootlessMapFound). Text ending in `root` and white space before the block can hide it.
- SplitLinesJoin: the round trip is proved only for text whose only line break is `\n`.
- The current broker's rgw handlers are not modelled. Its `handle_rgw_create_user` puts the ValueError object, or the bytes output of a failed command, into the reply as the older copy does.

## Findings

| source | as written | input that shows it | evidently intended | confidence | as-written member | corrected member |
|---|---|---|---|---|---|---|
| charms_ceph/utils.py:544-545 | `__le__` returns `self.name < other.name` | any location `a`: `a <= a` is False | `<=` means less than or equal | not executed; high | Upgrade.LeAsWrittenIrreflexive | Upgrade.LeIsLtOrEq |
| ceph/utils.py:2196-2223 | `get_upgrade_position` returns None and the caller indexes `list[None - 1]`; only ValueError is caught | the unit's name missing from the OSD tree | set status blocked `failed to upgrade osd`, as the except branch does | not executed; high | LegacyUtils.AbsentHostCrashes | LegacyUtils.IntendedOsdRollStep |
| ceph/utils.py:2604-2607 | `PACKAGES.remove('ntp')` mutates the module list | two calls inside a container | return the list without `ntp` on every call | not executed; high | LegacyUtils.SecondCallInContainerRaises | LegacyUtils.IntendedPackages |
| charms_ceph/crush_utils.py:76-80 | `stdin=crush.stdout` where `crush` is a str | any successful `ceph osd getcrushmap` | pipe the fetched map into `crushtool -d` | not executed; high | Crush.LoadAsWrittenNeverLoads | Crush.LoadCrushmap |
| charms_ceph/crush_utils.py:105-110 | a str is passed as `stdin=` to `check_output` | any `save()` | feed the text as input to `crushtool -c` and then `setcrushmap` | not executed; high | Crush.SaveAsWrittenNeverSaves | Crush.SaveMap |
| charms_ceph/utils.py:1596-1604 | `lsblk_output` is bound only if `lsblk` succeeds | preparation fails, `lsblk` fails, ignore_errors set | log and record the device | not executed; medium | OsdDevices.LsblkFailureDefeatsIgnoreErrors | OsdDevices.IgnoreErrorsRecordsFailure |
| ceph/__init__.py:1319-1333 | the waiter reads `{prev}_{version}_done` while `lock_and_roll` writes `{service}_{prev}_{version}_done` | any predecessor that finished | read the keys the predecessor writes, as ceph/utils.py:2113-2129 does. The 10-minute give-up cannot fire either: the start value is a string, which Python 2 orders above the float it is compared with | not executed; high | CephInit.OldKeysNeverWritten | LegacyUtils.WaitOnPreviousNode |
