/** The older copy of the utilities in ceph/utils.py: its rolling-upgrade
    coordinator (lock_and_roll, wait_on_previous_node with the 10-minute
    rule, get_upgrade_position returning None), the OSD list of
    get_osd_tree, the bookkeeping of osdize_dev and determine_packages.
    parse_key, find_least_used_utility_device and calculate_volume_size are
    the same text as in charms_ceph/utils.py and are the Helpers ones. */
module LegacyUtils {
  import opened Wrappers
  import opened Runtime
  import Upgrade
  import OsdDevices

  // ------------------------------------------------------------ get_osd_tree

  /** One node of `ceph osd tree --format=json`. */
  datatype TreeNode = TreeNode(id: int, name: string, children: seq<int>, host: string, rack: string,
                               row: string, datacenter: string, chassis: string, root: string)

  function LocationOf(n: TreeNode): Upgrade.CrushLocation {
    Upgrade.CrushLocation(n.name, n.id, n.host, n.rack, n.row, n.datacenter, n.chassis, n.root)
  }

  /** The nodes whose id is among `ids`, in the order of the tree. */
  function NodesAmong(nodes: seq<TreeNode>, ids: seq<int>): (r: seq<Upgrade.CrushLocation>)
    ensures |r| <= |nodes|
  {
    if nodes == [] then []
    else
      var rest := NodesAmong(nodes[..|nodes| - 1], ids);
      if nodes[|nodes| - 1].id in ids then rest + [LocationOf(nodes[|nodes| - 1])] else rest
  }

  /** A location is listed exactly when some node of the tree with an id
      among `ids` describes it. */
  lemma {:induction false} NodesAmongListed(nodes: seq<TreeNode>, ids: seq<int>)
    ensures forall loc :: loc in NodesAmong(nodes, ids) <==>
              exists i :: 0 <= i < |nodes| && nodes[i].id in ids && LocationOf(nodes[i]) == loc
  {
    if nodes != [] {
      var init := nodes[..|nodes| - 1];
      NodesAmongListed(init, ids);
      forall loc
        ensures loc in NodesAmong(nodes, ids) <==>
                exists i :: 0 <= i < |nodes| && nodes[i].id in ids && LocationOf(nodes[i]) == loc
      {
        if exists i :: 0 <= i < |nodes| && nodes[i].id in ids && LocationOf(nodes[i]) == loc {
          var i :| 0 <= i < |nodes| && nodes[i].id in ids && LocationOf(nodes[i]) == loc;
          if i < |nodes| - 1 {
            assert init[i] == nodes[i];
          }
        }
        if loc in NodesAmong(init, ids) {
          var i :| 0 <= i < |init| && init[i].id in ids && LocationOf(init[i]) == loc;
          assert nodes[i] == init[i];
        }
      }
    }
  }

  /** get_osd_tree: None when the tree has no nodes; otherwise the children
      of the first node, in the order the tree lists them. */
  method GetOsdTree(nodes: seq<TreeNode>) returns (r: Option<seq<Upgrade.CrushLocation>>)
    ensures nodes == [] <==> r.None?
    ensures nodes != [] ==> r == Some(NodesAmong(nodes, nodes[0].children))
  {
    if nodes == [] {
      return None;
    }
    var childIds := nodes[0].children;
    var crushList := [];
    var i := 0;
    while i < |nodes|
      invariant 0 <= i <= |nodes|
      invariant crushList == NodesAmong(nodes[..i], childIds)
    {
      assert nodes[..i + 1][..i] == nodes[..i];
      if nodes[i].id in childIds {
        crushList := crushList + [LocationOf(nodes[i])];
      }
      i := i + 1;
    }
    assert nodes[..|nodes|] == nodes;
    r := Some(crushList);
  }

  // ------------------------------------------------------------ positions

  /** get_upgrade_position: the index of the first location named `name`,
      or None. */
  function UpgradePosition(locations: seq<Upgrade.CrushLocation>, name: string): (r: Option<nat>)
    ensures r.Some? ==> r.value < |locations| && locations[r.value].name == name
    ensures r.Some? ==> forall j :: 0 <= j < r.value ==> locations[j].name != name
    ensures r.None? <==> forall j :: 0 <= j < |locations| ==> locations[j].name != name
  {
    if locations == [] then None
    else if locations[0].name == name then Some(0)
    else
      match UpgradePosition(locations[1..], name)
      case Some(i) => Some(i + 1)
      case None => None
  }

  /** The older lookup finds the same position as the current one, and
      gives None exactly where the current one raises ValueError. */
  lemma UpgradePositionAgrees(locations: seq<Upgrade.CrushLocation>, name: string)
    ensures UpgradePosition(locations, name).None? <==> Upgrade.GetUpgradePosition(locations, name).Err?
    ensures UpgradePosition(locations, name).Some? ==>
              UpgradePosition(locations, name).value == Upgrade.GetUpgradePosition(locations, name).value
  {
  }

  /** What roll_osd_cluster goes on to do once it has its position. */
  datatype RollStep = RollFirst | RollAfter(prev: string) | Blocked(message: string) | Crashed(error: string)

  /** As written: position None is not 0, so the code reads
      `osd_sorted_list[None - 1]`, a TypeError the `except ValueError` does
      not catch. */
  function OsdRollStepAsWritten(sorted: seq<Upgrade.CrushLocation>, me: string): (s: RollStep)
    ensures s.Crashed? <==> UpgradePosition(sorted, me).None?
    ensures !s.Blocked?
  {
    match UpgradePosition(sorted, me)
    case None => Crashed("TypeError: unsupported operand type(s) for -: 'NoneType' and 'int'")
    case Some(p) => if p == 0 then RollFirst else RollAfter(sorted[p - 1].name)
  }

  /** As intended by the `except ValueError` branch: a host missing from the
      tree is reported as blocked. */
  function IntendedOsdRollStep(sorted: seq<Upgrade.CrushLocation>, me: string): (s: RollStep)
    ensures !s.Crashed?
    ensures s.Blocked? <==> UpgradePosition(sorted, me).None?
    ensures s.Blocked? ==> s.message == "failed to upgrade osd"
  {
    match UpgradePosition(sorted, me)
    case None => Blocked("failed to upgrade osd")
    case Some(p) => if p == 0 then RollFirst else RollAfter(sorted[p - 1].name)
  }

  /** The two agree wherever the host is in the tree; a unit rolls after a
      different host than itself. */
  lemma OsdRollStepsAgree(sorted: seq<Upgrade.CrushLocation>, me: string)
    requires UpgradePosition(sorted, me).Some?
    ensures OsdRollStepAsWritten(sorted, me) == IntendedOsdRollStep(sorted, me)
    ensures IntendedOsdRollStep(sorted, me).RollAfter? ==> IntendedOsdRollStep(sorted, me).prev != me
  {
  }

  /** A host absent from the tree crashes the older coordinator. */
  lemma AbsentHostCrashes()
    ensures OsdRollStepAsWritten([], "node-1").Crashed?
    ensures IntendedOsdRollStep([], "node-1") == Blocked("failed to upgrade osd")
  {
  }

  // ------------------------------------------------------------ lock_and_roll

  /** lock_and_roll: the start key, the upgrade action for "osd" and "mon"
      (`work` seconds, then success or status "blocked" and sys.exit(1)),
      then status "maintenance" and the done key.  No watchdog keeps an
      alive key in this copy. */
  method LockAndRoll(w: World, service: string, me: string, version: string, work: nat, succeeds: bool)
    returns (exited: bool)
    modifies w
    ensures exited <==> Upgrade.IsKnownService(service) && !succeeds
    ensures w.trace == old(w.trace) + [KeyWritten(UpgradeKey(service, me, version, Start), old(w.clock))]
                       + (if Upgrade.IsKnownService(service) then [UpgradeRan(service)] else [])
                       + Upgrade.RollEnding(exited, UpgradeKey(service, me, version, Done), version, w.clock)
    ensures !exited ==> w.own == old(w.own)[UpgradeKey(service, me, version, Start) := old(w.clock)]
                                           [UpgradeKey(service, me, version, Done) := w.clock]
    ensures exited ==> w.own == old(w.own)[UpgradeKey(service, me, version, Start) := old(w.clock)]
    ensures old(w.clock) <= w.clock
  {
    w.KeySetNow(UpgradeKey(service, me, version, Start));
    if Upgrade.IsKnownService(service) {
      w.Record(UpgradeRan(service));
      w.Elapse(work);
      if !succeeds {
        w.SetStatus("blocked", Upgrade.FailedMessage(version));
        w.Record(Exited(1));
        return true;
      }
    }
    w.SetStatus("maintenance", "Finishing upgrade");
    w.KeySetNow(UpgradeKey(service, me, version, Done));
    exited := false;
  }

  // ------------------------------------------------------------ waiting

  /** How wait_on_previous_node ended: the predecessor's done key appeared,
      its start key is more than 10 minutes old, or the model's bound on
      the number of polls ran out. */
  datatype WaitEnd = PreviousDone | PresumedDead | OutOfPolls

  /** The events of one wait: reads of the two keys and sleeps of 5 to 29
      seconds. */
  predicate WaitEvents(polls: seq<Event>, doneKey: string, startKey: string) {
    forall e :: e in polls ==>
      (e.KeyRead? && (e.key == doneKey || e.key == startKey)) || (e.Slept? && 5 <= e.seconds < 30)
  }

  lemma WaitEventsAppend(a: seq<Event>, b: seq<Event>, doneKey: string, startKey: string)
    requires WaitEvents(a, doneKey, startKey) && WaitEvents(b, doneKey, startKey)
    ensures WaitEvents(a + b, doneKey, startKey)
  {
  }

  /** wait_on_previous_node: reads the predecessor's done key and, while it
      is absent, its start key; returns once the start key is more than 600
      seconds old, and otherwise sleeps randrange(5, 30) and reads the done
      key again.  `fuel` bounds the number of rounds. */
  method WaitOnPreviousNode(w: World, service: string, prev: string, version: string, fuel: nat)
    returns (end: WaitEnd, ghost polls: seq<Event>)
    modifies w
    ensures w.own == old(w.own) && old(w.clock) <= w.clock
    ensures w.trace == old(w.trace) + polls
    ensures polls != [] && polls[0] == KeyRead(UpgradeKey(service, prev, version, Done))
    ensures WaitEvents(polls, UpgradeKey(service, prev, version, Done), UpgradeKey(service, prev, version, Start))
    ensures UpgradeKey(service, prev, version, Done) in old(w.Store()) ==>
              end == PreviousDone && polls == [KeyRead(UpgradeKey(service, prev, version, Done))]
              && w.clock == old(w.clock)
    ensures end == PreviousDone ==> UpgradeKey(service, prev, version, Done) in w.Store()
    ensures end == PresumedDead ==>
              var startKey := UpgradeKey(service, prev, version, Start);
              startKey in w.Store() && w.clock - 10 * 60 > w.Store()[startKey]
    ensures end == OutOfPolls ==> |polls| == 1 + 3 * fuel && UpgradeKey(service, prev, version, Done) !in w.Store()
    ensures end != OutOfPolls ==> |polls| <= 1 + 3 * fuel
  {
    var doneKey := UpgradeKey(service, prev, version, Done);
    var startKey := UpgradeKey(service, prev, version, Start);
    var finished := w.KeyExists(doneKey);
    polls := [KeyRead(doneKey)];
    ghost var doneAtFirst := finished;
    var left: nat := fuel;
    while !finished
      invariant w.own == old(w.own) && old(w.clock) <= w.clock
      invariant w.trace == old(w.trace) + polls
      invariant polls != [] && polls[0] == KeyRead(doneKey)
      invariant WaitEvents(polls, doneKey, startKey)
      invariant finished ==> doneKey in w.Store()
      invariant !finished ==> doneKey !in w.Store()
      invariant left <= fuel && |polls| == 1 + 3 * (fuel - left)
      invariant doneAtFirst ==> finished && polls == [KeyRead(doneKey)] && w.clock == old(w.clock)
      decreases left
    {
      if left == 0 {
        return OutOfPolls, polls;
      }
      var now := w.clock;
      var start := w.KeyGet(startKey);
      WaitEventsAppend(polls, [KeyRead(startKey)], doneKey, startKey);
      polls := polls + [KeyRead(startKey)];
      if start.Some? && now - 10 * 60 > start.value {
        return PresumedDead, polls;
      }
      var delay := RandomDelay();
      w.Sleep(delay);
      finished := w.KeyExists(doneKey);
      WaitEventsAppend(polls, [Slept(delay), KeyRead(doneKey)], doneKey, startKey);
      polls := polls + [Slept(delay), KeyRead(doneKey)];
      left := left - 1;
    }
    end := PreviousDone;
  }

  // ------------------------------------------------------------ osdize_dev

  /** What one call of this copy's osdize_dev decides: whether `dev` is
      recorded, and what escapes.  A device is skipped, unrecorded, when it
      is already an OSD disk, mounted or an active bluestore device. */
  function Verdict(recorded: seq<string>, dev: string, probe: OsdDevices.DeviceProbe, keyManager: string,
                   ignoreErrors: bool, prep: OsdDevices.Preparation): (bool, Option<OsdDevices.OsdizeError>)
  {
    if keyManager !in OsdDevices.KeyManagers then (false, Some(OsdDevices.UnsupportedKeyManager(keyManager)))
    else if dev in recorded || !probe.present || !probe.isBlock || probe.isOsdDisk || probe.mounted
            || probe.activeBluestore then (false, None)
    else if !prep.buildOk then (false, Some(OsdDevices.BuildFailed))
    else if prep.runOk then (true, None)
    else if !prep.lsblkOk then (false, Some(OsdDevices.LsblkOutputUnbound))
    else if ignoreErrors then (true, None)
    else (false, Some(OsdDevices.PrepareFailed))
  }

  /** A device is recorded only after a preparation was attempted on a free
      block device not recorded before, and it succeeded or its failure was
      ignored. */
  lemma RecordedOnlyAfterPreparation(recorded: seq<string>, dev: string, probe: OsdDevices.DeviceProbe,
                                     keyManager: string, ignoreErrors: bool, prep: OsdDevices.Preparation)
    ensures var v := Verdict(recorded, dev, probe, keyManager, ignoreErrors, prep);
      v.0 <==>
        keyManager in OsdDevices.KeyManagers && dev !in recorded && probe.present && probe.isBlock
        && !probe.isOsdDisk && !probe.mounted && !probe.activeBluestore
        && prep.buildOk && (prep.runOk || (prep.lsblkOk && ignoreErrors))
    ensures var v := Verdict(recorded, dev, probe, keyManager, ignoreErrors, prep);
      v.0 ==> v.1.None?
  {
  }

  /** The current copy records every device this one records, except a
      mapped LUKS device, which only this copy goes on to prepare; it also
      records mounted OSD disks and active bluestore devices, which this
      copy skips. */
  lemma CurrentRecordsMore(recorded: seq<string>, dev: string, probe: OsdDevices.DeviceProbe,
                           keyManager: string, ignoreErrors: bool, prep: OsdDevices.Preparation)
    ensures Verdict(recorded, dev, probe, keyManager, ignoreErrors, prep).0 && !probe.mappedLuks ==>
              OsdDevices.Verdict(recorded, dev, probe, keyManager, ignoreErrors, prep).0
    ensures var mountedOsd := OsdDevices.DeviceProbe(true, true, true, true, false, false);
            !Verdict([], "/dev/sdb", mountedOsd, OsdDevices.CephKeyManager, false, prep).0
            && OsdDevices.Verdict([], "/dev/sdb", mountedOsd, OsdDevices.CephKeyManager, false, prep).0
  {
  }

  /** osdize_dev of this copy: the list is written back only when the
      device is recorded. */
  method OsdizeDev(db: OsdDevices.UnitDb, dev: string, probe: OsdDevices.DeviceProbe, keyManager: string,
                   ignoreErrors: bool, prep: OsdDevices.Preparation)
    returns (raised: Option<OsdDevices.OsdizeError>)
    modifies db
    ensures var v := Verdict(old(db.osdDevices), dev, probe, keyManager, ignoreErrors, prep);
      raised == v.1 && db.osdDevices == (if v.0 then old(db.osdDevices) + [dev] else old(db.osdDevices))
      && db.saves == old(db.saves) + (if v.0 then 1 else 0)
    ensures OsdDevices.NoDuplicates(old(db.osdDevices)) ==> OsdDevices.NoDuplicates(db.osdDevices)
  {
    if keyManager !in OsdDevices.KeyManagers {
      return Some(OsdDevices.UnsupportedKeyManager(keyManager));
    }
    var devices := db.osdDevices;
    if dev in devices || !probe.present || !probe.isBlock || probe.isOsdDisk || probe.mounted
       || probe.activeBluestore {
      return None;
    }
    if !prep.buildOk {
      return Some(OsdDevices.BuildFailed);
    }
    if !prep.runOk {
      if !prep.lsblkOk {
        return Some(OsdDevices.LsblkOutputUnbound);
      }
      if !ignoreErrors {
        return Some(OsdDevices.PrepareFailed);
      }
    }
    db.osdDevices := devices + [dev];
    db.saves := db.saves + 1;
    raised := None;
  }

  // ------------------------------------------------------------ packages

  /** The module-level PACKAGES list. */
  const Packages: seq<string> := ["ceph", "gdisk", "ntp", "btrfs-tools", "python-ceph",
                                  "radosgw", "xfsprogs", "python-pyudev", "lvm2", "parted"]

  /** list.remove(x): drops the first x; ValueError when there is none. */
  function Remove(xs: seq<string>, x: string): (r: Result<seq<string>, string>)
    ensures r.Ok? <==> x in xs
    ensures r.Ok? ==> |r.value| == |xs| - 1
  {
    if xs == [] then Err("ValueError: list.remove(x): x not in list")
    else if xs[0] == x then Ok(xs[1..])
    else
      match Remove(xs[1..], x)
      case Ok(rest) => Ok([xs[0]] + rest)
      case Err(e) => Err(e)
  }

  /** What remove keeps: everything before the first x and everything after it. */
  lemma {:induction false} RemoveDropsFirst(xs: seq<string>, x: string, i: nat)
    requires i < |xs| && xs[i] == x && x !in xs[..i]
    ensures Remove(xs, x) == Ok(xs[..i] + xs[i + 1..])
  {
    if i == 0 {
      assert xs[..0] + xs[1..] == xs[1..];
    } else {
      assert xs[0] == xs[..i][0];
      assert xs[1..][..i - 1] == xs[1..i];
      assert x !in xs[1..i] by {
        assert forall y :: y in xs[1..i] ==> y in xs[..i];
      }
      RemoveDropsFirst(xs[1..], x, i - 1);
      assert xs[1..][i - 1 + 1..] == xs[i + 1..];
      assert xs[..i] + xs[i + 1..] == [xs[0]] + (xs[1..i] + xs[i + 1..]);
    }
  }

  /** The process's PACKAGES list, which determine_packages changes. */
  class PackageList {
    var packages: seq<string>

    constructor()
      ensures packages == Packages
    {
      packages := Packages;
    }

    /** determine_packages: in a container, removes "ntp" from the shared
        list itself, and returns that list. */
    method DeterminePackages(inContainer: bool) returns (r: Result<seq<string>, string>)
      modifies this
      ensures !inContainer ==> r == Ok(old(packages)) && packages == old(packages)
      ensures inContainer ==> r == Remove(old(packages), "ntp")
                              && packages == (if r.Ok? then r.value else old(packages))
    {
      if inContainer {
        r := Remove(packages, "ntp");
        if r.Ok? {
          packages := r.value;
        }
      } else {
        r := Ok(packages);
      }
    }
  }

  /** As intended: the package list, without "ntp" in a container, from a
      copy of PACKAGES, so that every call gives the same answer. */
  function IntendedPackages(inContainer: bool): (r: seq<string>)
    ensures inContainer ==> "ntp" !in r && |r| == |Packages| - 1
    ensures inContainer ==> forall p :: p in Packages && p != "ntp" ==> p in r
    ensures !inContainer ==> r == Packages
  {
    if inContainer then Packages[..2] + Packages[3..] else Packages
  }

  /** As written: the first call in a container gives the intended list but
      removes the only "ntp" from PACKAGES, so a second call raises
      ValueError. */
  lemma SecondCallInContainerRaises()
    ensures Remove(Packages, "ntp") == Ok(IntendedPackages(true))
    ensures Remove(IntendedPackages(true), "ntp").Err?
  {
    assert Packages[..2] == ["ceph", "gdisk"];
    RemoveDropsFirst(Packages, "ntp", 2);
  }
}
