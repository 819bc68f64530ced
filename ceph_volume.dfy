/** _ceph_volume, _allocate_logical_volume and _initialize_disk of
    charms_ceph/utils.py: the `ceph-volume lvm create` command for a new OSD,
    and the LVM physical volumes, volume groups and logical volumes created
    on the way. */
module CephVolume {
  import opened Wrappers
  import opened Text
  import opened Helpers
  import opened OsdDevices

  /** The LVM and dm-crypt steps taken on the host, in order. */
  datatype LvmAction =
    | VaultEncrypt(uuid: string, dev: string)  // vaultlocker encrypt, then dd over the new mapping
    | CreatePv(dev: string)
    | Rescan                                   // rescan_osd_devices, when the new PV path is missing
    | CreateVg(vg: string, dev: string)
    | CreateLv(lv: string, vg: string, size: Option<string>)

  /** "osd-{lv_type}-{osd_fsid}" */
  function LvName(lvType: string, fsid: string): string {
    "osd-" + lvType + "-" + fsid
  }

  function CryptPath(uuid: string): string {
    "/dev/mapper/crypt-" + uuid
  }

  /** The device _initialize_disk hands to LVM: the device itself, or with
      vault-managed encryption the dm-crypt mapping, named after the LUKS
      uuid the device already carries, or else after `devUuid`. */
  function PvPath(dev: string, devUuid: string, useVault: bool, luks: map<string, string>): string {
    if !useVault then dev
    else if dev in luks then CryptPath(luks[dev])
    else CryptPath(devUuid)
  }

  /** Whether _initialize_disk runs vaultlocker: vault-managed encryption of a
      device that carries no LUKS header and has no mapping yet. */
  predicate Encrypts(dev: string, devUuid: string, useVault: bool, luks: map<string, string>, present: set<string>) {
    useVault && dev !in luks && CryptPath(devUuid) !in present
  }

  /** The volume group a new physical volume gets: "ceph-{lv_type}-{uuid}"
      for a shared device, "ceph-{osd_fsid}" otherwise. */
  function NewVgName(lvType: string, fsid: string, shared: bool, vgUuid: string): string {
    if shared then "ceph-" + lvType + "-" + vgUuid else "ceph-" + fsid
  }

  /** The commands that put `pvDev` under LVM in the volume group `vg`: none
      when it is a physical volume already; otherwise pvcreate, a rescan when
      its path does not exist yet, and vgcreate. */
  function PvActions(pvDev: string, pvs: map<string, string>, present: set<string>, vg: string): seq<LvmAction> {
    if pvDev in pvs then []
    else [CreatePv(pvDev)] + (if pvDev in present then [] else [Rescan]) + [CreateVg(vg, pvDev)]
  }

  /** Whether a logical volume named `name` exists. */
  predicate HasLv(lvs: seq<(string, string)>, name: string) {
    exists i :: 0 <= i < |lvs| && lvs[i].0 == name
  }

  predicate DistinctLvNames(lvs: seq<(string, string)>) {
    forall i, j :: 0 <= i < j < |lvs| ==> lvs[i].0 != lvs[j].0
  }

  /** The number of logical volumes in the group of `vg`. */
  function CountIn(lvs: seq<(string, string)>, vg: string): nat {
    if lvs == [] then 0
    else CountIn(lvs[..|lvs| - 1], vg) + (if lvs[|lvs| - 1].1 == vg then 1 else 0)
  }

  /** get_lvs: the logical volumes on a device that is a physical volume. */
  function LvsOnDevice(pvs: map<string, string>, lvs: seq<(string, string)>, dev: string): nat {
    if dev in pvs then CountIn(lvs, pvs[dev]) else 0
  }

  predicate EndsWith(s: string, suffix: string) {
    |suffix| <= |s| && s[|s| - |suffix|..] == suffix
  }

  lemma EndsWithAppend(a: string, b: string)
    ensures EndsWith(a + b, b)
  {
  }

  /** The size argument '{}M'.format(calculate_volume_size(lv_type)): the
      default is an int, a configured size the float of a true division,
      written with a ".0" for a whole number of megabytes. */
  function SizeText(lvType: string, configured: Option<int>): string
    requires lvType in {"db", "wal", "journal"}
  {
    var mb := CalculateVolumeSize(lvType, configured).value;
    if configured.None? || configured.value == 0 then IntToString(mb) + "M"
    else IntToString(mb) + ".0M"
  }

  /** The volumes an OSD can have, each with its command-line flag and its
      logical volume type. */
  datatype VolumeKind = OnDiskJournal | FilestoreData | BluestoreBlock | Wal | Db | SharedJournal
  {
    function Flag(): string {
      match this
      case OnDiskJournal | SharedJournal => "--journal"
      case FilestoreData | BluestoreBlock => "--data"
      case Wal => "--block.wal"
      case Db => "--block.db"
    }

    function LvType(): string {
      match this
      case OnDiskJournal | SharedJournal => "journal"
      case FilestoreData => "data"
      case BluestoreBlock => "block"
      case Wal => "wal"
      case Db => "db"
    }
  }

  /** One volume argument of the command: which volume, the device it was
      allocated from and the "vg/lv" path passed. */
  datatype VolumeArg = VolumeArg(kind: VolumeKind, device: string, path: string)

  /** The fixed head of the command. */
  function Head(fsid: string, bluestore: bool, dmcrypt: bool): seq<string> {
    ["ceph-volume", "lvm", "create", "--osd-fsid", fsid]
    + [if bluestore then "--bluestore" else "--filestore"]
    + (if dmcrypt then ["--dmcrypt"] else [])
  }

  /** The volume arguments as they appear on the command line. */
  function Flatten(args: seq<VolumeArg>): seq<string> {
    if args == [] then []
    else Flatten(args[..|args| - 1]) + [args[|args| - 1].kind.Flag(), args[|args| - 1].path]
  }

  lemma FlattenSnoc(args: seq<VolumeArg>, a: VolumeArg)
    ensures Flatten(args + [a]) == Flatten(args) + [a.kind.Flag(), a.path]
  {
  }

  /** Which volume each argument is. */
  function Kinds(args: seq<VolumeArg>): seq<VolumeKind> {
    if args == [] then []
    else Kinds(args[..|args| - 1]) + [args[|args| - 1].kind]
  }

  lemma KindsSnoc(args: seq<VolumeArg>, a: VolumeArg)
    ensures Kinds(args + [a]) == Kinds(args) + [a.kind]
  {
    assert (args + [a])[..|args|] == args;
  }

  /** The volumes _ceph_volume asks for: bluestore has a block volume and a
      wal and a db volume when such devices are configured; filestore has a
      journal, on the OSD device before the data volume when no journal
      devices are given, on a shared journal device after it otherwise. */
  function ExpectedKinds(bluestore: bool, journals: bool, wal: bool, db: bool): seq<VolumeKind> {
    if bluestore then
      [BluestoreBlock] + (if wal then [Wal] else []) + (if db then [Db] else [])
    else if !journals then [OnDiskJournal, FilestoreData]
    else [FilestoreData, SharedJournal]
  }

  /** Filestore OSDs always get a journal and bluestore OSDs never do; every
      OSD has exactly one data volume, of type block exactly for bluestore. */
  lemma ExpectedKindsShape(bluestore: bool, journals: bool, wal: bool, db: bool)
    ensures var k := ExpectedKinds(bluestore, journals, wal, db);
      (OnDiskJournal in k || SharedJournal in k <==> !bluestore)
      && (OnDiskJournal in k <==> !bluestore && !journals)
      && (FilestoreData in k <==> !bluestore) && (BluestoreBlock in k <==> bluestore)
    ensures var k := ExpectedKinds(bluestore, journals, wal, db);
      (Wal in k <==> bluestore && wal) && (Db in k <==> bluestore && db)
  {
  }

  /** The device each volume lies on: the OSD device for its data and for an
      on-disk journal, one of the configured devices for a shared volume. */
  predicate PlacedOn(a: VolumeArg, dev: string, journals: seq<string>, walDevices: seq<string>, dbDevices: seq<string>) {
    match a.kind
    case Wal => a.device in walDevices
    case Db => a.device in dbDevices
    case SharedJournal => a.device in journals
    case _ => a.device == dev
  }

  /** The host, as far as the OSD preparation sees and changes it. */
  class Host {
    /** The LVM physical volumes and the volume group of each. */
    var pvs: map<string, string>
    /** The logical volumes, as (name, volume group), oldest first. */
    var lvs: seq<(string, string)>
    /** The LUKS uuid of each device that carries a LUKS header. */
    var luks: map<string, string>
    /** The paths that exist. */
    var present: set<string>
    /** How many uuids uuid4 has handed out. */
    var drawn: nat
    /** The n-th uuid uuid4 hands out. */
    const uuid: nat -> string
    /** The LVM and dm-crypt steps taken. */
    var actions: seq<LvmAction>

    constructor(pvs0: map<string, string>, lvs0: seq<(string, string)>, luks0: map<string, string>,
                present0: set<string>, uuid0: nat -> string)
      ensures pvs == pvs0 && lvs == lvs0 && luks == luks0 && present == present0
      ensures drawn == 0 && uuid == uuid0 && actions == []
    {
      pvs, lvs, luks, present := pvs0, lvs0, luks0, present0;
      drawn, uuid, actions := 0, uuid0, [];
    }

    /** str(uuid.uuid4()) */
    method NewUuid() returns (u: string)
      modifies this
      ensures u == uuid(old(drawn)) && drawn == old(drawn) + 1
      ensures pvs == old(pvs) && lvs == old(lvs) && luks == old(luks)
      ensures present == old(present) && actions == old(actions)
    {
      u := uuid(drawn);
      drawn := drawn + 1;
    }

    /** _initialize_disk: with vault-managed encryption, a device already
        carrying a LUKS header is used through its mapping; otherwise it is
        encrypted with vaultlocker under `devUuid`, unless that mapping
        exists already. */
    method InitializeDisk(dev: string, devUuid: string, encrypt: bool, keyManager: string) returns (pvDev: string)
      modifies this
      ensures var useVault := encrypt && keyManager == VaultKeyManager;
        pvDev == PvPath(dev, devUuid, useVault, old(luks))
        && if Encrypts(dev, devUuid, useVault, old(luks), old(present)) then
             luks == old(luks)[dev := devUuid] && present == old(present) + {CryptPath(devUuid)}
             && actions == old(actions) + [VaultEncrypt(devUuid, dev)]
           else
             luks == old(luks) && present == old(present) && actions == old(actions)
      ensures pvs == old(pvs) && lvs == old(lvs) && drawn == old(drawn)
    {
      var useVault := encrypt && keyManager == VaultKeyManager;
      if useVault && dev in luks {
        return CryptPath(luks[dev]);
      }
      var dmCrypt := CryptPath(devUuid);
      if useVault && dmCrypt !in present {
        actions := actions + [VaultEncrypt(devUuid, dev)];
        luks := luks[dev := devUuid];
        present := present + {dmCrypt};
      }
      pvDev := if useVault then dmCrypt else dev;
    }

    /** The volume group of `pvDev`: its own when it is a physical volume
        already, else a new one, "ceph-{lv_type}-{uuid}" for a shared device
        and "ceph-{osd_fsid}" otherwise. */
    method VolumeGroupOf(pvDev: string, lvType: string, fsid: string, shared: bool) returns (vg: string)
      modifies this
      ensures pvDev in old(pvs) ==> vg == old(pvs)[pvDev] && pvs == old(pvs) && drawn == old(drawn)
      ensures pvDev !in old(pvs) ==>
        vg == NewVgName(lvType, fsid, shared, uuid(old(drawn)))
        && pvs == old(pvs)[pvDev := vg]
        && drawn == old(drawn) + (if shared then 1 else 0)
      ensures actions == old(actions) + PvActions(pvDev, old(pvs), old(present), vg)
      ensures lvs == old(lvs) && luks == old(luks) && present == old(present)
    {
      if pvDev !in pvs {
        actions := actions + [CreatePv(pvDev)];
        if pvDev !in present {
          actions := actions + [Rescan];
        }
        if shared {
          var vgUuid := NewUuid();
          vg := "ceph-" + lvType + "-" + vgUuid;
        } else {
          vg := "ceph-" + fsid;
        }
        actions := actions + [CreateVg(vg, pvDev)];
        pvs := pvs[pvDev := vg];
      } else {
        vg := pvs[pvDev];
      }
    }

    /** lvm.create_logical_volume, unless a volume of that name exists. */
    method CreateLogicalVolume(lvName: string, vg: string, size: Option<string>, known: bool)
      requires known == HasLv(lvs, lvName)
      modifies this
      ensures lvs == old(lvs) + (if known then [] else [(lvName, vg)])
      ensures actions == old(actions) + (if known then [] else [CreateLv(lvName, vg, size)])
      ensures HasLv(lvs, lvName)
      ensures DistinctLvNames(old(lvs)) ==> DistinctLvNames(lvs)
      ensures pvs == old(pvs) && luks == old(luks) && present == old(present) && drawn == old(drawn)
    {
      if !known {
        actions := actions + [CreateLv(lvName, vg, size)];
        lvs := lvs + [(lvName, vg)];
        assert lvs[|lvs| - 1].0 == lvName;
      }
    }

    /** _allocate_logical_volume: puts `dev` (or its dm-crypt mapping) under
        LVM when it is not yet, in a new volume group, creates the logical
        volume "osd-{lv_type}-{osd_fsid}" unless a volume of that name exists,
        and returns "vg/lv". */
    method AllocateLogicalVolume(dev: string, lvType: string, fsid: string, size: Option<string>,
                                 shared: bool, encrypt: bool, keyManager: string)
      returns (path: string)
      modifies this
      ensures var devUuid := if shared then uuid(old(drawn)) else fsid;
        var pv := PvPath(dev, devUuid, encrypt && keyManager == VaultKeyManager, old(luks));
        pv in pvs
        && path == pvs[pv] + "/" + LvName(lvType, fsid)
        && (pv in old(pvs) ==> pvs == old(pvs))
        && (pv !in old(pvs) ==> pvs == old(pvs)[pv := NewVgName(lvType, fsid, shared, uuid(old(drawn) + 1))])
        && lvs == old(lvs) + (if HasLv(old(lvs), LvName(lvType, fsid)) then [] else [(LvName(lvType, fsid), pvs[pv])])
      ensures var devUuid := if shared then uuid(old(drawn)) else fsid;
        var useVault := encrypt && keyManager == VaultKeyManager;
        var pv := PvPath(dev, devUuid, useVault, old(luks));
        var encrypted := Encrypts(dev, devUuid, useVault, old(luks), old(present));
        luks == (if encrypted then old(luks)[dev := devUuid] else old(luks))
        && present == (if encrypted then old(present) + {CryptPath(devUuid)} else old(present))
        && drawn == old(drawn) + (if shared then 1 else 0) + (if shared && pv !in old(pvs) then 1 else 0)
        && actions == old(actions) + (if encrypted then [VaultEncrypt(devUuid, dev)] else [])
                      + PvActions(pv, old(pvs), present, pvs[pv])
                      + (if HasLv(old(lvs), LvName(lvType, fsid)) then [] else [CreateLv(LvName(lvType, fsid), pvs[pv], size)])
      ensures HasLv(lvs, LvName(lvType, fsid))
      ensures DistinctLvNames(old(lvs)) ==> DistinctLvNames(lvs)
    {
      var lvName := LvName(lvType, fsid);
      var known := HasLv(lvs, lvName);
      var devUuid := fsid;
      if shared {
        devUuid := NewUuid();
      }
      var pvDev := InitializeDisk(dev, devUuid, encrypt, keyManager);
      var vg := VolumeGroupOf(pvDev, lvType, fsid, shared);
      CreateLogicalVolume(lvName, vg, size, known);
      path := vg + "/" + lvName;
    }

    /** One volume argument: the volume allocated from `device`. */
    method Volume(kind: VolumeKind, device: string, fsid: string, size: Option<string>,
                  shared: bool, encrypt: bool, keyManager: string)
      returns (a: VolumeArg)
      modifies this
      ensures a.kind == kind && a.device == device
      ensures EndsWith(a.path, "/" + LvName(kind.LvType(), fsid)) && HasLv(lvs, LvName(kind.LvType(), fsid))
      ensures old(lvs) <= lvs
      ensures DistinctLvNames(old(lvs)) ==> DistinctLvNames(lvs)
    {
      var path := AllocateLogicalVolume(device, kind.LvType(), fsid, size, shared, encrypt, keyManager);
      a := VolumeArg(kind, device, path);
      EndsWithAppend(path[..|path| - |"/" + LvName(kind.LvType(), fsid)|], "/" + LvName(kind.LvType(), fsid));
    }

    /** find_least_used_utility_device(devices, lvs=True): the first device
        with the fewest logical volumes. */
    function LeastUsed(devices: seq<string>): (d: string)
      requires devices != []
      reads this
      ensures d in devices
      ensures forall e :: e in devices ==> LvsOnDevice(pvs, lvs, d) <= LvsOnDevice(pvs, lvs, e)
    {
      var snapshotPvs, snapshotLvs := pvs, lvs;
      devices[FirstLeastIndex(devices, e => LvsOnDevice(snapshotPvs, snapshotLvs, e))]
    }

    /** One volume of `lvType` on the least used of `devices`, in a shared
        volume group, with its configured size. */
    method SharedVolume(kind: VolumeKind, devices: seq<string>, fsid: string,
                        encrypt: bool, keyManager: string, conf: string -> Option<int>)
      returns (a: VolumeArg)
      requires devices != [] && kind in {Wal, Db, SharedJournal}
      modifies this
      ensures a.kind == kind && a.device in devices
      ensures a.device == old(LeastUsed(devices))
      ensures EndsWith(a.path, "/" + LvName(kind.LvType(), fsid)) && HasLv(lvs, LvName(kind.LvType(), fsid))
      ensures old(lvs) <= lvs
      ensures DistinctLvNames(old(lvs)) ==> DistinctLvNames(lvs)
    {
      var least := LeastUsed(devices);
      var lvType := kind.LvType();
      var size := SizeText(lvType, conf(ConfigOption(lvType).value));
      a := Volume(kind, least, fsid, Some(size), true, encrypt, keyManager);
    }

    /** _ceph_volume: `ceph-volume lvm create --osd-fsid <fsid>`, the store
        type, `--dmcrypt` for ceph-managed encryption, then the volumes.
        `journals` is osd_journal, `walDevices` and `dbDevices` what
        get_devices finds for bluestore-wal and bluestore-db, in the order
        the set yields them; `conf` is what get_conf reads for an option. */
    method CephVolume(dev: string, journals: seq<string>, encrypt: bool, bluestore: bool, keyManager: string,
                      walDevices: seq<string>, dbDevices: seq<string>, conf: string -> Option<int>)
      returns (cmd: seq<string>, ghost args: seq<VolumeArg>)
      modifies this
      ensures var fsid := uuid(old(drawn));
        cmd == Head(fsid, bluestore, encrypt && keyManager == CephKeyManager) + Flatten(args)
        && Kinds(args) == ExpectedKinds(bluestore, journals != [], walDevices != [], dbDevices != [])
        && GoodArgs(args, fsid, lvs, dev, journals, walDevices, dbDevices)
      ensures DistinctLvNames(old(lvs)) ==> DistinctLvNames(lvs)
    {
      var fsid := NewUuid();
      cmd := ["ceph-volume", "lvm", "create", "--osd-fsid", fsid];
      var mainType: VolumeKind;
      if bluestore {
        cmd := cmd + ["--bluestore"];
        mainType := BluestoreBlock;
      } else {
        cmd := cmd + ["--filestore"];
        mainType := FilestoreData;
      }
      if encrypt && keyManager == CephKeyManager {
        cmd := cmd + ["--dmcrypt"];
      }
      assert cmd == Head(fsid, bluestore, encrypt && keyManager == CephKeyManager);
      if bluestore {
        cmd, args := BluestoreVolumes(cmd, dev, fsid, journals, walDevices, dbDevices, encrypt, keyManager, conf);
      } else {
        cmd, args := FilestoreVolumes(cmd, dev, fsid, journals, walDevices, dbDevices, encrypt, keyManager, conf);
      }
    }

    /** The bluestore volumes: the block volume on the OSD device, then a
        wal and a db volume on the least used configured device, each when
        such devices are configured. */
    method BluestoreVolumes(head: seq<string>, dev: string, fsid: string, ghost journals: seq<string>,
                            walDevices: seq<string>, dbDevices: seq<string>,
                            encrypt: bool, keyManager: string, conf: string -> Option<int>)
      returns (cmd: seq<string>, ghost args: seq<VolumeArg>)
      modifies this
      ensures cmd == head + Flatten(args)
      ensures Kinds(args) == ExpectedKinds(true, false, walDevices != [], dbDevices != [])
      ensures GoodArgs(args, fsid, lvs, dev, journals, walDevices, dbDevices)
      ensures DistinctLvNames(old(lvs)) ==> DistinctLvNames(lvs)
    {
      cmd, args := OwnVolume(head, head, [], BluestoreBlock, None, fsid, dev, journals, walDevices, dbDevices, encrypt, keyManager);
      assert Kinds(args) == [BluestoreBlock];
      cmd, args := MaybeShared(head, cmd, args, Wal, walDevices, fsid, dev, journals, walDevices, dbDevices, encrypt, keyManager, conf);
      ghost var k2 := Kinds(args);
      assert k2 == [BluestoreBlock] + (if walDevices != [] then [Wal] else []);
      cmd, args := MaybeShared(head, cmd, args, Db, dbDevices, fsid, dev, journals, walDevices, dbDevices, encrypt, keyManager, conf);
      assert Kinds(args) == k2 + (if dbDevices != [] then [Db] else []);
    }

    /** The filestore volumes: without journal devices, a journal on the OSD
        device and then the data volume; with them, the data volume and then
        a journal on the least used journal device. */
    method FilestoreVolumes(head: seq<string>, dev: string, fsid: string, journals: seq<string>,
                            ghost walDevices: seq<string>, ghost dbDevices: seq<string>,
                            encrypt: bool, keyManager: string, conf: string -> Option<int>)
      returns (cmd: seq<string>, ghost args: seq<VolumeArg>)
      modifies this
      ensures cmd == head + Flatten(args)
      ensures Kinds(args) == ExpectedKinds(false, journals != [], false, false)
      ensures GoodArgs(args, fsid, lvs, dev, journals, walDevices, dbDevices)
      ensures DistinctLvNames(old(lvs)) ==> DistinctLvNames(lvs)
    {
      cmd, args := head, [];
      if journals == [] {
        var size := SizeText("journal", conf(ConfigOption("journal").value));
        cmd, args := OwnVolume(head, cmd, args, OnDiskJournal, Some(size), fsid, dev, journals, walDevices, dbDevices, encrypt, keyManager);
      }
      assert Kinds(args) == if journals == [] then [OnDiskJournal] else [];
      cmd, args := OwnVolume(head, cmd, args, FilestoreData, None, fsid, dev, journals, walDevices, dbDevices, encrypt, keyManager);
      ghost var k2 := Kinds(args);
      assert k2 == (if journals == [] then [OnDiskJournal] else []) + [FilestoreData];
      cmd, args := MaybeShared(head, cmd, args, SharedJournal, journals, fsid, dev, journals, walDevices, dbDevices, encrypt, keyManager, conf);
      assert Kinds(args) == k2 + (if journals != [] then [SharedJournal] else []);
    }

    /** A volume of `kind` on the OSD device itself, appended to the command. */
    method OwnVolume(head: seq<string>, cmd0: seq<string>, ghost args0: seq<VolumeArg>, kind: VolumeKind, size: Option<string>,
                     fsid: string, dev: string, ghost journals: seq<string>, ghost walDevices: seq<string>,
                     ghost dbDevices: seq<string>, encrypt: bool, keyManager: string)
      returns (cmd: seq<string>, ghost args: seq<VolumeArg>)
      requires kind in {OnDiskJournal, FilestoreData, BluestoreBlock}
      requires cmd0 == head + Flatten(args0) && GoodArgs(args0, fsid, lvs, dev, journals, walDevices, dbDevices)
      modifies this
      ensures cmd == head + Flatten(args)
      ensures Kinds(args) == Kinds(args0) + [kind]
      ensures |args| == |args0| + 1 && args[..|args0|] == args0 && args[|args0|].device == dev
      ensures GoodArgs(args, fsid, lvs, dev, journals, walDevices, dbDevices)
      ensures DistinctLvNames(old(lvs)) ==> DistinctLvNames(lvs)
    {
      var a := Volume(kind, dev, fsid, size, false, encrypt, keyManager);
      Pushed(head, cmd0, args0, a, fsid, old(lvs), lvs, dev, journals, walDevices, dbDevices);
      args, cmd := args0 + [a], cmd0 + [a.kind.Flag(), a.path];
    }

    /** A volume of `kind` on the least used of `devices`, appended to the
        command when there are such devices. */
    method MaybeShared(head: seq<string>, cmd0: seq<string>, ghost args0: seq<VolumeArg>, kind: VolumeKind, devices: seq<string>,
                       fsid: string, dev: string, ghost journals: seq<string>, ghost walDevices: seq<string>,
                       ghost dbDevices: seq<string>, encrypt: bool, keyManager: string, conf: string -> Option<int>)
      returns (cmd: seq<string>, ghost args: seq<VolumeArg>)
      requires kind in {Wal, Db, SharedJournal}
      requires devices == (match kind case Wal => walDevices case Db => dbDevices case _ => journals)
      requires cmd0 == head + Flatten(args0) && GoodArgs(args0, fsid, lvs, dev, journals, walDevices, dbDevices)
      modifies this
      ensures cmd == head + Flatten(args)
      ensures Kinds(args) == Kinds(args0) + (if devices != [] then [kind] else [])
      ensures devices == [] ==> args == args0
      ensures devices != [] ==> |args| == |args0| + 1 && args[..|args0|] == args0 && args[|args0|].device == old(LeastUsed(devices))
      ensures GoodArgs(args, fsid, lvs, dev, journals, walDevices, dbDevices)
      ensures DistinctLvNames(old(lvs)) ==> DistinctLvNames(lvs)
    {
      cmd, args := cmd0, args0;
      if devices != [] {
        var a := SharedVolume(kind, devices, fsid, encrypt, keyManager, conf);
        Pushed(head, cmd, args, a, fsid, old(lvs), lvs, dev, journals, walDevices, dbDevices);
        args, cmd := args + [a], cmd + [a.kind.Flag(), a.path];
      }
    }
  }

  /** A volume argument names the volume of its type for this OSD, that
      volume exists, and it lies where it should. */
  predicate GoodArg(a: VolumeArg, fsid: string, lvs: seq<(string, string)>,
                    dev: string, journals: seq<string>, walDevices: seq<string>, dbDevices: seq<string>) {
    EndsWith(a.path, "/" + LvName(a.kind.LvType(), fsid))
    && HasLv(lvs, LvName(a.kind.LvType(), fsid))
    && PlacedOn(a, dev, journals, walDevices, dbDevices)
  }

  predicate GoodArgs(args: seq<VolumeArg>, fsid: string, lvs: seq<(string, string)>,
                     dev: string, journals: seq<string>, walDevices: seq<string>, dbDevices: seq<string>) {
    forall i :: 0 <= i < |args| ==> GoodArg(args[i], fsid, lvs, dev, journals, walDevices, dbDevices)
  }

  /** Appending one more volume argument to the command. */
  lemma Pushed(head: seq<string>, cmd: seq<string>, args: seq<VolumeArg>, a: VolumeArg, fsid: string,
               before: seq<(string, string)>, after: seq<(string, string)>,
               dev: string, journals: seq<string>, walDevices: seq<string>, dbDevices: seq<string>)
    requires cmd == head + Flatten(args) && GoodArgs(args, fsid, before, dev, journals, walDevices, dbDevices)
    requires before <= after && GoodArg(a, fsid, after, dev, journals, walDevices, dbDevices)
    ensures cmd + [a.kind.Flag(), a.path] == head + Flatten(args + [a])
    ensures Kinds(args + [a]) == Kinds(args) + [a.kind]
    ensures GoodArgs(args + [a], fsid, after, dev, journals, walDevices, dbDevices)
  {
    FlattenSnoc(args, a);
    KindsSnoc(args, a);
    forall i | 0 <= i < |args + [a]|
      ensures GoodArg((args + [a])[i], fsid, after, dev, journals, walDevices, dbDevices)
    {
      if i < |args| {
        var name := LvName(args[i].kind.LvType(), fsid);
        var k :| 0 <= k < |before| && before[k].0 == name;
        assert after[k] == before[k];
      }
    }
  }
}
