/** The bookkeeping of osdize_dev in charms_ceph/utils.py: the unit keeps,
    in its local key-value store, the list `osd-devices` of the block
    devices it has already prepared, so that each device is prepared at most
    once in the unit's lifetime. */
module OsdDevices {
  import opened Wrappers

  const CephKeyManager := "ceph"
  const VaultKeyManager := "vault"
  /** KEY_MANAGERS */
  const KeyManagers := [CephKeyManager, VaultKeyManager]

  /** What osdize_dev learns about the device from the system: os.path.exists,
      is_block_device, is_osd_disk, is_device_mounted,
      is_active_bluestore_device and is_mapped_luks_device. */
  datatype DeviceProbe = DeviceProbe(
    present: bool,
    isBlock: bool,
    isOsdDisk: bool,
    mounted: bool,
    activeBluestore: bool,
    mappedLuks: bool)

  /** How the preparation went: whether building the ceph-volume (or
      ceph-disk) command succeeded (its LVM steps may raise), whether the
      command itself succeeded, and whether the `lsblk -P` run for the error
      report succeeded. */
  datatype Preparation = Preparation(buildOk: bool, runOk: bool, lsblkOk: bool)

  /** The exception osdize_dev lets escape. */
  datatype OsdizeError =
    | UnsupportedKeyManager(keyManager: string)  // ValueError
    | BuildFailed                                // CalledProcessError while building the command
    | PrepareFailed                              // CalledProcessError of the command, re-raised
    | LsblkOutputUnbound                         // UnboundLocalError: lsblk_output never assigned

  /** What one call decides: whether `dev` is appended to the processed
      devices, and what it raises.  Follows the code as written, including
      the read of `lsblk_output` after `lsblk -P` failed. */
  function Verdict(recorded: seq<string>, dev: string, probe: DeviceProbe, keyManager: string,
                   ignoreErrors: bool, prep: Preparation): (bool, Option<OsdizeError>)
  {
    if keyManager !in KeyManagers then (false, Some(UnsupportedKeyManager(keyManager)))
    else if dev in recorded then (false, None)
    else if !probe.present || !probe.isBlock then (false, None)
    else if probe.isOsdDisk then (probe.mounted, None)
    else if probe.mounted then (false, None)
    else if probe.activeBluestore then (true, None)
    else if probe.mappedLuks then (false, None)
    else if !prep.buildOk then (false, Some(BuildFailed))
    else if prep.runOk then (true, None)
    else if !prep.lsblkOk then (false, Some(LsblkOutputUnbound))
    else if ignoreErrors then (true, None)
    else (false, Some(PrepareFailed))
  }

  /** The same decision with the error report made safe: a failing `lsblk`
      only loses the report, and `ignore_errors` is honoured. */
  function IntendedVerdict(recorded: seq<string>, dev: string, probe: DeviceProbe, keyManager: string,
                           ignoreErrors: bool, prep: Preparation): (r: (bool, Option<OsdizeError>))
    ensures r.1 != Some(LsblkOutputUnbound)
    ensures prep.lsblkOk ==> r == Verdict(recorded, dev, probe, keyManager, ignoreErrors, prep)
  {
    Verdict(recorded, dev, probe, keyManager, ignoreErrors, prep.(lsblkOk := true))
  }

  /** An unmounted device that is not an OSD disk is worth recording when it
      is an active bluestore device, or when it is no mapped LUKS device and
      its preparation succeeded or failed with the failure ignored. */
  predicate UsableFreeDevice(probe: DeviceProbe, ignoreErrors: bool, prep: Preparation) {
    !probe.mounted
    && (probe.activeBluestore
        || (!probe.mappedLuks && prep.buildOk && (prep.runOk || (prep.lsblkOk && ignoreErrors))))
  }

  /** A device is recorded only when the key manager is supported, the device
      was not recorded before and is an existing block device, and either it
      is a mounted OSD disk, an unmounted active bluestore device, or an
      unmounted device whose preparation was attempted and succeeded or whose
      failure was ignored. */
  lemma RecordedOnlyWhenUsable(recorded: seq<string>, dev: string, probe: DeviceProbe, keyManager: string,
                               ignoreErrors: bool, prep: Preparation)
    ensures var v := Verdict(recorded, dev, probe, keyManager, ignoreErrors, prep);
      v.0 <==>
        keyManager in KeyManagers && dev !in recorded && probe.present && probe.isBlock
        && (probe.isOsdDisk ==> probe.mounted)
        && (!probe.isOsdDisk ==> UsableFreeDevice(probe, ignoreErrors, prep))
    ensures var v := Verdict(recorded, dev, probe, keyManager, ignoreErrors, prep);
      v.0 ==> v.1.None?
  {
  }

  /** ValueError is raised exactly for an unsupported key manager. */
  lemma UnsupportedKeyManagerRaises(recorded: seq<string>, dev: string, probe: DeviceProbe, keyManager: string,
                                    ignoreErrors: bool, prep: Preparation)
    ensures Verdict(recorded, dev, probe, keyManager, ignoreErrors, prep).1 == Some(UnsupportedKeyManager(keyManager))
        <==> keyManager != CephKeyManager && keyManager != VaultKeyManager
  {
  }

  /** A device already recorded is skipped whatever the system says. */
  lemma RecordedDeviceSkipped(recorded: seq<string>, dev: string, probe: DeviceProbe, keyManager: string,
                              ignoreErrors: bool, prep: Preparation)
    requires dev in recorded && keyManager in KeyManagers
    ensures Verdict(recorded, dev, probe, keyManager, ignoreErrors, prep) == (false, None)
  {
  }

  /** With ignore_errors, a failing `ceph-volume` run is still recorded and
      nothing escapes, once the error report is made safe. */
  lemma IgnoreErrorsRecordsFailure(recorded: seq<string>, dev: string, probe: DeviceProbe, keyManager: string,
                                   prep: Preparation)
    requires keyManager in KeyManagers && dev !in recorded && probe.present && probe.isBlock
    requires !probe.isOsdDisk && !probe.mounted && !probe.activeBluestore && !probe.mappedLuks
    requires prep.buildOk && !prep.runOk
    ensures IntendedVerdict(recorded, dev, probe, keyManager, true, prep) == (true, None)
  {
  }

  /** As written, a failing `lsblk -P` after a failing preparation makes the
      code read `lsblk_output`, which was never assigned: even with
      ignore_errors the device is not recorded and an UnboundLocalError
      escapes. */
  lemma LsblkFailureDefeatsIgnoreErrors()
    ensures Verdict([], "/dev/sdb", DeviceProbe(true, true, false, false, false, false), CephKeyManager,
                    true, Preparation(true, false, false)) == (false, Some(LsblkOutputUnbound))
  {
  }

  predicate NoDuplicates(s: seq<string>) {
    forall i, j :: 0 <= i < j < |s| ==> s[i] != s[j]
  }

  /** The unit's key-value store, as far as osdize_dev uses it. */
  class UnitDb {
    /** The stored `osd-devices` list. */
    var osdDevices: seq<string>
    /** How many times `osd-devices` was written and flushed. */
    var saves: nat

    constructor(devices: seq<string>)
      ensures osdDevices == devices && saves == 0
    {
      osdDevices := devices;
      saves := 0;
    }

    /** osdize_dev.  The list is read, possibly appended to, and written
        back in the `finally` clause on every path but the ValueError. */
    method OsdizeDev(dev: string, probe: DeviceProbe, keyManager: string, ignoreErrors: bool, prep: Preparation)
      returns (raised: Option<OsdizeError>)
      modifies this
      ensures var v := Verdict(old(osdDevices), dev, probe, keyManager, ignoreErrors, prep);
        raised == v.1 && osdDevices == (if v.0 then old(osdDevices) + [dev] else old(osdDevices))
      ensures saves == old(saves) + (if keyManager in KeyManagers then 1 else 0)
      ensures NoDuplicates(old(osdDevices)) ==> NoDuplicates(osdDevices)
    {
      if keyManager !in KeyManagers {
        return Some(UnsupportedKeyManager(keyManager));
      }
      var devices := osdDevices;
      raised := None;
      if dev in devices {
      } else if !probe.present || !probe.isBlock {
      } else if probe.isOsdDisk {
        if probe.mounted {
          devices := devices + [dev];
        }
      } else if probe.mounted {
      } else if probe.activeBluestore {
        devices := devices + [dev];
      } else if probe.mappedLuks {
      } else if !prep.buildOk {
        raised := Some(BuildFailed);
      } else {
        if !prep.runOk {
          if !prep.lsblkOk {
            raised := Some(LsblkOutputUnbound);
          } else if !ignoreErrors {
            raised := Some(PrepareFailed);
          }
        }
        if raised.None? {
          devices := devices + [dev];
        }
      }
      // finally: db.set('osd-devices', osd_devices); db.flush()
      osdDevices := devices;
      saves := saves + 1;
    }
  }

  /** A second call for a device the first call recorded changes nothing. */
  method OsdizeTwice(db: UnitDb, dev: string, probe: DeviceProbe, keyManager: string, ignoreErrors: bool,
                     first: Preparation, second: Preparation)
    returns (raised: Option<OsdizeError>)
    modifies db
    ensures var v := Verdict(old(db.osdDevices), dev, probe, keyManager, ignoreErrors, first);
      v.0 ==> raised.None? && db.osdDevices == old(db.osdDevices) + [dev]
  {
    var r1 := db.OsdizeDev(dev, probe, keyManager, ignoreErrors, first);
    raised := db.OsdizeDev(dev, probe, keyManager, ignoreErrors, second);
  }
}
