/** What a charm process sees of the outside world while it rolls an upgrade:
    the monitor cluster's shared key/value store (monitor_key_set/get/exists),
    the local clock (time.time/time.sleep), random.randrange(5, 30), the unit's
    workload status, and sys.exit.

    The store is what this unit wrote itself (`own`) laid over what the other
    members of the cluster have written by the current instant (`peers`, an
    arbitrary function of time: the model makes no assumption about the other
    units).  Timestamps are whole seconds.  Every observable action is
    appended to `trace`, so that ordering properties can be stated on it. */
module Runtime {
  import opened Wrappers

  datatype Event =
    | KeyRead(key: string)                     // monitor_key_exists or monitor_key_get
    | KeyWritten(key: string, stamp: int)      // monitor_key_set
    | StatusSet(state: string, message: string)
    | Slept(seconds: nat)
    | UpgradeRan(service: string)              // upgrade_osd / upgrade_monitor began
    | Exited(code: int)                        // sys.exit
    | ManagerBootstrapped                      // bootstrap_manager()

  /** The three keys each upgrading unit owns. */
  datatype Phase = Start | Alive | Done

  function PhaseName(p: Phase): string {
    match p
    case Start => "start"
    case Alive => "alive"
    case Done => "done"
  }

  /** The store key "{service}_{node}_{version}_{phase}" written and read by the
      rolling upgrade. */
  function UpgradeKey(service: string, node: string, version: string, phase: Phase): (k: string)
    ensures |k| == |service| + |node| + |version| + |PhaseName(phase)| + 3
  {
    service + "_" + node + "_" + version + "_" + PhaseName(phase)
  }

  /** The last four characters of a key tell its phase. */
  lemma KeySuffix(service: string, node: string, version: string, phase: Phase)
    ensures |UpgradeKey(service, node, version, phase)| >= 4
    ensures UpgradeKey(service, node, version, phase)[|UpgradeKey(service, node, version, phase)| - 4..]
            == (match phase case Start => "tart" case Alive => "live" case Done => "done")
  {
    var k := UpgradeKey(service, node, version, phase);
    var name := PhaseName(phase);
    assert k == (service + "_" + node + "_" + version + "_") + name;
    assert k[|k| - 4..] == name[|name| - 4..];
  }

  /** Keys that are equal have equal phases. */
  lemma UpgradeKeyPhase(service: string, n1: string, n2: string, version: string, p1: Phase, p2: Phase)
    requires UpgradeKey(service, n1, version, p1) == UpgradeKey(service, n2, version, p2)
    ensures p1 == p2
  {
    var k := UpgradeKey(service, n1, version, p1);
    KeySuffix(service, n1, version, p1);
    KeySuffix(service, n2, version, p2);
    assert k[|k| - 4] == k[|k| - 4..][0];
    assert k[|k| - 4] == (match p1 case Start => 't' case Alive => 'l' case Done => 'd');
    assert k[|k| - 4] == (match p2 case Start => 't' case Alive => 'l' case Done => 'd');
  }

  /** A key names one unit and one phase: equal keys (for the same service and
      version) have equal nodes and equal phases.  So a unit never mistakes
      another member's key, or another phase, for the one it is after. */
  lemma UpgradeKeyInjective(service: string, n1: string, n2: string, version: string, p1: Phase, p2: Phase)
    requires UpgradeKey(service, n1, version, p1) == UpgradeKey(service, n2, version, p2)
    ensures n1 == n2 && p1 == p2
  {
    UpgradeKeyPhase(service, n1, n2, version, p1, p2);
    var k := UpgradeKey(service, n1, version, p1);
    var head := service + "_";
    var tail := "_" + version + "_" + PhaseName(p1);
    assert k == head + n1 + tail;
    assert UpgradeKey(service, n2, version, p2) == head + n2 + tail;
    assert n1 == k[|head|..|head| + |n1|];
    assert n2 == k[|head|..|head| + |n2|];
  }

  class World {
    var clock: int
    var own: map<string, int>
    const peers: int -> map<string, int>
    var trace: seq<Event>

    constructor(start: int, others: int -> map<string, int>)
      ensures clock == start && own == map[] && peers == others && trace == []
    {
      clock := start;
      own := map[];
      peers := others;
      trace := [];
    }

    /** The contents of the shared store as this unit sees it now. */
    function Store(): map<string, int>
      reads this`clock, this`own
    {
      peers(clock) + own
    }

    /** monitor_key_exists */
    method KeyExists(key: string) returns (b: bool)
      modifies this
      ensures b <==> key in old(Store())
      ensures clock == old(clock) && own == old(own)
      ensures trace == old(trace) + [KeyRead(key)]
    {
      b := key in Store();
      trace := trace + [KeyRead(key)];
    }

    /** monitor_key_get: None when the key is absent. */
    method KeyGet(key: string) returns (v: Option<int>)
      modifies this
      ensures v == (if key in old(Store()) then Some(old(Store())[key]) else None)
      ensures clock == old(clock) && own == old(own)
      ensures trace == old(trace) + [KeyRead(key)]
    {
      v := if key in Store() then Some(Store()[key]) else None;
      trace := trace + [KeyRead(key)];
    }

    /** monitor_key_set(key, time.time()): the value is the current time. */
    method KeySetNow(key: string)
      modifies this
      ensures own == old(own)[key := old(clock)]
      ensures key in Store() && Store()[key] == clock
      ensures clock == old(clock)
      ensures trace == old(trace) + [KeyWritten(key, old(clock))]
    {
      own := own[key := clock];
      trace := trace + [KeyWritten(key, clock)];
    }

    /** status_set */
    method SetStatus(state: string, message: string)
      modifies this
      ensures clock == old(clock) && own == old(own)
      ensures trace == old(trace) + [StatusSet(state, message)]
    {
      trace := trace + [StatusSet(state, message)];
    }

    /** time.sleep */
    method Sleep(seconds: nat)
      modifies this
      ensures clock == old(clock) + seconds && own == old(own)
      ensures trace == old(trace) + [Slept(seconds)]
    {
      clock := clock + seconds;
      trace := trace + [Slept(seconds)];
    }

    /** Time spent in work the model does not look into (package upgrades,
        daemon restarts). */
    method Elapse(seconds: nat)
      modifies this
      ensures clock == old(clock) + seconds && own == old(own) && trace == old(trace)
    {
      clock := clock + seconds;
    }

    /** Any other event: the upgrade action starting, sys.exit, bootstrap_manager. */
    method Record(e: Event)
      modifies this
      ensures clock == old(clock) && own == old(own)
      ensures trace == old(trace) + [e]
    {
      trace := trace + [e];
    }
  }

  /** random.randrange(5, 30): any whole number of seconds from 5 to 29. */
  method RandomDelay() returns (d: nat)
    ensures 5 <= d < 30
  {
    d :| 5 <= d < 30;
  }
}
