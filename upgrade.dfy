/** The rolling-upgrade coordinator of charms_ceph/utils.py.  Every unit of a
    cluster runs it: the members are sorted by name, the unit finds its rank,
    waits for the member ranked just before it, and then upgrades itself under
    the "_start" / "_alive" / "_done" keys of the shared store. */
module Upgrade {
  import opened Wrappers
  import opened Sorting
  import opened Runtime
  import opened WatchDogs

  // ------------------------------------------------------------ CrushLocation

  /** An OSD host as get_osd_tree reports it; only `name` takes part in
      comparisons. */
  datatype CrushLocation = CrushLocation(name: string, identifier: int, host: string, rack: string,
                                         row: string, datacenter: string, chassis: string, root: string)
  {
    /** __eq__: neither name is below the other. */
    predicate Eq(other: CrushLocation) {
      !LexLess(name, other.name) && !LexLess(other.name, name)
    }

    /** __ne__ */
    predicate Ne(other: CrushLocation) {
      LexLess(name, other.name) || LexLess(other.name, name)
    }

    /** __gt__ */
    predicate Gt(other: CrushLocation) {
      LexLess(other.name, name)
    }

    /** __ge__ */
    predicate Ge(other: CrushLocation) {
      !LexLess(name, other.name)
    }

    /** `a < b`: the class has no __lt__, so Python evaluates b.__gt__(a). */
    predicate Lt(other: CrushLocation) {
      other.Gt(this)
    }

    /** __le__ as written: it compares with `<`, not `<=`. */
    predicate LeAsWritten(other: CrushLocation) {
      LexLess(name, other.name)
    }

    /** __le__ as evidently intended: the converse of __gt__. */
    predicate Le(other: CrushLocation) {
      !LexLess(other.name, name)
    }
  }

  /** Equality of locations is equality of names, and `!=` is its negation. */
  lemma CrushLocationEqIsNameEq(a: CrushLocation, b: CrushLocation)
    ensures a.Eq(b) <==> a.name == b.name
    ensures a.Ne(b) <==> !a.Eq(b)
  {
    if a.name != b.name { LexTotal(a.name, b.name); } else { LexIrreflexive(a.name); }
  }

  /** The comparisons form a total order on names: exactly one of <, ==, > holds,
      and >= is > or ==. */
  lemma CrushLocationTrichotomy(a: CrushLocation, b: CrushLocation)
    ensures a.Lt(b) || a.Eq(b) || a.Gt(b)
    ensures !(a.Lt(b) && a.Gt(b)) && !(a.Lt(b) && a.Eq(b)) && !(a.Gt(b) && a.Eq(b))
    ensures a.Ge(b) <==> a.Gt(b) || a.Eq(b)
  {
    if LexLess(a.name, b.name) { LexAsymmetric(a.name, b.name); }
    if LexLess(b.name, a.name) { LexAsymmetric(b.name, a.name); }
  }

  /** As written, `x <= x` is False for every location. */
  lemma LeAsWrittenIrreflexive(a: CrushLocation)
    ensures !a.LeAsWritten(a)
  {
    LexIrreflexive(a.name);
  }

  /** The intended `<=` is `<` or `==`, and it is reflexive. */
  lemma LeIsLtOrEq(a: CrushLocation, b: CrushLocation)
    ensures a.Le(b) <==> a.Lt(b) || a.Eq(b)
    ensures a.Le(a)
  {
    LexIrreflexive(a.name);
    CrushLocationTrichotomy(a, b);
  }

  // ------------------------------------------------------------ ranking

  function LocationName(loc: CrushLocation): string {
    loc.name
  }

  function Identity(s: string): string {
    s
  }

  /** get_upgrade_position: the index of the first location named `name`, or
      ValueError. */
  function GetUpgradePosition(locations: seq<CrushLocation>, name: string): (r: Result<nat, string>)
    ensures r.Ok? ==> r.value < |locations| && locations[r.value].name == name
    ensures r.Ok? ==> forall j :: 0 <= j < r.value ==> locations[j].name != name
    ensures r.Err? <==> forall j :: 0 <= j < |locations| ==> locations[j].name != name
  {
    if locations == [] then Err("osd name '" + name + "' not found in get_upgrade_position list")
    else if locations[0].name == name then Ok(0)
    else
      match GetUpgradePosition(locations[1..], name)
      case Ok(i) => Ok(i + 1)
      case Err(e) => Err(e)
  }

  /** list.index: the index of the first element equal to x, or ValueError. */
  function IndexOf(xs: seq<string>, x: string): (r: Option<nat>)
    ensures r.Some? ==> r.value < |xs| && xs[r.value] == x
    ensures r.Some? ==> forall j :: 0 <= j < r.value ==> xs[j] != x
    ensures r.None? <==> x !in xs
  {
    if xs == [] then None
    else if xs[0] == x then Some(0)
    else
      match IndexOf(xs[1..], x)
      case Some(i) => Some(i + 1)
      case None => None
  }

  /** In the sorted member list, the member a unit waits on is another member
      whose name sorts no later than its own. */
  lemma PredecessorIsOther(sorted: seq<string>, me: string, k: nat)
    requires SortedBy(sorted, Identity)
    requires IndexOf(sorted, me) == Some(k) && k > 0
    ensures sorted[k - 1] != me
    ensures LexLe(sorted[k - 1], me)
  {
    assert Identity(sorted[k - 1]) == sorted[k - 1] && Identity(sorted[k]) == sorted[k];
  }

  // ------------------------------------------------------------ keys

  /** The keys a unit polls while it waits on `node`. */
  function WatchedKeys(service: string, node: string, version: string): set<string> {
    {UpgradeKey(service, node, version, Start), UpgradeKey(service, node, version, Alive),
     UpgradeKey(service, node, version, Done)}
  }

  /** A unit watching its predecessor never reads one of its own keys: the
      keys of two different members are disjoint. */
  lemma WatchedKeysDisjoint(service: string, me: string, prev: string, version: string)
    requires me != prev
    ensures WatchedKeys(service, me, version) !! WatchedKeys(service, prev, version)
  {
    forall k | k in WatchedKeys(service, me, version) && k in WatchedKeys(service, prev, version)
      ensures false
    {
      var p: Phase :| k == UpgradeKey(service, me, version, p);
      var q: Phase :| k == UpgradeKey(service, prev, version, q);
      UpgradeKeyInjective(service, me, prev, version, p, q);
    }
  }

  // ------------------------------------------------------------ lock_and_roll

  /** What upgrade_osd / upgrade_monitor do, seen from the coordinator:
      `work[i]` seconds of package and daemon work before the i-th call of the
      kick function, then success, or status "blocked" and sys.exit(1). */
  datatype UpgradeRun = UpgradeRun(work: seq<nat>, succeeds: bool)

  predicate IsKnownService(service: string) {
    service == "osd" || service == "mon"
  }

  /** Events that are all writes of `key` (alive stamps). */
  predicate AliveWrites(events: seq<Event>, key: string) {
    forall e :: e in events ==> e.KeyWritten? && e.key == key
  }

  /** The body of upgrade_osd / upgrade_monitor as far as the coordinator sees
      it: stretches of work, each followed by a kick of the watchdog.  Only the
      alive key is written. */
  method RunUpgrade(w: World, dog: WatchDog, run: UpgradeRun, aliveKey: string) returns (ghost kicks: seq<Event>)
    requires dog.kickKey == Some(aliveKey)
    modifies w, dog
    ensures w.trace == old(w.trace) + kicks && AliveWrites(kicks, aliveKey)
    ensures w.own - {aliveKey} == old(w.own) - {aliveKey}
    ensures w.clock >= old(w.clock)
  {
    kicks := [];
    var i := 0;
    while i < |run.work|
      invariant 0 <= i <= |run.work|
      invariant w.trace == old(w.trace) + kicks && AliveWrites(kicks, aliveKey)
      invariant w.own - {aliveKey} == old(w.own) - {aliveKey}
      invariant w.clock >= old(w.clock)
    {
      w.Elapse(run.work[i]);
      ghost var t := w.trace;
      dog.KickTheDog(w);
      kicks := kicks + w.trace[|t|..];
      i := i + 1;
    }
  }

  function FailedMessage(version: string): string {
    "Upgrade to " + version + " failed"
  }

  /** How lock_and_roll's events end: "maintenance" and the done key when the
      upgrade went through, "blocked" and sys.exit(1) when it did not. */
  function RollEnding(exited: bool, doneKey: string, version: string, now: int): seq<Event> {
    if exited then [StatusSet("blocked", FailedMessage(version)), Exited(1)]
    else [StatusSet("maintenance", "Finishing upgrade"), KeyWritten(doneKey, now)]
  }

  /** What lock_and_roll does between its two key writes: nothing for a
      service it does not know, and for "osd" and "mon" the upgrade action
      followed by alive stamps only. */
  predicate UpgradeMiddle(middle: seq<Event>, service: string, aliveKey: string) {
    if IsKnownService(service) then middle != [] && middle[0] == UpgradeRan(service) && AliveWrites(middle[1..], aliveKey)
    else middle == []
  }

  /** The part of lock_and_roll between the two key writes for "osd" and
      "mon": a watchdog kicking the alive key, and the upgrade action. */
  method UpgradeWithWatchDog(w: World, service: string, aliveKey: string, run: UpgradeRun)
    returns (ghost middle: seq<Event>)
    requires IsKnownService(service)
    modifies w
    ensures w.trace == old(w.trace) + middle && UpgradeMiddle(middle, service, aliveKey)
    ensures w.own - {aliveKey} == old(w.own) - {aliveKey}
    ensures w.clock >= old(w.clock)
  {
    var dog := new WatchDog(w, 3 * 60, Some(aliveKey));
    w.Record(UpgradeRan(service));
    var kicks := RunUpgrade(w, dog, run, aliveKey);
    middle := [UpgradeRan(service)] + kicks;
    assert middle[1..] == kicks;
  }

  /** lock_and_roll: writes the start key, runs the upgrade (for "osd" and "mon"
      only) with a watchdog writing the alive key at most every 180 seconds,
      then sets status "maintenance" and writes the done key.  The result says
      whether the upgrade action ended the process. */
  method LockAndRoll(w: World, service: string, me: string, version: string, run: UpgradeRun)
    returns (exited: bool, ghost middle: seq<Event>)
    modifies w
    ensures exited <==> IsKnownService(service) && !run.succeeds
    ensures w.trace == old(w.trace) + [KeyWritten(UpgradeKey(service, me, version, Start), old(w.clock))]
                       + middle + RollEnding(exited, UpgradeKey(service, me, version, Done), version, w.clock)
    ensures UpgradeMiddle(middle, service, UpgradeKey(service, me, version, Alive))
    ensures UpgradeKey(service, me, version, Done) in w.own <==> !exited || UpgradeKey(service, me, version, Done) in old(w.own)
    ensures UpgradeKey(service, me, version, Start) in w.own
    ensures w.clock >= old(w.clock)
  {
    var startKey := UpgradeKey(service, me, version, Start);
    var aliveKey := UpgradeKey(service, me, version, Alive);
    var doneKey := UpgradeKey(service, me, version, Done);
    w.KeySetNow(startKey);
    middle := [];
    if IsKnownService(service) {
      ghost var own0 := w.own;
      middle := UpgradeWithWatchDog(w, service, aliveKey, run);
      if startKey == aliveKey { UpgradeKeyInjective(service, me, me, version, Start, Alive); }
      if doneKey == aliveKey { UpgradeKeyInjective(service, me, me, version, Done, Alive); }
      assert startKey in own0 - {aliveKey};
      assert doneKey in w.own <==> doneKey in own0 - {aliveKey};
      if !run.succeeds {
        w.SetStatus("blocked", FailedMessage(version));
        w.Record(Exited(1));
        return true, middle;
      }
    }
    w.SetStatus("maintenance", "Finishing upgrade");
    w.KeySetNow(doneKey);
    return false, middle;
  }

  /** A unit that runs lock_and_roll to the end writes its start key first
      and its done key last. */
  lemma LockAndRollKeysOrdered(startKey: string, t0: int, middle: seq<Event>, doneKey: string, version: string, now: int)
    ensures var events := [KeyWritten(startKey, t0)] + middle + RollEnding(false, doneKey, version, now);
            events[0] == KeyWritten(startKey, t0) && events[|events| - 1] == KeyWritten(doneKey, now)
  {
  }

  // ------------------------------------------------------------ waiting

  /** The second half of wait_on_previous_node: the timed wait on the
      predecessor's alive and done keys. */
  method WaitForDone(w: World, service: string, prev: string, version: string)
    returns (outcome: WaitOutcome, ghost polls: seq<Event>)
    modifies w
    ensures w.own == old(w.own)
    ensures w.trace == old(w.trace) + polls && AllPolls(polls, WatchedKeys(service, prev, version))
    ensures old(w.clock) <= w.clock <= old(w.clock) + 30 * 60 + 29
    ensures Some(outcome) == TimedWaitVerdict(UpgradeKey(service, prev, version, Done) in w.Store(),
                                              Lookup(w.Store(), UpgradeKey(service, prev, version, Alive)),
                                              w.clock - old(w.clock), w.clock, 30 * 60, 10 * 60, 5 * 60)
  {
    outcome, polls := TimedWait(w, UpgradeKey(service, prev, version, Alive), UpgradeKey(service, prev, version, Done),
                                30 * 60, 10 * 60, 5 * 60);
    AllPollsWiden(polls, {UpgradeKey(service, prev, version, Alive), UpgradeKey(service, prev, version, Done)},
                  WatchedKeys(service, prev, version));
  }

  /** wait_on_previous_node: waits up to 30 minutes for the predecessor's start
      key, then (timed_wait) up to 30 minutes for its done key, giving up after
      10 minutes without alive stamps or 5 minutes after the last one.  Both
      give-ups are caught: the method always returns, never writes to the
      store, and reads only the predecessor's three keys. */
  method WaitOnPreviousNode(w: World, service: string, prev: string, version: string)
    returns (ghost polls: seq<Event>, ghost started: WaitOutcome, ghost waited: Option<WaitOutcome>, ghost waitFrom: int)
    modifies w
    ensures w.own == old(w.own)
    ensures w.trace == old(w.trace) + polls && AllPolls(polls, WatchedKeys(service, prev, version))
    ensures polls != [] && polls[0] == KeyRead(UpgradeKey(service, prev, version, Start))
    ensures old(w.clock) <= w.clock <= old(w.clock) + 2 * (30 * 60 + 29)
    ensures started != Dead && (started == Complete <==> waited.Some?)
    ensures started == Timeout ==>
              UpgradeKey(service, prev, version, Start) !in w.Store() && w.clock > old(w.clock) + 30 * 60
    ensures waited.Some? ==>
              old(w.clock) <= waitFrom <= w.clock
              && Some(waited.value) == TimedWaitVerdict(UpgradeKey(service, prev, version, Done) in w.Store(),
                                                        Lookup(w.Store(), UpgradeKey(service, prev, version, Alive)),
                                                        w.clock - waitFrom, w.clock, 30 * 60, 10 * 60, 5 * 60)
  {
    var found;
    found, polls := WaitUntil(w, UpgradeKey(service, prev, version, Start), 30 * 60);
    started, waitFrom := found, w.clock;
    AllPollsWiden(polls, {UpgradeKey(service, prev, version, Start)}, WatchedKeys(service, prev, version));
    if found == Timeout {
      waited := None;
      return;
    }
    var outcome;
    ghost var more;
    outcome, more := WaitForDone(w, service, prev, version);
    AllPollsJoined(polls, more, WatchedKeys(service, prev, version));
    polls := polls + more;
    waited := Some(outcome);
  }

  /** The done keys wait_for_all_monitors_to_upgrade reads. */
  function MonitorDoneKeys(monitors: seq<string>, version: string): set<string> {
    set m | m in monitors :: UpgradeKey("mon", m, version, Done)
  }

  /** One poll of wait_for_all_monitors_to_upgrade: Python's all() reads the
      done keys in order and stops at the first one that is missing. */
  method AllMonitorsDone(w: World, monitors: seq<string>, version: string) returns (done: bool, ghost polls: seq<Event>)
    modifies w
    ensures done <==> forall m :: m in monitors ==> UpgradeKey("mon", m, version, Done) in w.Store()
    ensures w.clock == old(w.clock) && w.own == old(w.own)
    ensures w.trace == old(w.trace) + polls && AllPolls(polls, MonitorDoneKeys(monitors, version))
  {
    polls := [];
    var i := 0;
    while i < |monitors|
      invariant 0 <= i <= |monitors|
      invariant forall j :: 0 <= j < i ==> UpgradeKey("mon", monitors[j], version, Done) in w.Store()
      invariant w.clock == old(w.clock) && w.own == old(w.own)
      invariant w.trace == old(w.trace) + polls && AllPolls(polls, MonitorDoneKeys(monitors, version))
    {
      var key := UpgradeKey("mon", monitors[i], version, Done);
      var present := w.KeyExists(key);
      polls := polls + [KeyRead(key)];
      if !present {
        return false, polls;
      }
      i := i + 1;
    }
    return true, polls;
  }

  /** What wait_for_all_monitors_to_upgrade does after a poll that saw `done`
      with `elapsed` seconds gone: it raises once more than ten minutes have
      passed, whether or not every monitor was done, and otherwise sleeps 30
      seconds before it stops (done) or polls again. */
  datatype BarrierStep = RaiseTimeout | SleepThenReturn | SleepThenPoll

  function BarrierDecision(done: bool, elapsed: int): (s: BarrierStep)
    ensures s == RaiseTimeout <==> elapsed > 10 * 60
    ensures s == SleepThenReturn <==> done && elapsed <= 10 * 60
  {
    if elapsed > 10 * 60 then RaiseTimeout
    else if done then SleepThenReturn
    else SleepThenPoll
  }

  /** wait_for_all_monitors_to_upgrade: polls every 30 seconds until all
      monitors' done keys exist; raises (the result is true) when a poll
      happens more than ten minutes after the start. */
  method WaitForAllMonitorsToUpgrade(w: World, monitors: seq<string>, version: string)
    returns (raised: bool, ghost polls: seq<Event>)
    modifies w
    ensures raised ==> w.clock > old(w.clock) + 10 * 60
    ensures !raised ==> old(w.clock) + 30 <= w.clock
                        && forall m :: m in monitors ==> UpgradeKey("mon", m, version, Done) in w.peers(w.clock - 30) + w.own
    ensures old(w.clock) <= w.clock <= old(w.clock) + 10 * 60 + 30
    ensures w.own == old(w.own)
    ensures w.trace == old(w.trace) + polls && AllPolls(polls, MonitorDoneKeys(monitors, version))
  {
    var start := w.clock;
    var done := false;
    polls := [];
    while !done
      invariant start <= w.clock <= start + 10 * 60 + 30
      invariant w.own == old(w.own)
      invariant w.trace == old(w.trace) + polls && AllPolls(polls, MonitorDoneKeys(monitors, version))
      invariant done ==> start + 30 <= w.clock
                         && forall m :: m in monitors ==> UpgradeKey("mon", m, version, Done) in w.peers(w.clock - 30) + w.own
      decreases start + 10 * 60 + 30 - w.clock, if done then 0 else 1
    {
      ghost var seen;
      done, seen := AllMonitorsDone(w, monitors, version);
      polls := polls + seen;
      ghost var polledAt := w.clock;
      assert w.peers(polledAt) + w.own == w.Store();
      match BarrierDecision(done, w.clock - start)
      case RaiseTimeout =>
        return true, polls;
      case _ =>
        w.Sleep(30);
        polls := polls + [Slept(30)];
    }
    return false, polls;
  }

  /** A monitor that sees every monitor done only after the ten minutes are up
      still raises. */
  lemma BarrierRaisesWhenAllDoneLate()
    ensures BarrierDecision(true, 10 * 60 + 1) == RaiseTimeout
  {
  }

  // ------------------------------------------------------------ rolling

  datatype RollOutcome = Returned | SysExit(code: int) | Raised

  function WaitingMessage(prev: string): string {
    "Waiting on " + prev + " to finish upgrading"
  }

  /** The events before a unit writes its start key: none for the first in
      line; for any other, status "waiting" naming its predecessor and then
      polls of the predecessor's keys only, beginning with its start key. */
  predicate RollOpening(opening: seq<Event>, service: string, version: string, prev: Option<string>) {
    match prev
    case None => opening == []
    case Some(p) =>
      |opening| >= 2
      && opening[0] == StatusSet("waiting", WaitingMessage(p))
      && opening[1] == KeyRead(UpgradeKey(service, p, version, Start))
      && AllPolls(opening[1..], WatchedKeys(service, p, version))
  }

  /** The pieces of a unit's events from the moment it knows its place: the
      opening, the time its start key was written, what lock_and_roll did in
      between, and the time lock_and_roll ended. */
  datatype RollLog = RollLog(opening: seq<Event>, stamp: int, middle: seq<Event>, finished: int)

  /** `after` is `before` followed by the opening, the start key, the upgrade
      and lock_and_roll's ending, then `tail`. */
  predicate Rolled(before: seq<Event>, after: seq<Event>, log: RollLog, tail: seq<Event>, service: string,
                   me: string, version: string, prev: Option<string>, exited: bool)
  {
    after == before + log.opening + [KeyWritten(UpgradeKey(service, me, version, Start), log.stamp)] + log.middle
             + RollEnding(exited, UpgradeKey(service, me, version, Done), version, log.finished) + tail
    && RollOpening(log.opening, service, version, prev)
    && UpgradeMiddle(log.middle, service, UpgradeKey(service, me, version, Alive))
    && log.stamp <= log.finished
  }

  /** Events appended after lock_and_roll become the tail of the log. */
  lemma RolledThen(before: seq<Event>, mid: seq<Event>, tail: seq<Event>, log: RollLog, service: string,
                   me: string, version: string, prev: Option<string>, exited: bool)
    requires Rolled(before, mid, log, [], service, me, version, prev, exited)
    ensures Rolled(before, mid + tail, log, tail, service, me, version, prev, exited)
  {
    var ending := RollEnding(exited, UpgradeKey(service, me, version, Done), version, log.finished);
    var core := before + log.opening + [KeyWritten(UpgradeKey(service, me, version, Start), log.stamp)] + log.middle + ending;
    assert mid == core + [];
    assert mid + tail == core + tail;
  }

  /** The part roll_monitor_cluster and roll_osd_cluster share once the unit
      knows its predecessor `prev` (None for the first in line): the opening,
      then lock_and_roll. */
  method RollAfter(w: World, service: string, me: string, prev: Option<string>, version: string, run: UpgradeRun)
    returns (exited: bool, ghost log: RollLog)
    requires IsKnownService(service)
    modifies w
    ensures exited <==> !run.succeeds
    ensures Rolled(old(w.trace), w.trace, log, [], service, me, version, prev, exited)
    ensures old(w.clock) <= log.stamp && log.finished == w.clock
    ensures !exited ==> UpgradeKey(service, me, version, Done) in w.own
  {
    ghost var opening := [];
    if prev.Some? {
      w.SetStatus("waiting", WaitingMessage(prev.value));
      var polls, _, _, _ := WaitOnPreviousNode(w, service, prev.value, version);
      opening := [StatusSet("waiting", WaitingMessage(prev.value))] + polls;
      assert opening[1..] == polls;
    }
    assert w.trace == old(w.trace) + opening;
    ghost var afterOpening := w.trace;
    ghost var stamp := w.clock;
    ghost var middle;
    exited, middle := LockAndRoll(w, service, me, version, run);
    ghost var written := [KeyWritten(UpgradeKey(service, me, version, Start), stamp)];
    ghost var ending := RollEnding(exited, UpgradeKey(service, me, version, Done), version, w.clock);
    assert w.trace == afterOpening + written + middle + ending;
    assert w.trace == old(w.trace) + opening + written + middle + ending + [];
    log := RollLog(opening, stamp, middle, w.clock);
  }

  /** What roll_monitor_cluster does after lock_and_roll returned: for
      luminous, the barrier on every monitor and then bootstrap_manager. */
  predicate MonitorTail(tail: seq<Event>, outcome: RollOutcome, monitors: seq<string>, version: string) {
    if version != "luminous" then tail == [] && outcome == Returned
    else if outcome == Raised then AllPolls(tail, MonitorDoneKeys(monitors, version))
    else outcome == Returned && tail != [] && tail[|tail| - 1] == ManagerBootstrapped
         && AllPolls(tail[..|tail| - 1], MonitorDoneKeys(monitors, version))
  }

  method FinishMonitorRoll(w: World, monitors: seq<string>, version: string)
    returns (outcome: RollOutcome, ghost tail: seq<Event>)
    modifies w
    ensures w.trace == old(w.trace) + tail && MonitorTail(tail, outcome, monitors, version)
    ensures w.own == old(w.own) && w.clock >= old(w.clock)
  {
    tail := [];
    outcome := Returned;
    if version == "luminous" {
      var raised;
      ghost var polls;
      raised, polls := WaitForAllMonitorsToUpgrade(w, monitors, version);
      tail := polls;
      if raised {
        outcome := Raised;
      } else {
        w.Record(ManagerBootstrapped);
        tail := polls + [ManagerBootstrapped];
        assert tail[..|tail| - 1] == polls;
      }
    }
  }

  /** The predecessor of the member at `position` in a sorted name list. */
  function Predecessor(names: seq<string>, position: nat): (p: Option<string>)
    requires position < |names|
    ensures p.None? <==> position == 0
  {
    if position == 0 then None else Some(names[position - 1])
  }

  /** roll_monitor_cluster.  `monitors` are the names in the monitor map and
      `me` is this host's name; the second result is the rank found. */
  method RollMonitorCluster(w: World, me: string, monitors: seq<string>, version: string, run: UpgradeRun)
    returns (outcome: RollOutcome, rank: Option<nat>, ghost log: RollLog, ghost tail: seq<Event>)
    modifies w
    ensures monitors == [] ==>
      (outcome == SysExit(1) && w.own == old(w.own)
       && w.trace == old(w.trace) + [StatusSet("blocked", "Unable to get monitor cluster information"), Exited(1)])
    ensures rank == (if monitors == [] then None else IndexOf(SortBy(monitors, Identity), me))
    ensures monitors != [] && me !in monitors ==>
      (outcome == Returned && w.own == old(w.own) && w.trace == old(w.trace) + [StatusSet("blocked", "failed to upgrade monitor")])
    ensures rank.Some? ==>
      var sorted := SortBy(monitors, Identity);
      Rolled(old(w.trace), w.trace, log, tail, "mon", me, version, Predecessor(sorted, rank.value), !run.succeeds)
      && (rank.value > 0 ==> sorted[rank.value - 1] != me)
      && (!run.succeeds ==> outcome == SysExit(1) && tail == [])
      && (run.succeeds ==> MonitorTail(tail, outcome, monitors, version))
  {
    rank := None;
    log, tail := RollLog([], 0, [], 0), [];
    if monitors == [] {
      w.SetStatus("blocked", "Unable to get monitor cluster information");
      w.Record(Exited(1));
      return SysExit(1), rank, log, tail;
    }
    var sorted := SortBy(monitors, Identity);
    SortByKeeps(monitors, Identity);
    rank := IndexOf(sorted, me);
    if rank.None? {
      w.SetStatus("blocked", "failed to upgrade monitor");
      return Returned, rank, log, tail;
    }
    var position := rank.value;
    if position > 0 {
      SortBySorted(monitors, Identity);
      PredecessorIsOther(sorted, me, position);
    }
    var exited;
    exited, log := RollAfter(w, "mon", me, Predecessor(sorted, position), version, run);
    if exited {
      return SysExit(1), rank, log, tail;
    }
    ghost var mid := w.trace;
    outcome, tail := FinishMonitorRoll(w, monitors, version);
    RolledThen(old(w.trace), mid, tail, log, "mon", me, version, Predecessor(sorted, position), !run.succeeds);
  }

  /** roll_osd_cluster once `sorted` is the host list in name order: find
      this host, then roll after its predecessor. */
  method RollSortedHosts(w: World, me: string, sorted: seq<CrushLocation>, version: string, run: UpgradeRun)
    returns (outcome: RollOutcome, rank: Result<nat, string>, ghost log: RollLog)
    modifies w
    ensures rank == GetUpgradePosition(sorted, me)
    ensures rank.Err? ==>
      (outcome == Returned && w.own == old(w.own) && w.trace == old(w.trace) + [StatusSet("blocked", "failed to upgrade osd")])
    ensures rank.Ok? ==>
      Rolled(old(w.trace), w.trace, log, [], "osd", me, version,
             if rank.value == 0 then None else Some(sorted[rank.value - 1].name), !run.succeeds)
      && (rank.value > 0 ==> sorted[rank.value - 1].name != me)
      && (run.succeeds <==> outcome == Returned)
      && (!run.succeeds ==> outcome == SysExit(1))
      && (outcome == Returned ==> UpgradeKey("osd", me, version, Done) in w.own)
  {
    log := RollLog([], 0, [], 0);
    rank := GetUpgradePosition(sorted, me);
    if rank.Err? {
      w.SetStatus("blocked", "failed to upgrade osd");
      return Returned, rank, log;
    }
    var prev := if rank.value == 0 then None else Some(sorted[rank.value - 1].name);
    var exited;
    exited, log := RollAfter(w, "osd", me, prev, version, run);
    outcome := if exited then SysExit(1) else Returned;
  }

  /** roll_osd_cluster.  `tree` is what get_osd_tree returned: the OSD
      hosts, or None when the tree has no nodes, which `sorted` cannot
      iterate (it is called outside the `try`).  `me` is this host's name;
      the second result is the position found, or why none was. */
  method RollOsdCluster(w: World, me: string, tree: Option<seq<CrushLocation>>, version: string, run: UpgradeRun)
    returns (outcome: RollOutcome, rank: Result<nat, string>, ghost log: RollLog)
    modifies w
    ensures outcome == Raised <==> tree.None?
    ensures tree.None? ==> w.own == old(w.own) && w.trace == old(w.trace)
    ensures tree.Some? ==> rank == GetUpgradePosition(SortBy(tree.value, LocationName), me)
    ensures tree.Some? && rank.Err? ==>
      (outcome == Returned && w.own == old(w.own) && w.trace == old(w.trace) + [StatusSet("blocked", "failed to upgrade osd")])
    ensures tree.Some? && rank.Ok? ==>
      var sorted := SortBy(tree.value, LocationName);
      Rolled(old(w.trace), w.trace, log, [], "osd", me, version,
             if rank.value == 0 then None else Some(sorted[rank.value - 1].name), !run.succeeds)
      && (rank.value > 0 ==> sorted[rank.value - 1].name != me)
      && (run.succeeds <==> outcome == Returned)
      && (!run.succeeds ==> outcome == SysExit(1))
      && (outcome == Returned ==> UpgradeKey("osd", me, version, Done) in w.own)
  {
    if tree.None? {
      return Raised, Err("TypeError: 'NoneType' object is not iterable"), RollLog([], 0, [], 0);
    }
    outcome, rank, log := RollSortedHosts(w, me, SortBy(tree.value, LocationName), version, run);
  }

}
