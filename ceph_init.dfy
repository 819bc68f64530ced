/** The oldest copy of the charm library, ceph/__init__.py: its rolling-upgrade
    coordinator (roll_monitor_cluster, roll_osd_cluster, lock_and_roll,
    wait_on_previous_node), parse_key, find_least_used_journal and the
    `ceph-disk prepare` command osdize_dev assembles.  CrushLocation,
    get_osd_tree and get_upgrade_position are the same text as in
    ceph/utils.py and are the Upgrade and LegacyUtils ones. */
module CephInit {
  import opened Wrappers
  import opened Runtime
  import opened Text
  import Sorting
  import Upgrade
  import Helpers
  import LegacyUtils

  // ------------------------------------------------------------ keys

  /** The keys wait_on_previous_node reads: "{previous_node}_{version}_done"
      and "..._start", without the service lock_and_roll puts in front. */
  function OldKey(prev: string, version: string, phase: Phase): (k: string)
    ensures |k| == |prev| + |version| + |PhaseName(phase)| + 2
  {
    prev + "_" + version + "_" + PhaseName(phase)
  }

  /** The number of underscores in a string. */
  function Underscores(s: string): nat {
    multiset(s)['_']
  }

  lemma NoUnderscore(s: string)
    requires '_' !in s
    ensures Underscores(s) == 0
  {
    assert '_' !in multiset(s);
  }

  /** For names without underscores (host names and release names have
      none), the keys the wait reads are never keys lock_and_roll writes:
      one has two underscores, the other three.  So a unit of this copy
      never sees its predecessor finish, whatever the predecessor wrote. */
  lemma OldKeysNeverWritten(service: string, node: string, prev: string, version: string, p: Phase, q: Phase)
    requires '_' !in service && '_' !in node && '_' !in prev && '_' !in version
    ensures OldKey(prev, version, p) != UpgradeKey(service, node, version, q)
  {
    assert '_' !in PhaseName(p) && '_' !in PhaseName(q);
    NoUnderscore(PhaseName(p));
    NoUnderscore(PhaseName(q));
    NoUnderscore(service);
    NoUnderscore(node);
    NoUnderscore(prev);
    NoUnderscore(version);
    assert Underscores(OldKey(prev, version, p)) == 2 by {
      assert OldKey(prev, version, p) == prev + "_" + version + "_" + PhaseName(p);
    }
    assert Underscores(UpgradeKey(service, node, version, q)) == 3 by {
      assert UpgradeKey(service, node, version, q) == service + "_" + node + "_" + version + "_" + PhaseName(q);
    }
  }

  // ------------------------------------------------------------ lock_and_roll

  /** How this copy's lock_and_roll ends: the done key when upgrade_osd came
      back, status "blocked" and sys.exit(1) when it did not.  There is no
      "maintenance" status here. */
  function Ending(exited: bool, doneKey: string, version: string, now: int): seq<Event> {
    if exited then [StatusSet("blocked", Upgrade.FailedMessage(version)), Exited(1)]
    else [KeyWritten(doneKey, now)]
  }

  /** Everything lock_and_roll does, in order. */
  function LockEvents(service: string, me: string, version: string, stamp: int, exited: bool, now: int): seq<Event> {
    [KeyWritten(UpgradeKey(service, me, version, Start), stamp), UpgradeRan("osd")]
    + Ending(exited, UpgradeKey(service, me, version, Done), version, now)
  }

  /** lock_and_roll: writes "{service}_{me}_{version}_start", runs
      upgrade_osd() (taking `work` seconds) whatever the service, monitors
      included, and writes "..._done" unless the upgrade ended the process. */
  method LockAndRoll(w: World, service: string, me: string, version: string, work: nat, succeeds: bool)
    returns (exited: bool)
    modifies w
    ensures exited <==> !succeeds
    ensures w.clock == old(w.clock) + work
    ensures w.trace == old(w.trace) + LockEvents(service, me, version, old(w.clock), exited, w.clock)
    ensures exited ==> w.own == old(w.own)[UpgradeKey(service, me, version, Start) := old(w.clock)]
    ensures !exited ==> w.own == old(w.own)[UpgradeKey(service, me, version, Start) := old(w.clock)]
                                           [UpgradeKey(service, me, version, Done) := w.clock]
  {
    w.KeySetNow(UpgradeKey(service, me, version, Start));
    w.Record(UpgradeRan("osd"));
    w.Elapse(work);
    if !succeeds {
      w.SetStatus("blocked", Upgrade.FailedMessage(version));
      w.Record(Exited(1));
      return true;
    }
    w.KeySetNow(UpgradeKey(service, me, version, Done));
    exited := false;
  }

  /** The upgrade action a monitor runs here is the OSD one, unlike in the
      later copies. */
  lemma MonitorsRunTheOsdUpgrade(me: string, version: string, stamp: int, exited: bool, now: int)
    ensures UpgradeRan("osd") in LockEvents("mon", me, version, stamp, exited, now)
    ensures UpgradeRan("mon") !in LockEvents("mon", me, version, stamp, exited, now)
  {
    var events := LockEvents("mon", me, version, stamp, exited, now);
    assert events[1] == UpgradeRan("osd");
    assert "mon" != "osd" by { assert "mon"[0] != "osd"[0]; }
  }

  // ------------------------------------------------------------ waiting

  /** How one round of the wait ended: there is no start time, so nothing
      else happened; or there is one, and after a sleep the done key was
      read again. */
  datatype Round = Spun | Polled(finished: bool)

  /** One round of wait_on_previous_node's loop, entered with the done key
      absent.  monitor_key_get returns the stored value as a str, and this
      copy runs under Python 2, where a number compares below every str and
      None below every number.  So `now - 600 > start` is False whenever a
      start time is stored, and the round sleeps and polls; it is True when
      there is none, and then the `is not None` test fails and the round
      does nothing but the read.  The ten-minute give-up never happens. */
  method WaitRound(w: World, doneKey: string, startKey: string) returns (round: Round, ghost events: seq<Event>)
    modifies w
    ensures w.own == old(w.own) && w.trace == old(w.trace) + events
    ensures events != [] && events[0] == KeyRead(startKey)
    ensures LegacyUtils.WaitEvents(events, doneKey, startKey)
    ensures round == Spun <==> startKey !in old(w.Store())
    ensures round == Spun ==> events == [KeyRead(startKey)] && w.clock == old(w.clock)
    ensures round.Polled? <==> startKey in old(w.Store())
    ensures round.Polled? ==> old(w.clock) + 5 <= w.clock < old(w.clock) + 30
                              && (round.finished <==> doneKey in w.Store())
  {
    var start := w.KeyGet(startKey);
    events := [KeyRead(startKey)];
    if start.None? {
      round := Spun;
    } else {
      var delay := RandomDelay();
      w.Sleep(delay);
      var finished := w.KeyExists(doneKey);
      events := events + [Slept(delay), KeyRead(doneKey)];
      round := Polled(finished);
    }
  }

  /** n reads of `key` in a row. */
  function Reads(n: nat, key: string): (r: seq<Event>)
    ensures |r| == n && forall k :: 0 <= k < n ==> r[k] == KeyRead(key)
  {
    if n == 0 then [] else Reads(n - 1, key) + [KeyRead(key)]
  }

  /** One round of WaitRounds, its events added to the polls so far. */
  method NextRound(w: World, doneKey: string, startKey: string, ghost trace0: seq<Event>, ghost polls0: seq<Event>)
    returns (round: Round, ghost polls: seq<Event>)
    requires w.trace == trace0 + polls0 && LegacyUtils.WaitEvents(polls0, doneKey, startKey)
    modifies w
    ensures w.own == old(w.own) && old(w.clock) <= w.clock
    ensures w.trace == trace0 + polls && |polls| > |polls0|
    ensures LegacyUtils.WaitEvents(polls, doneKey, startKey)
    ensures round.Polled? ==> (round.finished <==> doneKey in w.Store())
    ensures round == Spun <==> startKey !in old(w.Store())
    ensures round == Spun ==> w.clock == old(w.clock) && w.Store() == old(w.Store()) && polls == polls0 + [KeyRead(startKey)]
  {
    ghost var events;
    round, events := WaitRound(w, doneKey, startKey);
    LegacyUtils.WaitEventsAppend(polls0, events, doneKey, startKey);
    polls := polls0 + events;
  }

  /** The loop of wait_on_previous_node, entered with the done key absent:
      rounds until the done key appears; it never presumes the predecessor
      dead.  While there is no start time the loop spins without
      sleeping, so the clock stands still and the store, as this unit sees
      it, never changes.  `fuel` bounds the number of rounds. */
  method WaitRounds(w: World, doneKey: string, startKey: string, fuel: nat)
    returns (end: LegacyUtils.WaitEnd, ghost polls: seq<Event>)
    requires doneKey !in w.Store()
    modifies w
    ensures w.own == old(w.own) && old(w.clock) <= w.clock
    ensures w.trace == old(w.trace) + polls
    ensures LegacyUtils.WaitEvents(polls, doneKey, startKey)
    ensures end != LegacyUtils.PresumedDead
    ensures end == LegacyUtils.PreviousDone ==> doneKey in w.Store()
    ensures end == LegacyUtils.OutOfPolls ==> |polls| >= fuel && doneKey !in w.Store()
    ensures startKey !in old(w.Store()) ==>
              end == LegacyUtils.OutOfPolls && w.clock == old(w.clock) && polls == Reads(fuel, startKey)
  {
    polls := [];
    ghost var spinning := startKey !in w.Store();
    var finished := false;
    var left: nat := fuel;
    while !finished
      invariant left <= fuel
      invariant w.own == old(w.own) && old(w.clock) <= w.clock
      invariant w.trace == old(w.trace) + polls
      invariant LegacyUtils.WaitEvents(polls, doneKey, startKey)
      invariant finished <==> doneKey in w.Store()
      invariant |polls| >= fuel - left
      invariant spinning ==> !finished && w.clock == old(w.clock) && startKey !in w.Store()
      invariant spinning ==> polls == Reads(fuel - left, startKey)
      decreases left
    {
      if left == 0 {
        return LegacyUtils.OutOfPolls, polls;
      }
      var round;
      round, polls := NextRound(w, doneKey, startKey, old(w.trace), polls);
      if round.Polled? {
        finished := round.finished;
      }
      left := left - 1;
    }
    end := LegacyUtils.PreviousDone;
  }

  /** wait_on_previous_node: reads the predecessor's done key and, while it
      is absent, runs the rounds of the wait. */
  method WaitOnPreviousNode(w: World, prev: string, version: string, fuel: nat)
    returns (end: LegacyUtils.WaitEnd, ghost polls: seq<Event>)
    modifies w
    ensures w.own == old(w.own) && old(w.clock) <= w.clock
    ensures w.trace == old(w.trace) + polls
    ensures polls != [] && polls[0] == KeyRead(OldKey(prev, version, Done))
    ensures LegacyUtils.WaitEvents(polls, OldKey(prev, version, Done), OldKey(prev, version, Start))
    ensures OldKey(prev, version, Done) in old(w.Store()) ==>
              end == LegacyUtils.PreviousDone && polls == [KeyRead(OldKey(prev, version, Done))]
              && w.clock == old(w.clock)
    ensures end != LegacyUtils.PresumedDead
    ensures end == LegacyUtils.PreviousDone ==> OldKey(prev, version, Done) in w.Store()
    ensures end == LegacyUtils.OutOfPolls ==> |polls| > fuel && OldKey(prev, version, Done) !in w.Store()
    ensures OldKey(prev, version, Done) !in old(w.Store()) && OldKey(prev, version, Start) !in old(w.Store()) ==>
              end == LegacyUtils.OutOfPolls && w.clock == old(w.clock)
              && polls == [KeyRead(OldKey(prev, version, Done))] + Reads(fuel, OldKey(prev, version, Start))
  {
    var doneKey := OldKey(prev, version, Done);
    var startKey := OldKey(prev, version, Start);
    var finished := w.KeyExists(doneKey);
    if finished {
      return LegacyUtils.PreviousDone, [KeyRead(doneKey)];
    }
    ghost var rest;
    end, rest := WaitRounds(w, doneKey, startKey, fuel);
    polls := [KeyRead(doneKey)] + rest;
  }

  // ------------------------------------------------------------ rolling

  /** What a roll ended with: finished, sys.exit, an exception that escapes,
      or still waiting when the model's bound on polls ran out. */
  datatype RollOutcome = Finished | Exit(code: int) | Crash(error: string) | StillWaiting

  /** The events before a unit writes its start key, when it has a
      predecessor: status "blocked" naming it, then the wait's reads and
      sleeps, beginning with its done key. */
  predicate Opening(opening: seq<Event>, prev: string, version: string) {
    |opening| >= 2
    && opening[0] == StatusSet("blocked", Upgrade.WaitingMessage(prev))
    && opening[1] == KeyRead(OldKey(prev, version, Done))
    && LegacyUtils.WaitEvents(opening[1..], OldKey(prev, version, Done), OldKey(prev, version, Start))
  }

  /** A unit with a predecessor: status "blocked" naming it, then the wait;
      `go` is false only when the bound on polls ran out. */
  method WaitForTurn(w: World, prev: string, version: string, fuel: nat)
    returns (go: bool, ghost opening: seq<Event>)
    modifies w
    ensures Opening(opening, prev, version)
    ensures w.trace == old(w.trace) + opening && w.own == old(w.own) && old(w.clock) <= w.clock
  {
    w.SetStatus("blocked", Upgrade.WaitingMessage(prev));
    var end, polls := WaitOnPreviousNode(w, prev, version, fuel);
    opening := [StatusSet("blocked", Upgrade.WaitingMessage(prev))] + polls;
    assert opening[1..] == polls;
    go := end != LegacyUtils.OutOfPolls;
  }

  /** After a unit knows its predecessor (None for the first in line): the
      first in line rolls at once; any other sets its status, waits and then
      rolls. */
  method RollAfter(w: World, service: string, me: string, prev: Option<string>, version: string,
                   fuel: nat, work: nat, succeeds: bool)
    returns (outcome: RollOutcome, ghost opening: seq<Event>, ghost stamp: int)
    modifies w
    ensures prev.None? ==> opening == [] && outcome != StillWaiting
    ensures prev.Some? ==> Opening(opening, prev.value, version)
    ensures outcome == StillWaiting ==> w.trace == old(w.trace) + opening && w.own == old(w.own)
    ensures outcome != StillWaiting ==>
              (outcome == Finished || outcome == Exit(1)) && (outcome == Exit(1) <==> !succeeds)
              && old(w.clock) <= stamp && stamp + work == w.clock
              && w.trace == old(w.trace) + opening + LockEvents(service, me, version, stamp, !succeeds, w.clock)
  {
    opening := [];
    if prev.Some? {
      var go;
      go, opening := WaitForTurn(w, prev.value, version, fuel);
      if !go {
        return StillWaiting, opening, w.clock;
      }
    }
    stamp := w.clock;
    var exited := LockAndRoll(w, service, me, version, work, succeeds);
    outcome := if exited then Exit(1) else Finished;
  }

  /** roll_osd_cluster.  `tree` is what get_osd_tree returned (None for a
      tree without nodes); the second result is the position found.  What
      follows the lookup is the step the older coordinator takes. */
  method RollOsdCluster(w: World, me: string, tree: Option<seq<Upgrade.CrushLocation>>, version: string,
                        fuel: nat, work: nat, succeeds: bool)
    returns (outcome: RollOutcome, position: Option<nat>, ghost opening: seq<Event>, ghost stamp: int)
    modifies w
    ensures tree.None? ==> outcome == Crash("TypeError: 'NoneType' object is not iterable") && position.None?
    ensures outcome.Crash? ==> w.trace == old(w.trace) && w.own == old(w.own)
    ensures tree.Some? ==>
              var sorted := Sorting.SortBy(tree.value, Upgrade.LocationName);
              var step := LegacyUtils.OsdRollStepAsWritten(sorted, me);
              position == LegacyUtils.UpgradePosition(sorted, me)
              && (step.Crashed? ==> outcome == Crash(step.error))
              && (step.RollFirst? ==> opening == [] && outcome != StillWaiting)
              && (step.RollAfter? ==> step.prev != me && Opening(opening, step.prev, version))
    ensures outcome == StillWaiting ==> w.trace == old(w.trace) + opening && w.own == old(w.own)
    ensures !outcome.Crash? && outcome != StillWaiting ==>
              (outcome == Exit(1) <==> !succeeds) && (outcome == Finished <==> succeeds)
              && w.trace == old(w.trace) + opening + LockEvents("osd", me, version, stamp, !succeeds, w.clock)
  {
    opening, stamp := [], w.clock;
    position := None;
    if tree.None? {
      return Crash("TypeError: 'NoneType' object is not iterable"), position, opening, stamp;
    }
    var sorted := Sorting.SortBy(tree.value, Upgrade.LocationName);
    position := LegacyUtils.UpgradePosition(sorted, me);
    var step := LegacyUtils.OsdRollStepAsWritten(sorted, me);
    match step
    case Crashed(error) =>
      outcome := Crash(error);
    case RollFirst =>
      outcome, opening, stamp := RollAfter(w, "osd", me, None, version, fuel, work, succeeds);
    case RollAfter(prev) =>
      outcome, opening, stamp := RollAfter(w, "osd", me, Some(prev), version, fuel, work, succeeds);
    case Blocked(_) =>
      assert false;
  }

  /** roll_monitor_cluster.  `monitors` are the names in the monitor map;
      the second result is the rank found by list.index. */
  method RollMonitorCluster(w: World, me: string, monitors: seq<string>, version: string,
                            fuel: nat, work: nat, succeeds: bool)
    returns (outcome: RollOutcome, rank: Option<nat>, ghost opening: seq<Event>, ghost stamp: int)
    modifies w
    ensures monitors == [] ==>
              outcome == Exit(1) && w.own == old(w.own)
              && w.trace == old(w.trace) + [StatusSet("blocked", "Unable to get monitor cluster information"), Exited(1)]
    ensures rank == (if monitors == [] then None else Upgrade.IndexOf(Sorting.SortBy(monitors, Upgrade.Identity), me))
    ensures monitors != [] && me !in monitors ==>
              outcome == Finished && w.own == old(w.own)
              && w.trace == old(w.trace) + [StatusSet("blocked", "failed to upgrade monitor")]
    ensures rank.Some? ==>
              var prev := Upgrade.Predecessor(Sorting.SortBy(monitors, Upgrade.Identity), rank.value);
              (prev.None? ==> opening == [] && outcome != StillWaiting)
              && (prev.Some? ==> prev.value != me && Opening(opening, prev.value, version))
              && (outcome == StillWaiting ==> w.trace == old(w.trace) + opening && w.own == old(w.own))
              && (outcome != StillWaiting ==>
                    (outcome == Exit(1) <==> !succeeds) && (outcome == Finished <==> succeeds)
                    && w.trace == old(w.trace) + opening + LockEvents("mon", me, version, stamp, !succeeds, w.clock))
  {
    opening, stamp := [], w.clock;
    rank := None;
    if monitors == [] {
      w.SetStatus("blocked", "Unable to get monitor cluster information");
      w.Record(Exited(1));
      return Exit(1), rank, opening, stamp;
    }
    var sorted := Sorting.SortBy(monitors, Upgrade.Identity);
    Sorting.SortByKeeps(monitors, Upgrade.Identity);
    rank := Upgrade.IndexOf(sorted, me);
    if rank.None? {
      w.SetStatus("blocked", "failed to upgrade monitor");
      return Finished, rank, opening, stamp;
    }
    outcome, opening, stamp := RollAfter(w, "mon", me, Upgrade.Predecessor(sorted, rank.value), version, fuel, work, succeeds);
  }

  // ------------------------------------------------------------ parse_key

  /** The index of the last of the first n lines that contains `sub`, if any. */
  function LastLineWith(lines: seq<string>, n: nat, sub: string): (r: Option<nat>)
    requires n <= |lines|
    ensures r.Some? ==> r.value < n
  {
    if n == 0 then None
    else if Contains(lines[n - 1], sub) then Some(n - 1)
    else LastLineWith(lines, n - 1, sub)
  }

  /** LastLineWith finds a matching line after which none matches, and
      finds none exactly when no line matches. */
  lemma {:induction false} LastLineWithIsLast(lines: seq<string>, n: nat, sub: string)
    requires n <= |lines|
    ensures var r := LastLineWith(lines, n, sub);
            (r.Some? ==> Contains(lines[r.value], sub) && forall j :: r.value < j < n ==> !Contains(lines[j], sub))
            && (r.None? <==> forall j :: 0 <= j < n ==> !Contains(lines[j], sub))
  {
    if n > 0 {
      LastLineWithIsLast(lines, n - 1, sub);
    }
  }

  /** A line parse_key can read: one that does not mention "key", or one
      with a " = " to split at. */
  predicate Parsable(line: string) {
    Contains(line, "key") ==> Contains(line, " = ")
  }

  /** Whether the first n lines are all Parsable. */
  predicate ParsableLines(lines: seq<string>, n: nat)
    requires n <= |lines|
  {
    n == 0 || (ParsableLines(lines, n - 1) && Parsable(lines[n - 1]))
  }

  lemma {:induction false} ParsableLinesAll(lines: seq<string>, n: nat)
    requires n <= |lines|
    ensures ParsableLines(lines, n) <==> forall j :: 0 <= j < n ==> Parsable(lines[j])
  {
    if n > 0 {
      ParsableLinesAll(lines, n - 1);
    }
  }

  /** What follows the " = " of a keyring line, stripped. */
  function KeyValue(line: string): string
    requires Contains(line, " = ")
  {
    Strip(Split(line, " = ")[1])
  }

  /** parse_key of this copy: a single line is the key itself; otherwise
      every line mentioning "key" overwrites the key with what follows its
      " = ", so the last such line wins, and any such line without " = "
      is the IndexError of split(' = ')[1]. */
  method ParseKey(raw: string) returns (r: Result<Option<string>, string>)
    ensures |SplitLines(raw)| == 1 ==> r == Ok(Some(raw))
    ensures var lines := SplitLines(raw);
            |lines| != 1 ==> (r.Err? <==> exists j :: 0 <= j < |lines| && !Parsable(lines[j]))
    ensures var lines := SplitLines(raw);
            |lines| != 1 && r.Ok? ==>
              match LastLineWith(lines, |lines|, "key")
              case None => r.value.None?
              case Some(i) => Contains(lines[i], " = ") && r.value == Some(KeyValue(lines[i]))
  {
    var lines := SplitLines(raw);
    if |lines| == 1 {
      return Ok(Some(raw));
    }
    r := LastKey(lines);
  }

  /** The loop of parse_key over the lines of a multi-line output. */
  method LastKey(lines: seq<string>) returns (r: Result<Option<string>, string>)
    ensures r.Err? <==> exists j :: 0 <= j < |lines| && !Parsable(lines[j])
    ensures r.Ok? ==>
              match LastLineWith(lines, |lines|, "key")
              case None => r.value.None?
              case Some(i) => Contains(lines[i], " = ") && r.value == Some(KeyValue(lines[i]))
  {
    var key: Option<string> := None;
    var i := 0;
    while i < |lines|
      invariant 0 <= i <= |lines|
      invariant ParsableLines(lines, i)
      invariant match LastLineWith(lines, i, "key")
                case None => key.None?
                case Some(at) => Contains(lines[at], " = ") && key == Some(KeyValue(lines[at]))
    {
      if Contains(lines[i], "key") {
        if !Contains(lines[i], " = ") {
          assert !Parsable(lines[i]);
          return Err("IndexError: list index out of range");
        }
        key := Some(KeyValue(lines[i]));
      }
      i := i + 1;
    }
    ParsableLinesAll(lines, |lines|);
    r := Ok(key);
  }

  /** The two copies' parse_key agree when one line at most mentions "key";
      on "key = A" above "key = B" the later copy takes A and this one B. */
  lemma FirstAndLastKeyLines(lines: seq<string>)
    requires forall j, k :: (0 <= j < |lines| && 0 <= k < |lines| && Contains(lines[j], "key")
                             && Contains(lines[k], "key")) ==> j == k
    ensures LastLineWith(lines, |lines|, "key") == Helpers.FirstLineWith(lines, "key")
  {
    LastLineWithIsLast(lines, |lines|, "key");
    var last := LastLineWith(lines, |lines|, "key");
    var first := Helpers.FirstLineWith(lines, "key");
    if first.Some? {
      assert last.Some?;
    }
  }

  lemma LastKeyLineWins()
    ensures LastLineWith(["key = A", "key = B"], 2, "key") == Some(1)
    ensures Helpers.FirstLineWith(["key = A", "key = B"], "key") == Some(0)
  {
  }

  // ------------------------------------------------------------ osdize_dev

  /** find_least_used_journal: the first journal device with the fewest
      partitions (min() keeps the first of equal keys); min() of no
      devices is a ValueError. */
  function FindLeastUsedJournal(journals: seq<string>, partitions: string -> nat): (r: Result<string, string>)
    ensures r.Err? <==> journals == []
    ensures r.Ok? ==> exists i :: 0 <= i < |journals| && journals[i] == r.value
                        && (forall j :: 0 <= j < |journals| ==> partitions(r.value) <= partitions(journals[j]))
                        && (forall j :: 0 <= j < i ==> partitions(journals[j]) > partitions(r.value))
  {
    if journals == [] then Err("ValueError: min() arg is an empty sequence")
    else
      var i := Helpers.FirstLeastIndex(journals, partitions);
      Ok(journals[i])
  }

  /** What osdize_dev learns about the device before deciding. */
  datatype Disk = Disk(exists_: bool, isBlock: bool, isOsdDisk: bool, mounted: bool)

  /** Whether osdize_dev bails out before preparing: a missing path, not a
      block device, an OSD disk not to be reformatted, or a mounted one. */
  predicate Skipped(disk: Disk, reformat: bool) {
    !disk.exists_ || !disk.isBlock || (disk.isOsdDisk && !reformat) || disk.mounted
  }

  /** osdize_dev: the `ceph-disk prepare` command it runs (None when it bails
      out), whether it zaps the disk itself (only before ceph 0.48.3) and the
      CalledProcessError that escapes.  `v060` and `v0483` say whether the
      installed ceph is at least 0.60 and 0.48.3; `osdFormat` "" is no
      format; `prepared` is whether the command succeeded. */
  method OsdizeDev(dev: string, disk: Disk, osdFormat: string, journals: seq<string>, partitions: string -> nat,
                   reformat: bool, ignoreErrors: bool, encrypt: bool, v060: bool, v0483: bool, prepared: bool)
    returns (cmd: Option<seq<string>>, zapped: bool, raised: bool)
    ensures cmd.None? <==> Skipped(disk, reformat)
    ensures cmd.None? ==> !zapped && !raised
    ensures raised <==> cmd.Some? && !prepared && !ignoreErrors
    ensures zapped <==> cmd.Some? && reformat && !v0483
    ensures cmd.Some? ==>
              var c := cmd.value;
              var flags := if encrypt && v060 then 1 else 0;
              var journal := if v0483 && journals != [] then 1 else 0;
              var format := if v0483 && osdFormat != [] then 2 else 0;
              var zap := if v0483 && reformat then 1 else 0;
              |c| == 3 + flags + format + zap + journal
              && c[..2] == ["ceph-disk", "prepare"]
              && (flags == 1 ==> c[2] == "--dmcrypt")
              && (format == 2 ==> c[2 + flags] == "--fs-type" && c[3 + flags] == osdFormat)
              && (zap == 1 ==> c[2 + flags + format] == "--zap-disk")
              && c[2 + flags + format + zap] == dev
              && (journal == 1 ==> c[|c| - 1] == FindLeastUsedJournal(journals, partitions).value)
              && (journal == 0 ==> c[|c| - 1] == dev)
  {
    zapped, raised := false, false;
    if Skipped(disk, reformat) {
      return None, zapped, raised;
    }
    var c := ["ceph-disk", "prepare"];
    if v060 && encrypt {
      c := c + ["--dmcrypt"];
    }
    if v0483 {
      if osdFormat != [] {
        c := c + ["--fs-type", osdFormat];
      }
      if reformat {
        c := c + ["--zap-disk"];
      }
      c := c + [dev];
      if journals != [] {
        var leastUsed := FindLeastUsedJournal(journals, partitions);
        c := c + [leastUsed.value];
      }
    } else {
      c := c + [dev];
      zapped := reformat;
    }
    assert c[..2] == [c[0], c[1]];
    cmd := Some(c);
    raised := !prepared && !ignoreErrors;
  }
}
