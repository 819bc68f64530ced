/** The WatchDog of charms_ceph/utils.py: a rate-limited "I am alive" kicker
    used by the upgrading unit, and the two deadline-bounded polling loops
    (wait_until, timed_wait) used by the unit waiting on it. */
module WatchDogs {
  import opened Wrappers
  import opened Runtime

  /** How a wait ends.  Timeout and Dead stand for WatchDogTimeoutException
      and WatchDogDeadException. */
  datatype WaitOutcome = Complete | Timeout | Dead

  // ------------------------------------------------------------ the kicker

  /** Whether kick_the_dog, called at `now`, runs the kick function: on the
      first run, and afterwards only once more than `interval` seconds have
      passed since the last run. */
  predicate Fires(lastRun: Option<int>, now: int, interval: int) {
    lastRun.None? || now - lastRun.value > interval
  }

  /** The instants at which calls of kick_the_dog at `times` run the kick
      function, starting from the recorded last run `lastRun`. */
  function FireTimes(lastRun: Option<int>, times: seq<int>, interval: int): (fired: seq<int>)
    ensures |fired| <= |times|
    decreases |times|
  {
    if times == [] then []
    else if Fires(lastRun, times[0], interval) then [times[0]] + FireTimes(Some(times[0]), times[1..], interval)
    else FireTimes(lastRun, times[1..], interval)
  }

  /** last_run_func after calls of kick_the_dog at `times`. */
  function LastRunAfter(lastRun: Option<int>, times: seq<int>, interval: int): Option<int>
    decreases |times|
  {
    if times == [] then lastRun
    else LastRunAfter(if Fires(lastRun, times[0], interval) then Some(times[0]) else lastRun, times[1..], interval)
  }

  predicate NonDecreasing(times: seq<int>) {
    forall i, j :: 0 <= i < j < |times| ==> times[i] <= times[j]
  }

  /** Kicks that really run are more than `interval` apart, and the first one
      is more than `interval` after the previous run, if there was one. */
  lemma {:induction false} FireTimesSpaced(lastRun: Option<int>, times: seq<int>, interval: int)
    ensures forall k :: 0 <= k < |FireTimes(lastRun, times, interval)| - 1 ==>
      FireTimes(lastRun, times, interval)[k + 1] - FireTimes(lastRun, times, interval)[k] > interval
    ensures lastRun.Some? && FireTimes(lastRun, times, interval) != [] ==>
      FireTimes(lastRun, times, interval)[0] - lastRun.value > interval
    decreases |times|
  {
    if times != [] {
      FireTimesSpaced(if Fires(lastRun, times[0], interval) then Some(times[0]) else lastRun, times[1..], interval);
    }
  }

  /** On a fresh dog the first call always kicks. */
  lemma FirstCallFires(times: seq<int>, interval: int)
    requires times != []
    ensures FireTimes(None, times, interval) != [] && FireTimes(None, times, interval)[0] == times[0]
  {
  }

  /** However often the dog is kicked, the last run is never more than
      `interval` seconds before the last call: the alive key the waiting unit
      reads is at most `interval` old right after any kick. */
  lemma {:induction false} LastRunIsRecent(lastRun: Option<int>, times: seq<int>, interval: int)
    requires times != [] && NonDecreasing(times)
    requires lastRun.Some? ==> lastRun.value <= times[0]
    requires interval >= 0
    ensures LastRunAfter(lastRun, times, interval).Some?
    ensures times[|times| - 1] - LastRunAfter(lastRun, times, interval).value <= interval
    ensures LastRunAfter(lastRun, times, interval).value <= times[|times| - 1]
    decreases |times|
  {
    var next := if Fires(lastRun, times[0], interval) then Some(times[0]) else lastRun;
    assert LastRunAfter(lastRun, times, interval) == LastRunAfter(next, times[1..], interval);
    if |times| > 1 {
      LastRunIsRecent(next, times[1..], interval);
    } else {
      assert times[1..] == [];
      assert LastRunAfter(next, times[1..], interval) == next;
    }
  }

  class WatchDog {
    const startTime: int
    var lastRunFunc: Option<int>
    var lastKickAt: Option<int>
    const kickInterval: int
    /** The kick function: None, or writing the current time under this key. */
    const kickKey: Option<string>

    constructor(w: World, interval: int, key: Option<string>)
      ensures startTime == w.clock && lastRunFunc == None && lastKickAt == None
      ensures kickInterval == interval && kickKey == key
    {
      startTime := w.clock;
      lastRunFunc := None;
      lastKickAt := None;
      kickInterval := interval;
      kickKey := key;
    }

    /** kick_the_dog: runs the kick function when Fires says so; last_run_func
        moves only then, last_kick_at on every call. */
    method KickTheDog(w: World)
      modifies this, w
      ensures lastKickAt == Some(w.clock)
      ensures lastRunFunc == (if Fires(old(lastRunFunc), w.clock, kickInterval) then Some(w.clock) else old(lastRunFunc))
      ensures lastRunFunc == LastRunAfter(old(lastRunFunc), [w.clock], kickInterval)
      ensures w.clock == old(w.clock)
      ensures if Fires(old(lastRunFunc), w.clock, kickInterval) && kickKey.Some? then
                w.own == old(w.own)[kickKey.value := w.clock] && w.trace == old(w.trace) + [KeyWritten(kickKey.value, w.clock)]
              else
                w.own == old(w.own) && w.trace == old(w.trace)
    {
      var now := w.clock;
      if lastRunFunc.None? || now - lastRunFunc.value > kickInterval {
        if kickKey.Some? {
          w.KeySetNow(kickKey.value);
        }
        lastRunFunc := Some(now);
      }
      lastKickAt := Some(now);
    }
  }

  // ------------------------------------------------------------ the waiters

  predicate IsPoll(e: Event, keys: set<string>) {
    (e.KeyRead? && e.key in keys) || e.Slept?
  }

  /** Events that are all reads of `keys` or sleeps. */
  predicate AllPolls(events: seq<Event>, keys: set<string>) {
    forall e :: e in events ==> IsPoll(e, keys)
  }

  /** Polls of some keys are polls of any wider set of keys. */
  lemma AllPollsWiden(events: seq<Event>, keys: set<string>, wider: set<string>)
    requires AllPolls(events, keys) && keys <= wider
    ensures AllPolls(events, wider)
  {
  }

  /** Polls of two runs over the same keys are polls of those keys. */
  lemma AllPollsJoined(a: seq<Event>, b: seq<Event>, keys: set<string>)
    requires AllPolls(a, keys) && AllPolls(b, keys)
    ensures AllPolls(a + b, keys)
  {
  }

  /** wait_until(lambda: monitor_key_exists(key), timeout): polls the key,
      sleeping 5 to 29 seconds between polls, until it exists or the
      timeout has passed. */
  method WaitUntil(w: World, key: string, timeout: nat) returns (r: WaitOutcome, ghost polls: seq<Event>)
    modifies w
    ensures r != Dead
    ensures r == Complete <==> key in w.Store()
    ensures r == Timeout ==> w.clock > old(w.clock) + timeout
    ensures old(w.clock) <= w.clock <= old(w.clock) + timeout + 29
    ensures w.own == old(w.own)
    ensures w.trace == old(w.trace) + polls && AllPolls(polls, {key})
    ensures polls != [] && polls[0] == KeyRead(key)
  {
    var start := w.clock;
    var found := w.KeyExists(key);
    polls := [KeyRead(key)];
    while !found
      invariant found <==> key in w.Store()
      invariant start <= w.clock <= start + timeout + 29
      invariant w.own == old(w.own)
      invariant w.trace == old(w.trace) + polls && AllPolls(polls, {key})
      invariant polls != [] && polls[0] == KeyRead(key)
      decreases start + timeout + 29 - w.clock
    {
      if w.clock > start + timeout {
        return Timeout, polls;
      }
      var d := RandomDelay();
      w.Sleep(d);
      found := w.KeyExists(key);
      polls := polls + [Slept(d), KeyRead(key)];
    }
    r := Complete;
  }

  /** The decision timed_wait takes at one poll, given whether the done key
      exists, the alive stamp it read, the time since it began and the time
      now; None means sleep and poll again. */
  function TimedWaitVerdict(done: bool, kickedAt: Option<int>, elapsed: int, now: int,
                            waitTime: int, compat: int, maxKick: int): (v: Option<WaitOutcome>)
    ensures v == Some(Complete) <==> done
    ensures v == Some(Dead) <==> !done && kickedAt.Some? && now - kickedAt.value > maxKick
    ensures v == Some(Timeout) <==> !done && (kickedAt.Some? ==> now - kickedAt.value <= maxKick)
                                    && ((kickedAt.None? && elapsed > compat) || elapsed > waitTime)
    ensures v == None <==> !done && elapsed <= waitTime
                           && (kickedAt.None? ==> elapsed <= compat)
                           && (kickedAt.Some? ==> now - kickedAt.value <= maxKick)
  {
    if done then Some(Complete)
    else if kickedAt.None? && elapsed > compat then Some(Timeout)
    else if kickedAt.Some? && now - kickedAt.value > maxKick then Some(Dead)
    else if elapsed > waitTime then Some(Timeout)
    else None
  }

  /** No wait outlasts wait_time, whatever the other side does. */
  lemma TimedWaitEnds(done: bool, kickedAt: Option<int>, elapsed: int, now: int,
                      waitTime: int, compat: int, maxKick: int)
    requires elapsed > waitTime
    ensures TimedWaitVerdict(done, kickedAt, elapsed, now, waitTime, compat, maxKick).Some?
  {
  }

  /** A side that keeps kicking is waited for beyond the compatibility time,
      up to wait_time. */
  lemma KickingExtendsWait(kickedAt: int, elapsed: int, now: int,
                           waitTime: int, compat: int, maxKick: int)
    requires compat < elapsed <= waitTime && now - kickedAt <= maxKick
    ensures TimedWaitVerdict(false, Some(kickedAt), elapsed, now, waitTime, compat, maxKick) == None
  {
  }

  function Lookup(m: map<string, int>, key: string): Option<int> {
    if key in m then Some(m[key]) else None
  }

  /** timed_wait(kicked_at_function=get(aliveKey), complete_function=exists(doneKey), ...).
      The outcome is the verdict of the final poll, which read the store as it
      is when the wait ends. */
  method TimedWait(w: World, aliveKey: string, doneKey: string, waitTime: nat, compat: nat, maxKick: nat)
    returns (r: WaitOutcome, ghost polls: seq<Event>)
    modifies w
    ensures Some(r) == TimedWaitVerdict(doneKey in w.Store(), Lookup(w.Store(), aliveKey),
                                        w.clock - old(w.clock), w.clock, waitTime, compat, maxKick)
    ensures old(w.clock) <= w.clock <= old(w.clock) + waitTime + 29
    ensures w.own == old(w.own)
    ensures w.trace == old(w.trace) + polls && AllPolls(polls, {aliveKey, doneKey})
  {
    var start := w.clock;
    polls := [];
    while true
      invariant start <= w.clock <= start + waitTime + 29
      invariant w.own == old(w.own)
      invariant w.trace == old(w.trace) + polls && AllPolls(polls, {aliveKey, doneKey})
      decreases start + waitTime + 29 - w.clock
    {
      var done := w.KeyExists(doneKey);
      polls := polls + [KeyRead(doneKey)];
      if done {
        return Complete, polls;
      }
      var kickedAt := w.KeyGet(aliveKey);
      polls := polls + [KeyRead(aliveKey)];
      var now := w.clock;
      if kickedAt.None? {
        if now - start > compat {
          return Timeout, polls;
        }
      } else {
        if now - kickedAt.value > maxKick {
          return Dead, polls;
        }
      }
      if now - start > waitTime {
        return Timeout, polls;
      }
      var d := RandomDelay();
      w.Sleep(d);
      polls := polls + [Slept(d)];
    }
  }
}
