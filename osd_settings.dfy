/** apply_osd_settings of charms_ceph/utils.py: for every local OSD, read
    the current value of each setting with `ceph daemon osd.N config get`,
    then `config set` only the settings whose value differs. */
module OsdSettings {
  import opened Wrappers
  import opened Sorting

  /** One entry of the settings dictionary; `value` is str() of the value. */
  datatype Setting = Setting(key: string, value: string)

  /** `ceph daemon osd.<osd> config --format=json set <key> <value>` */
  datatype SetCommand = SetCommand(osd: string, key: string, value: string)

  /** True, False, or OSDConfigSetError. */
  datatype ApplyOutcome = Applied | GetFailed | SetFailed

  /** _get_cli_key: spaces become underscores. */
  function CliKey(key: string): (r: string)
    ensures |r| == |key| && forall i :: 0 <= i < |r| ==> r[i] != ' '
    ensures forall i :: 0 <= i < |r| && key[i] != ' ' ==> r[i] == key[i]
  {
    if key == [] then []
    else [if key[0] == ' ' then '_' else key[0]] + CliKey(key[1..])
  }

  function SettingKey(s: Setting): string {
    s.key
  }

  /** The value an OSD reports for a setting, as str(); None when the reply
      carries an "error". */
  type Reader = (string, string) -> Option<string>

  /** Whether a `config set` succeeds (its reply has no "error"). */
  type Writer = SetCommand -> bool

  /** Whether every `config get` for this OSD succeeds. */
  predicate AllGetsOk(osd: string, settings: seq<Setting>, current: Reader) {
    forall j :: 0 <= j < |settings| ==> current(osd, CliKey(settings[j].key)).Some?
  }

  /** Whether the OSD already holds the wanted value of `s`. */
  predicate UpToDate(osd: string, s: Setting, current: Reader) {
    current(osd, CliKey(s.key)) == Some(s.value)
  }

  /** settings_diff, in dictionary order: the settings the OSD does not hold. */
  function Diff(osd: string, settings: seq<Setting>, current: Reader): (d: seq<Setting>)
    ensures forall s :: s in d <==> s in settings && !UpToDate(osd, s, current)
  {
    if settings == [] then []
    else (if UpToDate(osd, settings[0], current) then [] else [settings[0]]) + Diff(osd, settings[1..], current)
  }

  /** One `config set` command per setting, in the order given. */
  function Commands(osd: string, ss: seq<Setting>): seq<SetCommand> {
    if ss == [] then [] else [SetCommand(osd, CliKey(ss[0].key), ss[0].value)] + Commands(osd, ss[1..])
  }

  lemma {:induction false} CommandsAt(osd: string, ss: seq<Setting>)
    ensures |Commands(osd, ss)| == |ss|
    ensures forall i :: 0 <= i < |ss| ==> Commands(osd, ss)[i] == SetCommand(osd, CliKey(ss[i].key), ss[i].value)
  {
    if ss != [] {
      CommandsAt(osd, ss[1..]);
    }
  }

  /** The `config set` commands for one OSD, in sorted key order. */
  function OsdCommands(osd: string, settings: seq<Setting>, current: Reader): seq<SetCommand> {
    Commands(osd, SortBy(Diff(osd, settings, current), SettingKey))
  }

  /** Issues `cmds` in order up to and including the first that fails;
      true when none failed. */
  function RunCommands(cmds: seq<SetCommand>, setOk: Writer): (bool, seq<SetCommand>) {
    if cmds == [] then (true, [])
    else if !setOk(cmds[0]) then (false, [cmds[0]])
    else
      var rest := RunCommands(cmds[1..], setOk);
      (rest.0, [cmds[0]] + rest.1)
  }

  /** The run issues a prefix of the commands, all of them when it
      succeeds, and it succeeds exactly when every command does. */
  lemma {:induction false} RunCommandsMeaning(cmds: seq<SetCommand>, setOk: Writer)
    ensures RunCommands(cmds, setOk).1 <= cmds
    ensures RunCommands(cmds, setOk).0 <==> forall j :: 0 <= j < |cmds| ==> setOk(cmds[j])
    ensures RunCommands(cmds, setOk).0 ==> RunCommands(cmds, setOk).1 == cmds
    ensures !RunCommands(cmds, setOk).0 ==> var n := |RunCommands(cmds, setOk).1|;
      0 < n && !setOk(cmds[n - 1]) && forall j :: 0 <= j < n - 1 ==> setOk(cmds[j])
  {
    if cmds != [] {
      RunCommandsMeaning(cmds[1..], setOk);
      if setOk(cmds[0]) {
        assert forall j :: 1 <= j < |cmds| ==> cmds[j] == cmds[1..][j - 1];
      }
    }
  }

  /** What apply_osd_settings does for one OSD: Applied, GetFailed or
      SetFailed, and the `config set` commands it issues. */
  function OsdStep(osd: string, settings: seq<Setting>, current: Reader, setOk: Writer): (ApplyOutcome, seq<SetCommand>) {
    if !AllGetsOk(osd, settings, current) then (GetFailed, [])
    else
      var run := RunCommands(OsdCommands(osd, settings, current), setOk);
      (if run.0 then Applied else SetFailed, run.1)
  }

  /** The result of one OSD: its outcome and the commands it issued. */
  type StepResult = (ApplyOutcome, seq<SetCommand>)

  /** The per-OSD results taken in order, stopping at the first that is
      not Applied; the commands of all the steps taken, one after the other. */
  function Combine(rs: seq<StepResult>): StepResult {
    if rs == [] then (Applied, [])
    else if rs[0].0 != Applied then rs[0]
    else
      var rest := Combine(rs[1..]);
      (rest.0, rs[0].1 + rest.1)
  }

  /** What each OSD would do, in the order of `osds`. */
  function OsdResults(osds: seq<string>, settings: seq<Setting>, current: Reader, setOk: Writer): (rs: seq<StepResult>)
    ensures |rs| == |osds|
  {
    seq(|osds|, j requires 0 <= j < |osds| => OsdStep(osds[j], settings, current, setOk))
  }

  /** What apply_osd_settings does over `osds`: the outcome and the `config
      set` commands it issues. */
  function ApplySpec(osds: seq<string>, settings: seq<Setting>, current: Reader, setOk: Writer): StepResult {
    Combine(OsdResults(osds, settings, current, setOk))
  }

  /** A run that stops within a prefix is the run of that prefix. */
  lemma {:induction false} CombinePrefix(rs: seq<StepResult>, n: nat)
    requires n <= |rs| && Combine(rs[..n]).0 != Applied
    ensures Combine(rs) == Combine(rs[..n])
  {
    assert n > 0;
    assert rs[..n][1..] == rs[1..][..n - 1];
    if rs[0].0 == Applied {
      CombinePrefix(rs[1..], n - 1);
    }
  }

  /** One more OSD after a run that applied everything so far. */
  lemma {:induction false} CombineSnoc(rs: seq<StepResult>, r: StepResult)
    requires Combine(rs).0 == Applied
    ensures Combine(rs + [r]) == (r.0, Combine(rs).1 + r.1)
  {
    if rs == [] {
      assert rs + [r] == [r] && [r][1..] == [];
      assert r.1 + [] == r.1 && [] + r.1 == r.1 && r == (r.0, r.1);
    } else {
      assert (rs + [r])[0] == rs[0] && (rs + [r])[1..] == rs[1..] + [r];
      CombineSnoc(rs[1..], r);
      assert rs[0].1 + (Combine(rs[1..]).1 + r.1) == (rs[0].1 + Combine(rs[1..]).1) + r.1;
    }
  }

  /** settings_diff as the source builds it, from the values it read. */
  function DiffOf(settings: seq<Setting>, read: map<string, string>): seq<Setting>
    requires forall s :: s in settings ==> s.key in read
  {
    if settings == [] then []
    else (if read[settings[0].key] == settings[0].value then [] else [settings[0]]) + DiffOf(settings[1..], read)
  }

  lemma {:induction false} DiffOfIsDiff(osd: string, settings: seq<Setting>, read: map<string, string>, current: Reader)
    requires forall s :: s in settings ==> s.key in read && current(osd, CliKey(s.key)) == Some(read[s.key])
    ensures DiffOf(settings, read) == Diff(osd, settings, current)
  {
    if settings != [] {
      assert settings[0] in settings;
      DiffOfIsDiff(osd, settings[1..], read, current);
    }
  }

  /** The `config get` pass over one OSD, in sorted key order: the values
      read, or None at the first reply with an "error". */
  method ReadSettings(osd: string, sortedSettings: seq<Setting>, current: Reader) returns (read: Option<map<string, string>>)
    ensures read.None? <==> exists s :: s in sortedSettings && current(osd, CliKey(s.key)).None?
    ensures read.Some? ==> forall s :: s in sortedSettings ==>
      s.key in read.value && current(osd, CliKey(s.key)) == Some(read.value[s.key])
  {
    var values: map<string, string> := map[];
    var j := 0;
    while j < |sortedSettings|
      invariant 0 <= j <= |sortedSettings|
      invariant forall k :: 0 <= k < j ==>
        (sortedSettings[k].key in values && current(osd, CliKey(sortedSettings[k].key)) == Some(values[sortedSettings[k].key]))
    {
      var s := sortedSettings[j];
      var out := current(osd, CliKey(s.key));
      if out.None? {
        return None;
      }
      values := values[s.key := out.value];
      j := j + 1;
    }
    return Some(values);
  }

  /** After k commands that succeeded, the rest of the run decides. */
  lemma {:induction false} RunCommandsFrom(cmds: seq<SetCommand>, k: nat, setOk: Writer)
    requires k <= |cmds| && forall j :: 0 <= j < k ==> setOk(cmds[j])
    ensures RunCommands(cmds, setOk).0 == RunCommands(cmds[k..], setOk).0
    ensures RunCommands(cmds, setOk).1 == cmds[..k] + RunCommands(cmds[k..], setOk).1
  {
    if k > 0 {
      RunCommandsFrom(cmds[1..], k - 1, setOk);
      assert cmds[1..][k - 1..] == cmds[k..];
      assert cmds[..k] == [cmds[0]] + cmds[1..][..k - 1];
    }
  }

  /** The `config set` pass over one OSD: issues the commands in order and
      stops at the first that fails. */
  method WriteSettings(cmds: seq<SetCommand>, setOk: Writer) returns (ok: bool, issued: seq<SetCommand>)
    ensures (ok, issued) == RunCommands(cmds, setOk)
  {
    var k := 0;
    while k < |cmds|
      invariant 0 <= k <= |cmds|
      invariant forall j :: 0 <= j < k ==> setOk(cmds[j])
    {
      if !setOk(cmds[k]) {
        RunCommandsFrom(cmds, k, setOk);
        assert cmds[k..][0] == cmds[k];
        return false, cmds[..k] + [cmds[k]];
      }
      k := k + 1;
    }
    RunCommandsFrom(cmds, k, setOk);
    assert cmds[..k] == cmds && cmds[k..] == [];
    assert RunCommands([], setOk) == (true, []);
    assert cmds + [] == cmds;
    return true, cmds;
  }

  /** apply_osd_settings for one OSD. */
  method ApplyToOsd(osd: string, settings: seq<Setting>, current: Reader, setOk: Writer)
    returns (outcome: ApplyOutcome, issued: seq<SetCommand>)
    ensures (outcome, issued) == OsdStep(osd, settings, current, setOk)
  {
    var sortedSettings := SortBy(settings, SettingKey);
    SortByPermutes(settings, SettingKey);
    var read := ReadSettings(osd, sortedSettings, current);
    forall s ensures s in settings <==> s in sortedSettings {
      assert s in settings <==> s in multiset(settings);
    }
    if read.None? {
      return GetFailed, [];
    }
    var diff := DiffOf(settings, read.value);
    DiffOfIsDiff(osd, settings, read.value, current);
    var toSet := SortBy(diff, SettingKey);
    var ok;
    ok, issued := WriteSettings(Commands(osd, toSet), setOk);
    outcome := if ok then Applied else SetFailed;
  }

  /** A command of the combined run comes from one of the steps. */
  lemma {:induction false} CombineIssued(rs: seq<StepResult>, c: SetCommand)
    requires c in Combine(rs).1
    ensures exists j :: 0 <= j < |rs| && c in rs[j].1
  {
    if rs[0].0 == Applied && c !in rs[0].1 {
      CombineIssued(rs[1..], c);
      var j :| 0 <= j < |rs[1..]| && c in rs[1..][j].1;
      assert rs[j + 1] == rs[1..][j];
    }
  }

  /** A combined run that applied everything took every step in full. */
  lemma {:induction false} CombineApplied(rs: seq<StepResult>)
    requires Combine(rs).0 == Applied
    ensures forall j :: 0 <= j < |rs| ==> rs[j].0 == Applied
    ensures forall j, c :: 0 <= j < |rs| && c in rs[j].1 ==> c in Combine(rs).1
  {
    if rs != [] {
      CombineApplied(rs[1..]);
      assert Combine(rs).1 == rs[0].1 + Combine(rs[1..]).1;
      forall j | 1 <= j < |rs|
        ensures rs[j].0 == Applied && (forall c :: c in rs[j].1 ==> c in Combine(rs).1)
      {
        assert rs[j] == rs[1..][j - 1];
      }
    }
  }

  /** Steps that all apply without issuing anything combine to the same. */
  lemma {:induction false} CombineNothing(rs: seq<StepResult>)
    requires forall j :: 0 <= j < |rs| ==> rs[j] == (Applied, [])
    ensures Combine(rs) == (Applied, [])
  {
    if rs != [] {
      assert forall j :: 0 <= j < |rs[1..]| ==> rs[1..][j] == rs[j + 1];
      CombineNothing(rs[1..]);
      assert rs[0] == (Applied, []);
      assert rs[0].1 == [] && Combine(rs[1..]).1 == [];
      assert rs[0].1 + Combine(rs[1..]).1 == [];
      assert Combine(rs) == (Applied, rs[0].1 + Combine(rs[1..]).1);
    }
  }

  /** Every command is the one of some setting. */
  lemma {:induction false} CommandOf(osd: string, ss: seq<Setting>, c: SetCommand)
    requires c in Commands(osd, ss)
    ensures exists s :: s in ss && c == SetCommand(osd, CliKey(s.key), s.value)
  {
    if c != SetCommand(osd, CliKey(ss[0].key), ss[0].value) {
      CommandOf(osd, ss[1..], c);
      var s :| s in ss[1..] && c == SetCommand(osd, CliKey(s.key), s.value);
      assert s in ss;
    }
  }

  /** A setting the OSD does not hold gets a command in the plan. */
  lemma StaleSettingPlanned(osd: string, settings: seq<Setting>, current: Reader, s: Setting)
    requires s in settings && !UpToDate(osd, s, current)
    ensures SetCommand(osd, CliKey(s.key), s.value) in OsdCommands(osd, settings, current)
  {
    var d := Diff(osd, settings, current);
    var sorted := SortBy(d, SettingKey);
    SortByPermutes(d, SettingKey);
    assert s in multiset(d);
    assert s in multiset(sorted);
    var i :| 0 <= i < |sorted| && sorted[i] == s;
    CommandsAt(osd, sorted);
    assert Commands(osd, sorted)[i] == SetCommand(osd, CliKey(s.key), s.value);
  }

  /** Every command of the plan sets a setting the OSD does not hold. */
  lemma PlannedIsStale(osd: string, settings: seq<Setting>, current: Reader, c: SetCommand)
    requires c in OsdCommands(osd, settings, current)
    ensures exists s :: s in settings && !UpToDate(osd, s, current) && c == SetCommand(osd, CliKey(s.key), s.value)
  {
    var d := Diff(osd, settings, current);
    var sorted := SortBy(d, SettingKey);
    CommandOf(osd, sorted, c);
    SortByPermutes(d, SettingKey);
    var s :| s in sorted && c == SetCommand(osd, CliKey(s.key), s.value);
    assert s in multiset(sorted);
    assert s in multiset(d);
  }

  /** One OSD: the outcome is GetFailed exactly when a `config get` fails,
      Applied exactly when besides every `config set` of the plan succeeds;
      the commands issued are a prefix of the plan, all of it when Applied. */
  lemma OsdStepOutcome(osd: string, settings: seq<Setting>, current: Reader, setOk: Writer)
    ensures var r := OsdStep(osd, settings, current, setOk);
      var plan := OsdCommands(osd, settings, current);
      (r.0 == GetFailed <==> !AllGetsOk(osd, settings, current))
      && (r.0 == Applied <==> AllGetsOk(osd, settings, current) && forall j :: 0 <= j < |plan| ==> setOk(plan[j]))
      && (AllGetsOk(osd, settings, current) ==> r.1 <= plan)
      && (r.0 == Applied ==> r.1 == plan)
  {
    RunCommandsMeaning(OsdCommands(osd, settings, current), setOk);
  }

  /** apply_osd_settings never sets a value the OSD already holds: every
      command it issues is for one of `osds` and one of `settings`, and the
      value differs from what that OSD reported. */
  lemma NoRedundantSet(osds: seq<string>, settings: seq<Setting>, current: Reader, setOk: Writer, c: SetCommand)
    requires c in ApplySpec(osds, settings, current, setOk).1
    ensures c.osd in osds
    ensures exists s :: s in settings && c == SetCommand(c.osd, CliKey(s.key), s.value) && !UpToDate(c.osd, s, current)
  {
    var rs := OsdResults(osds, settings, current, setOk);
    CombineIssued(rs, c);
    var j :| 0 <= j < |rs| && c in rs[j].1;
    var osd := osds[j];
    OsdStepOutcome(osd, settings, current, setOk);
    PlannedIsStale(osd, settings, current, c);
  }

  /** When apply_osd_settings returns True, every OSD answered every
      `config get` and holds or was sent every setting. */
  lemma AppliedSetsEverything(osds: seq<string>, settings: seq<Setting>, current: Reader, setOk: Writer, osd: string, s: Setting)
    requires ApplySpec(osds, settings, current, setOk).0 == Applied
    requires osd in osds && s in settings
    ensures current(osd, CliKey(s.key)).Some?
    ensures UpToDate(osd, s, current) || SetCommand(osd, CliKey(s.key), s.value) in ApplySpec(osds, settings, current, setOk).1
  {
    var rs := OsdResults(osds, settings, current, setOk);
    CombineApplied(rs);
    var j :| 0 <= j < |osds| && osds[j] == osd;
    assert rs[j] == OsdStep(osd, settings, current, setOk);
    OsdStepOutcome(osd, settings, current, setOk);
    var k :| 0 <= k < |settings| && settings[k] == s;
    if !UpToDate(osd, s, current) {
      StaleSettingPlanned(osd, settings, current, s);
    }
  }

  /** Nothing to set on an OSD that holds every setting. */
  lemma {:induction false} DiffOfUpToDate(osd: string, settings: seq<Setting>, current: Reader)
    requires forall s :: s in settings ==> UpToDate(osd, s, current)
    ensures Diff(osd, settings, current) == []
  {
    if settings != [] {
      assert settings[0] in settings;
      DiffOfUpToDate(osd, settings[1..], current);
    }
  }

  /** Applying settings every OSD already holds issues nothing and succeeds. */
  lemma ApplyIdempotent(osds: seq<string>, settings: seq<Setting>, current: Reader, setOk: Writer)
    requires forall o, s :: o in osds && s in settings ==> UpToDate(o, s, current)
    ensures ApplySpec(osds, settings, current, setOk) == (Applied, [])
  {
    var rs := OsdResults(osds, settings, current, setOk);
    forall j | 0 <= j < |rs| ensures rs[j] == (Applied, []) {
      var osd := osds[j];
      var d := Diff(osd, settings, current);
      DiffOfUpToDate(osd, settings, current);
      assert |SortBy(d, SettingKey)| == 0;
      assert AllGetsOk(osd, settings, current) by {
        forall k | 0 <= k < |settings| ensures current(osd, CliKey(settings[k].key)).Some? {
          assert UpToDate(osd, settings[k], current);
        }
      }
    }
    CombineNothing(rs);
  }

  /** apply_osd_settings.  `osds` are the local OSD ids, `settings` the
      dictionary's items in insertion order; `current` and `setOk` stand for
      the replies of the daemons. */
  method ApplyOsdSettings(osds: seq<string>, settings: seq<Setting>, current: Reader, setOk: Writer)
    returns (outcome: ApplyOutcome, issued: seq<SetCommand>)
    ensures (outcome, issued) == ApplySpec(osds, settings, current, setOk)
  {
    ghost var results := OsdResults(osds, settings, current, setOk);
    issued := [];
    var i := 0;
    while i < |osds|
      invariant 0 <= i <= |osds|
      invariant Combine(results[..i]) == (Applied, issued)
    {
      var result, cmds := ApplyToOsd(osds[i], settings, current, setOk);
      assert results[i] == (result, cmds);
      CombineSnoc(results[..i], (result, cmds));
      assert results[..i + 1] == results[..i] + [(result, cmds)];
      if result != Applied {
        CombinePrefix(results, i + 1);
        return result, issued + cmds;
      }
      issued := issued + cmds;
      i := i + 1;
    }
    assert results[..i] == results;
    return Applied, issued;
  }
}
