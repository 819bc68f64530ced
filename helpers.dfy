/** The self-contained helpers of charms_ceph/utils.py: key parsing, device
    and directory names, the integer test, utility-device choice and the
    size of journal, WAL and DB volumes. */
module Helpers {
  import opened Wrappers
  import opened Text

  // ------------------------------------------------------------ parse_key

  /** The index of the first line that contains `sub`, if any. */
  function FirstLineWith(lines: seq<string>, sub: string): (r: Option<nat>)
    ensures r.Some? ==> r.value < |lines| && Contains(lines[r.value], sub)
    ensures r.Some? ==> forall j :: 0 <= j < r.value ==> !Contains(lines[j], sub)
    ensures r.None? <==> forall j :: 0 <= j < |lines| ==> !Contains(lines[j], sub)
  {
    if lines == [] then None
    else if Contains(lines[0], sub) then Some(0)
    else
      match FirstLineWith(lines[1..], sub)
      case Some(i) => Some(i + 1)
      case None => None
  }

  /** parse_key: the output of `ceph auth get-or-create` is either the bare
      key (one line), or a keyring whose first line mentioning "key" reads
      `key = <value>`.  None when no line mentions "key"; Err when that line
      has no " = " (the IndexError of split(' = ')[1]). */
  function ParseKey(raw: string): (r: Result<Option<string>, string>)
    ensures |SplitLines(raw)| == 1 ==> r == Ok(Some(raw))
    ensures |SplitLines(raw)| != 1 ==>
      (r == Ok(None) <==> forall j :: 0 <= j < |SplitLines(raw)| ==> !Contains(SplitLines(raw)[j], "key"))
    ensures |SplitLines(raw)| != 1 && r.Ok? && r.value.Some? ==>
      var i := FirstLineWith(SplitLines(raw), "key").value;
      Contains(SplitLines(raw)[i], " = ") && r.value.value == Strip(Split(SplitLines(raw)[i], " = ")[1])
    ensures r.Err? ==>
      var i := FirstLineWith(SplitLines(raw), "key");
      i.Some? && !Contains(SplitLines(raw)[i.value], " = ")
  {
    var lines := SplitLines(raw);
    if |lines| == 1 then Ok(Some(raw))
    else
      match FirstLineWith(lines, "key")
      case None => Ok(None)
      case Some(i) =>
        if !Contains(lines[i], " = ") then Err("IndexError: list index out of range")
        else Ok(Some(Strip(Split(lines[i], " = ")[1])))
  }

  /** Text without surrounding white space is left alone by strip(). */
  lemma StripTrimmed(s: string)
    requires s != [] && !IsSpace(s[0]) && !IsSpace(s[|s| - 1])
    ensures Strip(s) == s
  {
  }

  /** "key = K" splits at its first " = " into "key" and K. */
  lemma SplitKeyLine(k: string)
    requires !Contains(k, " = ")
    ensures Split("key = " + k, " = ") == ["key", k]
  {
    var line := "key = " + k;
    forall j: nat | j < 3 ensures !MatchAt(line, " = ", j) {
      assert line[j..j + 3][0] == line[j] != ' ';
    }
    assert MatchAt(line, " = ", 3) by { assert line[3..6] == " = "; }
    FindAt(line, " = ", 3);
    assert line[6..] == k;
    assert line[..3] == "key";
  }

  /** Two lines joined by "\n" split back into those two lines. */
  lemma SplitTwoLines(a: string, b: string)
    requires a != [] && forall j :: 0 <= j < |a| ==> !IsLineBreak(a[j])
    requires b != [] && forall j :: 0 <= j < |b| ==> !IsLineBreak(b[j])
    ensures SplitLines(a + "\n" + b) == [a, b]
  {
    var raw := a + "\n" + b;
    forall j | 0 <= j < |a| ensures !IsLineBreak(raw[j]) {
      assert raw[j] == a[j];
    }
    FirstBreakAt(raw, |a|);
    assert raw[..|a|] == a && raw[|a| + 1..] == b;
    SingleLine(b);
  }

  /** A keyring line "key = K" yields K: on two-line `get` output whose
      first line does not mention "key", parse_key returns the key. */
  lemma ParseKeyOfKeyring(header: string, k: string)
    requires header != [] && forall j :: 0 <= j < |header| ==> !IsLineBreak(header[j])
    requires !Contains(header, "key")
    requires k != [] && !IsSpace(k[0]) && !IsSpace(k[|k| - 1])
    requires forall j :: 0 <= j < |k| ==> !IsLineBreak(k[j])
    requires !Contains(k, " = ")
    ensures ParseKey(header + "\n" + ("key = " + k)) == Ok(Some(k))
  {
    var line := "key = " + k;
    KeyringLines(header, k);
    SplitKeyLine(k);
    StripTrimmed(k);
  }

  /** The keyring splits into its two lines, and the second is the first
      that mentions "key". */
  lemma KeyringLines(header: string, k: string)
    requires header != [] && forall j :: 0 <= j < |header| ==> !IsLineBreak(header[j])
    requires !Contains(header, "key")
    requires forall j :: 0 <= j < |k| ==> !IsLineBreak(k[j])
    ensures SplitLines(header + "\n" + ("key = " + k)) == [header, "key = " + k]
    ensures FirstLineWith([header, "key = " + k], "key") == Some(1)
  {
    var line := "key = " + k;
    KeyLineUnbroken(k);
    SplitTwoLines(header, line);
    FindAt(line, "key", 0);
  }

  lemma KeyLineUnbroken(k: string)
    requires forall j :: 0 <= j < |k| ==> !IsLineBreak(k[j])
    ensures forall j :: 0 <= j < |"key = " + k| ==> !IsLineBreak(("key = " + k)[j])
  {
    var line := "key = " + k;
    forall j | 0 <= j < |line| ensures !IsLineBreak(line[j]) {
      if j >= 6 { assert line[j] == k[j - 6]; }
    }
  }

  lemma FirstBreakAt(s: string, i: nat)
    requires i < |s| && IsLineBreak(s[i]) && forall j :: 0 <= j < i ==> !IsLineBreak(s[j])
    ensures FirstBreak(s) == i
  {
  }

  // ------------------------------------------------------------ names

  /** _partition_name: the first partition of a block device.  A device whose
      name ends in a digit (nvme0n1, loop0) takes a "p" before the partition
      number.  An empty name is the IndexError of dev[-1]. */
  function PartitionName(dev: string): (r: Result<string, string>)
    ensures r.Err? <==> dev == []
    ensures r.Ok? ==> |r.value| > |dev| && r.value[..|dev|] == dev && r.value[|r.value| - 1] == '1'
    ensures r.Ok? ==> (IsDigit(dev[|dev| - 1]) <==> r.value[|dev|..] == "p1")
    ensures r.Ok? && !IsDigit(dev[|dev| - 1]) ==> r.value[|dev|..] == "1"
  {
    if dev == [] then Err("IndexError: string index out of range")
    else if IsDigit(dev[|dev| - 1]) then Ok(dev + "p1")
    else Ok(dev + "1")
  }

  /** The device a first-partition name belongs to: the inverse of
      _partition_name on device names that end in a letter or in a digit. */
  function DeviceOfPartition(part: string): string {
    if |part| >= 3 && part[|part| - 2..] == "p1" && IsDigit(part[|part| - 3]) then part[..|part| - 2]
    else if |part| >= 1 then part[..|part| - 1]
    else part
  }

  /** The partition name gives back its device, so two devices whose names
      end in a digit or in a character other than "p" never share a first
      partition. */
  lemma PartitionNameRoundTrip(dev: string)
    requires dev != [] && dev[|dev| - 1] != 'p'
    ensures DeviceOfPartition(PartitionName(dev).value) == dev
  {
    var last := dev[|dev| - 1];
    if IsDigit(last) {
      var part := dev + "p1";
      assert PartitionName(dev) == Ok(part);
      assert part[|part| - 2..] == "p1" && part[|part| - 3] == last;
      assert part[..|part| - 2] == dev;
    } else {
      var part := dev + "1";
      assert PartitionName(dev) == Ok(part);
      assert part[|part| - 2] == last;
      assert part[|part| - 2..] != "p1" by { assert part[|part| - 2..][0] == last; }
      assert part[..|part| - 1] == dev;
    }
  }

  /** Without that condition two devices can share a first partition:
      "x1p" and "x1" both become "x1p1". */
  lemma PartitionNamesCollide()
    ensures PartitionName("x1p") == Ok("x1p1") && PartitionName("x1") == Ok("x1p1")
  {
    assert "x1p" + "1" == "x1p1";
    assert "x1" + "p1" == "x1p1";
  }

  /** Whether the pattern ceph-(\d+) matches at position i. */
  predicate OsdDirAt(s: string, i: nat) {
    i + 6 <= |s| && s[i..i + 5] == "ceph-" && IsDigit(s[i + 5])
  }

  /** The first position at or after `from` where ceph-(\d+) matches. */
  function FirstOsdDir(s: string, from: nat): (r: Option<nat>)
    ensures r.Some? ==> from <= r.value && OsdDirAt(s, r.value)
    ensures r.Some? ==> forall j :: from <= j < r.value ==> !OsdDirAt(s, j)
    ensures r.None? ==> forall j :: from <= j ==> !OsdDirAt(s, j)
    decreases |s| - from
  {
    if from + 6 > |s| then None
    else if OsdDirAt(s, from) then Some(from)
    else FirstOsdDir(s, from + 1)
  }

  /** _get_osd_num_from_dirname: re.search(r'ceph-(?P<osd_id>\d+)') takes the
      leftmost "ceph-" that a digit follows, and the whole run of digits
      after it (the id stays a string). */
  function OsdNumFromDirname(dirname: string): (r: Result<string, string>)
    ensures r.Err? <==> forall j :: 0 <= j ==> !OsdDirAt(dirname, j)
    ensures r.Ok? ==> exists i: nat :: OsdDirAt(dirname, i) && (forall j :: 0 <= j < i ==> !OsdDirAt(dirname, j))
                              && i + 5 + |r.value| <= |dirname| && dirname[i + 5..i + 5 + |r.value|] == r.value
                              && (i + 5 + |r.value| < |dirname| ==> !IsDigit(dirname[i + 5 + |r.value|]))
    ensures r.Ok? ==> |r.value| >= 1 && AllDigits(r.value)
  {
    match FirstOsdDir(dirname, 0)
    case None => Err("dirname not in correct format: " + dirname)
    case Some(i) =>
      var e := DigitsEnd(dirname, i + 5);
      Ok(dirname[i + 5..e])
  }

  /** The directory of OSD n, "ceph-<n>", gives back "<n>". */
  lemma OsdNumOfOsdDir(n: nat)
    ensures OsdNumFromDirname("ceph-" + NatToString(n)) == Ok(NatToString(n))
  {
    var digits := NatToString(n);
    var s := "ceph-" + digits;
    assert s[0..5] == "ceph-" && s[5] == digits[0];
    assert FirstOsdDir(s, 0) == Some(0);
    assert s[5..] == digits;
    DigitsEndOfDigits(s, 5);
    assert s[5..|s|] == digits;
    assert OsdNumFromDirname(s) == Ok(s[5..DigitsEnd(s, 5)]);
  }

  // ------------------------------------------------------------ _is_int

  /** Python's decimal integer body: digits, single underscores between them. */
  predicate DecimalBody(s: string) {
    |s| >= 1 && IsDigit(s[0]) && IsDigit(s[|s| - 1])
    && (forall i :: 0 <= i < |s| ==> IsDigit(s[i]) || s[i] == '_')
    && (forall i :: 0 <= i < |s| - 1 ==> s[i] == '_' ==> s[i + 1] != '_')
  }

  /** _is_int(v) for a string: int(v) accepts surrounding white space, one
      sign, and a decimal body. */
  predicate IsInt(v: string) {
    var t := Strip(v);
    DecimalBody(t) || (|t| >= 2 && (t[0] == '+' || t[0] == '-') && DecimalBody(t[1..]))
  }

  /** Every str() of an integer passes _is_int. */
  lemma IsIntOfIntToString(i: int)
    ensures IsInt(IntToString(i))
  {
    var s := IntToString(i);
    var digits := if i < 0 then NatToString(-i) else NatToString(i);
    DigitsAreDecimalBody(digits);
    assert s == (if i < 0 then "-" else "") + digits;
    assert s[|s| - 1] == digits[|digits| - 1];
    StripTrimmed(s);
    if i < 0 {
      assert s[1..] == digits;
    }
  }

  lemma DigitsAreDecimalBody(d: string)
    requires |d| >= 1 && AllDigits(d)
    ensures DecimalBody(d)
  {
  }

  /** Text with no digit in it is never an integer. */
  lemma {:induction false} IsIntNeedsADigit(v: string)
    requires forall j :: 0 <= j < |v| ==> !IsDigit(v[j])
    ensures !IsInt(v)
  {
    var t := Strip(v);
    var a := |v| - |LStrip(v)|;
    if |t| >= 1 {
      assert t[0] == v[a];
      if |t| >= 2 {
        assert t[1..][0] == v[a + 1];
      }
    }
  }

  // ------------------------------------------------------------ utility devices

  /** The index Python's min(devices, key=count) picks: the first device
      with the smallest count. */
  function FirstLeastIndex(devices: seq<string>, count: string -> nat): (i: nat)
    requires devices != []
    ensures i < |devices|
    ensures forall j :: 0 <= j < |devices| ==> count(devices[i]) <= count(devices[j])
    ensures forall j :: 0 <= j < i ==> count(devices[j]) > count(devices[i])
  {
    if |devices| == 1 then 0
    else
      var k := FirstLeastIndex(devices[..|devices| - 1], count);
      if count(devices[|devices| - 1]) < count(devices[k]) then |devices| - 1 else k
  }

  function UsageCount(lvs: bool, partitions: string -> nat, volumes: string -> nat): string -> nat {
    if lvs then volumes else partitions
  }

  /** find_least_used_utility_device: among `devices`, the first one with
      the fewest partitions (or logical volumes, when `lvs`); min() of an
      empty list is a ValueError. */
  function FindLeastUsedUtilityDevice(devices: seq<string>, lvs: bool,
                                      partitions: string -> nat, volumes: string -> nat): (r: Result<string, string>)
    ensures r.Err? <==> devices == []
    ensures r.Ok? ==>
      var count := UsageCount(lvs, partitions, volumes);
      exists i :: 0 <= i < |devices| && devices[i] == r.value
               && (forall j :: 0 <= j < |devices| ==> count(devices[i]) <= count(devices[j]))
               && (forall j :: 0 <= j < i ==> count(devices[j]) > count(devices[i]))
  {
    if devices == [] then Err("min() arg is an empty sequence")
    else
      var i := FirstLeastIndex(devices, UsageCount(lvs, partitions, volumes));
      Ok(devices[i])
  }

  // ------------------------------------------------------------ volume sizes

  /** The ceph option calculate_volume_size reads for a volume type. */
  function ConfigOption(lvType: string): Option<string> {
    if lvType == "db" then Some("bluestore_block_db_size")
    else if lvType == "wal" then Some("bluestore_block_wal_size")
    else if lvType == "journal" then Some("osd_journal_size")
    else None
  }

  function DefaultSize(lvType: string): nat {
    if lvType == "wal" then 576 else 1024
  }

  /** Bytes per megabyte for db and wal; the journal size is set in MB. */
  function SizeUnit(lvType: string): nat {
    if lvType == "journal" then 1 else 1048576
  }

  /** calculate_volume_size: the configured size in megabytes, or the default
      (db 1024, wal 576, journal 1024) when the option is unset or zero.  An
      unknown type is the KeyError of the option table, raised before the
      option is read.  `configured` is what get_conf returns for the option,
      already read as an integer. */
  function CalculateVolumeSize(lvType: string, configured: Option<int>): (r: Result<int, string>)
    ensures r.Err? <==> lvType !in {"db", "wal", "journal"}
    ensures r.Ok? && (configured.None? || configured.value == 0) ==>
      r.value == (if lvType == "wal" then 576 else 1024)
    ensures r.Ok? && configured.Some? && configured.value != 0 ==>
      r.value * SizeUnit(lvType) <= configured.value < (r.value + 1) * SizeUnit(lvType)
  {
    if ConfigOption(lvType).None? then Err("KeyError: " + lvType)
    else if configured.None? || configured.value == 0 then Ok(DefaultSize(lvType))
    else Ok(configured.value / SizeUnit(lvType))
  }

  /** A size configured in whole megabytes comes back unchanged. */
  lemma VolumeSizeOfMegabytes(lvType: string, mb: int)
    requires lvType in {"db", "wal", "journal"} && mb != 0
    ensures CalculateVolumeSize(lvType, Some(mb * SizeUnit(lvType))) == Ok(mb)
  {
  }
}
