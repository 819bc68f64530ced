/** What charms_ceph/utils.py reads back from `ceph osd pool get` and
    `ceph osd pool get-quota`.  The command itself is outside the model: its
    outcome is a parameter. */
module PoolQueries {
  import opened Wrappers
  import opened Text

  /** The outcome of subprocess.check_output: the text printed, or a
      CalledProcessError with its return code and output. */
  datatype CommandResult = Output(text: string) | Failed(code: int, output: string)

  // ------------------------------------------------------------ get_pool_param

  /** get_pool_param: the text between the first and the second ':' of the
      reply (or its end), stripped; None when the reply has no ':' or when the command
      failed with code 2 saying "ENOENT: option"; any other failure is
      raised again. */
  function GetPoolParam(res: CommandResult): (r: Result<Option<string>, string>)
    ensures r.Err? <==> res.Failed? && !(res.code == 2 && Contains(res.output, "ENOENT: option"))
    ensures res.Failed? && r.Ok? ==> r.value == None
    ensures res.Output? ==> r.Ok? && (r.value.None? <==> !Contains(res.text, ":"))
    ensures res.Output? && r.value.Some? ==>
      r.value.value == [] || (!IsSpace(r.value.value[0]) && !IsSpace(r.value.value[|r.value.value| - 1]))
    ensures res.Output? && r.value.Some? ==>
      var rest := res.text[Find(res.text, ":").value + 1..];
      r.value.value == Strip(match Find(rest, ":") case None => rest case Some(j) => rest[..j])
  {
    match res
    case Failed(code, output) =>
      if code == 2 && Contains(output, "ENOENT: option") then Ok(None) else Err("CalledProcessError")
    case Output(text) =>
      if Contains(text, ":") then
        var rest := text[Find(text, ":").value + 1..];
        assert Split(text, ":") == [text[..Find(text, ":").value]] + Split(rest, ":");
        Ok(Some(Strip(Split(text, ":")[1])))
      else Ok(None)
  }

  /** A string in which a character never occurs does not contain it. */
  lemma {:induction false} NotContainsChar(s: string, c: char)
    requires forall j :: 0 <= j < |s| ==> s[j] != c
    ensures !Contains(s, [c])
  {
    if s != [] {
      assert !([c] <= s) by { assert s[0] != c; }
      NotContainsChar(s[1..], c);
    }
  }

  /** The reply "<param>: <value>\n" gives back the value. */
  lemma GetPoolParamOfReply(param: string, value: string)
    requires forall j :: 0 <= j < |param| ==> param[j] != ':'
    requires forall j :: 0 <= j < |value| ==> value[j] != ':'
    requires value != [] && !IsSpace(value[0]) && !IsSpace(value[|value| - 1])
    ensures GetPoolParam(Output(param + ": " + value + "\n")) == Ok(Some(value))
  {
    var text := param + ": " + value + "\n";
    var i := |param|;
    assert MatchAt(text, ":", i) by { assert text[i..i + 1] == ":"; }
    forall j: nat | j < i ensures !MatchAt(text, ":", j) {
      assert text[j..j + 1][0] == text[j] == param[j];
    }
    FindAt(text, ":", i);
    var rest := text[i + 1..];
    assert rest == " " + value + "\n";
    NotContainsChar(rest, ':');
    assert Split(text, ":") == [text[..i]] + Split(rest, ":");
    assert Split(text, ":")[1] == rest;
    StripPadded(value);
  }

  /** One leading space and one trailing line break are stripped. */
  lemma StripPadded(value: string)
    requires value != [] && !IsSpace(value[0]) && !IsSpace(value[|value| - 1])
    ensures Strip(" " + value + "\n") == value
  {
    var s := " " + value + "\n";
    assert s[1..] == value + "\n";
    assert LStrip(s) == value + "\n";
    assert (value + "\n")[..|value|] == value;
    assert RStrip(value + "\n") == RStrip(value);
  }

  // ------------------------------------------------------------ get_pool_quota

  /** The first index at or after i whose character is white space. */
  function TokenEnd(s: string, i: nat): (e: nat)
    requires i <= |s|
    ensures i <= e <= |s| && (e < |s| ==> IsSpace(s[e]))
    ensures forall j :: i <= j < e ==> !IsSpace(s[j])
    decreases |s| - i
  {
    if i < |s| && !IsSpace(s[i]) then TokenEnd(s, i + 1) else i
  }

  /** The part \s*:\s+(\d+) of the pattern, tried at position t: the digits. */
  function QuotaTail(line: string, t: nat): (r: Option<string>)
    requires t <= |line|
    ensures r.Some? ==> |r.value| >= 1 && AllDigits(r.value)
  {
    var j := SkipSpaces(line, t);
    if j < |line| && line[j] == ':' then
      var k := SkipSpaces(line, j + 1);
      var d := DigitsEnd(line, k);
      if k > j + 1 && d > k then Some(line[k..d]) else None
    else None
  }

  /** re.match(r'\s+max\s+(\S+)\s*:\s+(\d+)', line): the two groups.  The
      greedy \S+ first takes the whole run of non-space characters; when the
      rest does not match, backtracking can only give back a final ':'. */
  function MatchQuotaLine(line: string): (r: Option<(string, string)>)
    ensures r.Some? ==> |line| >= 1 && IsSpace(line[0])
    ensures r.Some? ==> |r.value.0| >= 1 && (forall j :: 0 <= j < |r.value.0| ==> !IsSpace(r.value.0[j]))
    ensures r.Some? ==> |r.value.1| >= 1 && AllDigits(r.value.1)
  {
    var i1 := SkipSpaces(line, 0);
    if i1 == 0 || i1 + 3 > |line| || line[i1..i1 + 3] != "max" then None
    else
      var i3 := SkipSpaces(line, i1 + 3);
      var t := TokenEnd(line, i3);
      if i3 == i1 + 3 || t == i3 then None
      else if QuotaTail(line, t).Some? then Some((line[i3..t], QuotaTail(line, t).value))
      else if t - 1 > i3 && QuotaTail(line, t - 1).Some? then Some((line[i3..t - 1], QuotaTail(line, t - 1).value))
      else None
  }

  /** The dictionary entry a line of get-quota output contributes. */
  function QuotaEntry(line: string): Option<(string, string)> {
    match MatchQuotaLine(line)
    case None => None
    case Some((name, n)) => Some(("max_" + name, n))
  }

  predicate HasKey(line: string, k: string) {
    QuotaEntry(line).Some? && QuotaEntry(line).value.0 == k
  }

  lemma TokenEndAt(s: string, i: nat, e: nat)
    requires i <= e < |s| && IsSpace(s[e]) && forall j :: i <= j < e ==> !IsSpace(s[j])
    ensures TokenEnd(s, i) == e
  {
  }

  /** The tail ": <n> <unit>" after a name yields n, tried at the ':'. */
  lemma QuotaTailOfReply(line: string, c: nat, n: string)
    requires c + 2 + |n| < |line| && line[c] == ':' && line[c + 1] == ' '
    requires |n| >= 1 && AllDigits(n) && line[c + 2..c + 2 + |n|] == n && line[c + 2 + |n|] == ' '
    ensures QuotaTail(line, c) == Some(n)
    ensures QuotaTail(line, c + 1).None?
  {
    assert line[c + 2] == n[0];
    SkipSpacesAt(line, c, c);
    SkipSpacesAt(line, c + 1, c + 2);
    var d := c + 2 + |n|;
    forall j | c + 2 <= j < d ensures IsDigit(line[j]) {
      assert line[j] == n[j - c - 2];
    }
    DigitsEndAt(line, c + 2, d);
  }

  lemma QuotaLineLayout(name: string, n: string, unit: string)
    requires |name| >= 1 && |n| >= 1
    ensures var line := "  max " + name + ": " + n + " " + unit;
            var c := 6 + |name|;
            c + 2 + |n| < |line|
            && line[..6] == "  max " && line[6..c] == name && line[c] == ':' && line[c + 1] == ' '
            && line[c + 2..c + 2 + |n|] == n && line[c + 2 + |n|] == ' '
  {
    var line := "  max " + name + ": " + n + " " + unit;
    var c := 6 + |name|;
    assert line == "  max " + name + ": " + n + " " + unit;
    assert line[..c] == "  max " + name;
    assert line[c..] == ": " + n + " " + unit;
  }

  /** The lines `ceph osd pool get-quota` prints give back their entries:
      "  max <name>: <n> <unit>" yields ("max_<name>", "<n>"). */
  lemma QuotaLineRoundTrip(name: string, n: string, unit: string)
    requires |name| >= 1 && forall j :: 0 <= j < |name| ==> !IsSpace(name[j]) && name[j] != ':'
    requires |n| >= 1 && AllDigits(n)
    ensures MatchQuotaLine("  max " + name + ": " + n + " " + unit) == Some((name, n))
  {
    QuotaLineLayout(name, n, unit);
    MatchLaidOut("  max " + name + ": " + n + " " + unit, name, n);
  }

  /** A line laid out as "  max <name>: <n> ..." matches with those groups. */
  lemma MatchLaidOut(line: string, name: string, n: string)
    requires |name| >= 1 && forall j :: 0 <= j < |name| ==> !IsSpace(name[j]) && name[j] != ':'
    requires |n| >= 1 && AllDigits(n)
    requires var c := 6 + |name|;
             c + 2 + |n| < |line|
             && line[..6] == "  max " && line[6..c] == name && line[c] == ':' && line[c + 1] == ' '
             && line[c + 2..c + 2 + |n|] == n && line[c + 2 + |n|] == ' '
    ensures MatchQuotaLine(line) == Some((name, n))
  {
    var c := 6 + |name|;
    QuotaHead(line, name);
    QuotaTailOfReply(line, c, n);
  }

  /** The head "  max <name>" of such a line: the spaces, the word and the
      name's token. */
  lemma QuotaHead(line: string, name: string)
    requires |name| >= 1 && forall j :: 0 <= j < |name| ==> !IsSpace(name[j]) && name[j] != ':'
    requires 7 + |name| < |line| && line[..6] == "  max " && line[6..6 + |name|] == name
    requires line[6 + |name|] == ':' && line[7 + |name|] == ' '
    ensures SkipSpaces(line, 0) == 2 && line[2..5] == "max" && SkipSpaces(line, 5) == 6
    ensures TokenEnd(line, 6) == 6 + |name| + 1 && line[6..6 + |name|] == name
  {
    var c := 6 + |name|;
    assert line[..6][0] == ' ' && line[..6][1] == ' ' && line[..6][2] == 'm';
    SkipSpacesAt(line, 0, 2);
    assert line[2..5] == line[..6][2..5] == "max";
    assert line[6] == line[6..c][0] == name[0];
    SkipSpacesAt(line, 5, 6);
    forall j | 6 <= j < c + 1 ensures !IsSpace(line[j]) {
      if j < c { assert line[j] == line[6..c][j - 6] == name[j - 6]; }
    }
    TokenEndAt(line, 6, c + 1);
  }

  /** A line that does not begin with white space never matches: re.match
      anchors the pattern at the start. */
  lemma QuotaNeedsLeadingSpace(line: string)
    requires line == [] || !IsSpace(line[0])
    ensures QuotaEntry(line).None?
  {
  }

  /** The dictionary get_pool_quota builds from `lines`, line by line. */
  function QuotaOf(lines: seq<string>): map<string, string> {
    if lines == [] then map[]
    else
      var m := QuotaOf(lines[..|lines| - 1]);
      match QuotaEntry(lines[|lines| - 1])
      case None => m
      case Some((k, v)) => m[k := v]
  }

  lemma QuotaOfStep(lines: seq<string>, idx: nat)
    requires idx < |lines|
    ensures QuotaOf(lines[..idx + 1]) == match QuotaEntry(lines[idx])
                                         case None => QuotaOf(lines[..idx])
                                         case Some((k, v)) => QuotaOf(lines[..idx])[k := v]
  {
    assert lines[..idx + 1][..idx] == lines[..idx];
  }

  /** get_pool_quota: one entry per matching line of the command's output. */
  method GetPoolQuota(output: string) returns (result: map<string, string>)
    ensures result == QuotaOf(SplitLines(output))
  {
    var lines := SplitLines(output);
    result := map[];
    var idx := 0;
    while idx < |lines|
      invariant 0 <= idx <= |lines|
      invariant result == QuotaOf(lines[..idx])
    {
      QuotaOfStep(lines, idx);
      var entry := QuotaEntry(lines[idx]);
      if entry.Some? {
        result := result[entry.value.0 := entry.value.1];
      }
      idx := idx + 1;
    }
    assert lines[..|lines|] == lines;
  }

  /** The keys of the quota dictionary are exactly the keys of matching lines. */
  lemma {:induction false} QuotaKeys(lines: seq<string>, k: string)
    ensures k in QuotaOf(lines) <==> exists line :: line in lines && HasKey(line, k)
  {
    if lines != [] {
      var init := lines[..|lines| - 1];
      var last := lines[|lines| - 1];
      QuotaKeys(init, k);
      QuotaKeysStep(lines, k);
      assert lines == init + [last];
      assert forall line :: line in lines <==> line in init || line == last;
    }
  }

  lemma QuotaKeysStep(lines: seq<string>, k: string)
    requires lines != []
    ensures k in QuotaOf(lines) <==> k in QuotaOf(lines[..|lines| - 1]) || HasKey(lines[|lines| - 1], k)
  {
  }

  /** A later line with the same name overwrites an earlier one: the value
      kept is that of the last line with the key. */
  lemma {:induction false} QuotaLastWins(lines: seq<string>, i: nat, k: string)
    requires i < |lines| && HasKey(lines[i], k)
    requires forall j :: i < j < |lines| ==> !HasKey(lines[j], k)
    ensures k in QuotaOf(lines) && QuotaOf(lines)[k] == QuotaEntry(lines[i]).value.1
  {
    var init := lines[..|lines| - 1];
    if i < |lines| - 1 {
      assert HasKey(init[i], k);
      QuotaLastWins(init, i, k);
      assert !HasKey(lines[|lines| - 1], k);
    }
  }
}
