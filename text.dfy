/** The pieces of Python's str behaviour the charm relies on: strip(),
    splitlines(), split(sep), the `in` substring test, ', '.join(...), int()
    and str() of integers, and the ordering `<` of strings.  Only the ASCII
    and Latin-1 white-space and line-break characters are modelled. */
module Text {
  import opened Wrappers

  /** A character str.strip() removes and \s matches, restricted to the ASCII
      and Latin-1 range; Python 3 also counts the other Unicode white-space
      characters, which this model leaves out. */
  predicate IsSpace(c: char) {
    9 <= c as int <= 13 || 28 <= c as int <= 32 || c as int == 133 || c as int == 160
  }

  /** A character str.splitlines() splits on. */
  predicate IsLineBreak(c: char) {
    10 <= c as int <= 13 || 28 <= c as int <= 30 || c as int == 133 || c as int == 0x2028 || c as int == 0x2029
  }

  /** A character matched by \d and read by int(), restricted to the ASCII
      digits; Python 3 also accepts the other Unicode decimal digits, which
      this model leaves out. */
  predicate IsDigit(c: char) {
    '0' <= c <= '9'
  }

  predicate AllDigits(s: string) {
    forall i :: 0 <= i < |s| ==> IsDigit(s[i])
  }

  /** str.lstrip() */
  function LStrip(s: string): (r: string)
    ensures |r| <= |s| && r == s[|s| - |r|..]
    ensures r == [] || !IsSpace(r[0])
    ensures forall i :: 0 <= i < |s| - |r| ==> IsSpace(s[i])
  {
    if s != [] && IsSpace(s[0]) then
      var r := LStrip(s[1..]);
      LStripStep(s, r);
      r
    else s
  }

  /** Dropping one leading space keeps the lstrip contract. */
  lemma {:induction false} LStripStep(s: string, r: string)
    requires s != [] && IsSpace(s[0])
    requires |r| <= |s| - 1 && r == s[1..][|s| - 1 - |r|..]
    requires forall i :: 0 <= i < |s| - 1 - |r| ==> IsSpace(s[1..][i])
    ensures r == s[|s| - |r|..]
    ensures forall i :: 0 <= i < |s| - |r| ==> IsSpace(s[i])
  {
    forall i | 1 <= i < |s| - |r| ensures IsSpace(s[i]) {
      assert s[i] == s[1..][i - 1];
    }
  }

  /** str.rstrip() */
  function RStrip(s: string): (r: string)
    ensures |r| <= |s| && r == s[..|r|]
    ensures r == [] || !IsSpace(r[|r| - 1])
    ensures forall i :: |r| <= i < |s| ==> IsSpace(s[i])
  {
    if s != [] && IsSpace(s[|s| - 1]) then RStrip(s[..|s| - 1]) else s
  }

  /** str.strip(): the infix of s left once its leading white space (as many
      characters as lstrip removes) and its trailing white space are cut off;
      it neither starts nor ends with white space. */
  function Strip(s: string): (r: string)
    ensures |r| <= |s|
    ensures r == [] || (!IsSpace(r[0]) && !IsSpace(r[|r| - 1]))
    ensures CutFrom(s, |s| - |LStrip(s)|, r)
  {
    var t := LStrip(s);
    var r := RStrip(t);
    StripBounds(s, t, r);
    r
  }

  /** r is the infix of s at index a, with only white space around it. */
  predicate CutFrom(s: string, a: nat, r: string) {
    a + |r| <= |s| && r == s[a..a + |r|]
    && (forall j :: 0 <= j < a ==> IsSpace(s[j]))
    && (forall j :: a + |r| <= j < |s| ==> IsSpace(s[j]))
  }

  /** Where the text RStrip(LStrip(s)) sits in s. */
  lemma {:induction false} StripBounds(s: string, t: string, r: string)
    requires t == LStrip(s) && r == RStrip(t)
    ensures CutFrom(s, |s| - |t|, r)
  {
    InfixOfSuffix(s, t, r);
  }

  /** A prefix r of a suffix t of s is the infix of s that starts where t
      does, and what follows r in t follows it in s. */
  lemma {:induction false} InfixOfSuffix(s: string, t: string, r: string)
    requires |t| <= |s| && t == s[|s| - |t|..]
    requires |r| <= |t| && r == t[..|r|]
    requires forall j :: |r| <= j < |t| ==> IsSpace(t[j])
    ensures var a := |s| - |t|; r == s[a..a + |r|] && forall j :: a + |r| <= j < |s| ==> IsSpace(s[j])
  {
    var a := |s| - |t|;
    forall j | a + |r| <= j < |s| ensures IsSpace(s[j]) {
      assert s[j] == t[j - a];
    }
  }

  /** Index of the first line break of s, or |s| when there is none. */
  function FirstBreak(s: string): (i: nat)
    ensures i <= |s|
    ensures forall j :: 0 <= j < i ==> !IsLineBreak(s[j])
    ensures i < |s| ==> IsLineBreak(s[i])
  {
    if s == [] || IsLineBreak(s[0]) then 0 else 1 + FirstBreak(s[1..])
  }

  /** str.splitlines(): "\r\n" is one break; a trailing break adds no empty line.
      The first line is the text before the first break. */
  function SplitLines(s: string): (lines: seq<string>)
    ensures s == [] <==> lines == []
    ensures forall k :: 0 <= k < |lines| ==> forall j :: 0 <= j < |lines[k]| ==> !IsLineBreak(lines[k][j])
    ensures lines != [] ==> lines[0] == s[..FirstBreak(s)]
    decreases |s|
  {
    if s == [] then []
    else
      var i := FirstBreak(s);
      if i == |s| then [s]
      else
        var skip := if s[i] == '\r' && i + 1 < |s| && s[i + 1] == '\n' then 2 else 1;
        [s[..i]] + SplitLines(s[i + skip..])
  }

  /** A non-empty string without line breaks is a single line. */
  lemma SingleLine(s: string)
    requires s != [] && forall j :: 0 <= j < |s| ==> !IsLineBreak(s[j])
    ensures SplitLines(s) == [s]
  {
    assert FirstBreak(s) == |s|;
  }

  /** sep occurs in s at index j. */
  predicate MatchAt(s: string, sep: string, j: nat) {
    j + |sep| <= |s| && s[j..j + |sep|] == sep
  }

  /** Past the first character, the matches of s are those of s[1..]. */
  lemma {:induction false} MatchAtTail(s: string, sep: string)
    requires s != []
    ensures forall j: nat :: 1 <= j ==> (MatchAt(s, sep, j) <==> MatchAt(s[1..], sep, j - 1))
  {
    forall j: nat | 1 <= j ensures MatchAt(s, sep, j) <==> MatchAt(s[1..], sep, j - 1) {
      if j + |sep| <= |s| {
        assert s[j..j + |sep|] == s[1..][j - 1..j - 1 + |sep|];
      }
    }
  }

  /** The first index at which sep occurs in s (str.find). */
  function Find(s: string, sep: string): (r: Option<nat>)
    ensures r.Some? ==> MatchAt(s, sep, r.value)
    ensures r.Some? ==> forall j: nat :: j < r.value ==> !MatchAt(s, sep, j)
    ensures r.None? ==> forall j: nat :: j <= |s| ==> !MatchAt(s, sep, j)
    decreases |s|
  {
    if MatchAt(s, sep, 0) then Some(0)
    else if s == [] then None
    else
      MatchAtTail(s, sep);
      match Find(s[1..], sep)
      case Some(i) => Some(i + 1)
      case None => None
  }

  /** Find returns the first match: a match at i with none before it. */
  lemma FindAt(s: string, sep: string, i: nat)
    requires MatchAt(s, sep, i)
    requires forall j: nat :: j < i ==> !MatchAt(s, sep, j)
    ensures Find(s, sep) == Some(i)
  {
  }

  /** Python's `sub in s` for strings. */
  predicate Contains(s: string, sub: string) {
    Find(s, sub).Some?
  }

  /** str.split(sep) for a non-empty separator: the parts between consecutive
      separators, each separator being the first one after the previous part.
      Joined with sep they give back s; the last part holds no separator, and
      every other part followed by sep holds its first separator at its end. */
  function Split(s: string, sep: string): (parts: seq<string>)
    requires sep != []
    ensures |parts| >= 1
    ensures !Contains(s, sep) ==> parts == [s]
    ensures Contains(s, sep) ==> |parts| >= 2 && parts[0] == s[..Find(s, sep).value]
    ensures Join(sep, parts) == s
    ensures LastPartClear(parts, sep)
    ensures PartsEndAtFirstSep(parts, sep)
    decreases |s|
  {
    match Find(s, sep)
    case None => [s]
    case Some(i) =>
      var rest := Split(s[i + |sep|..], sep);
      SplitStep(s, sep, i, rest);
      [s[..i]] + rest
  }

  /** The last of the parts holds no separator. */
  predicate LastPartClear(parts: seq<string>, sep: string) {
    |parts| >= 1 && !Contains(parts[|parts| - 1], sep)
  }

  /** Every part but the last, followed by sep, has its first sep at its end. */
  predicate PartsEndAtFirstSep(parts: seq<string>, sep: string) {
    forall k :: 0 <= k < |parts| - 1 ==> Find(parts[k] + sep, sep) == Some(|parts[k]|)
  }

  /** One step of Split: the text before the first separator, then the parts
      of the text after it. */
  lemma {:induction false} SplitStep(s: string, sep: string, i: nat, rest: seq<string>)
    requires sep != [] && Find(s, sep) == Some(i)
    requires |rest| >= 1 && Join(sep, rest) == s[i + |sep|..]
    requires LastPartClear(rest, sep) && PartsEndAtFirstSep(rest, sep)
    ensures var parts := [s[..i]] + rest;
            Join(sep, parts) == s && LastPartClear(parts, sep) && PartsEndAtFirstSep(parts, sep)
  {
    SplitStepJoin(s, sep, i, rest, s[..i], s[i + |sep|..]);
    FindBeforeFirst(s, sep, i);
    PartsEndInFirstSep(s[..i], rest, sep);
  }

  /** The last part holds no separator, and each part but the last, followed
      by sep, has its first sep at its end. */
  lemma {:induction false} PartsEndInFirstSep(first: string, rest: seq<string>, sep: string)
    requires LastPartClear(rest, sep) && PartsEndAtFirstSep(rest, sep)
    requires Find(first + sep, sep) == Some(|first|)
    ensures LastPartClear([first] + rest, sep) && PartsEndAtFirstSep([first] + rest, sep)
  {
    var parts := [first] + rest;
    assert parts[|parts| - 1] == rest[|rest| - 1];
    forall k | 0 <= k < |parts| - 1 ensures Find(parts[k] + sep, sep) == Some(|parts[k]|) {
      if k > 0 {
        assert parts[k] == rest[k - 1];
      }
    }
  }

  lemma {:induction false} SplitStepJoin(s: string, sep: string, i: nat, rest: seq<string>, before: string, after: string)
    requires i + |sep| <= |s| && s[i..i + |sep|] == sep
    requires before == s[..i] && after == s[i + |sep|..]
    requires |rest| >= 1 && Join(sep, rest) == after
    ensures Join(sep, [before] + rest) == s
  {
    var parts := [before] + rest;
    assert Join(sep, parts) == before + sep + after by {
      assert parts[0] == before && parts[1..] == rest;
    }
    assert s == before + sep + after by {
      assert s == s[..i] + s[i..i + |sep|] + s[i + |sep|..];
    }
  }

  /** The text before the first separator, followed by a separator, has that
      separator as its first one. */
  lemma {:induction false} FindBeforeFirst(s: string, sep: string, i: nat)
    requires Find(s, sep) == Some(i)
    ensures Find(s[..i] + sep, sep) == Some(i)
  {
    var t := s[..i] + sep;
    assert t == s[..i + |sep|];
    assert MatchAt(t, sep, i) by { assert t[i..i + |sep|] == sep; }
    forall j: nat | j < i ensures !MatchAt(t, sep, j) {
      assert !MatchAt(s, sep, j);
      if j + |sep| <= |t| {
        assert t[j..j + |sep|] == s[j..j + |sep|];
      }
    }
    FindAt(t, sep, i);
  }

  /** sep.join(parts) */
  function Join(sep: string, parts: seq<string>): string {
    if parts == [] then ""
    else if |parts| == 1 then parts[0]
    else parts[0] + sep + Join(sep, parts[1..])
  }
  /** Text whose only line break is "\n" is given back by joining its lines
      with "\n", plus a final "\n" when it ends with one: with SplitLines'
      lines holding no break, each line is the text between two consecutive
      newlines. */
  lemma {:induction false} SplitLinesJoin(s: string)
    requires OnlyNewlines(s)
    ensures JoinsBackTo(SplitLines(s), s)
    decreases |s|
  {
    if s == [] {
    } else if FirstBreak(s) == |s| {
      SingleLineJoins(s);
    } else {
      var i := FirstBreak(s);
      NewlineThenOnlyNewlines(s, i);
      if i + 1 < |s| {
        SplitLinesJoin(s[i + 1..]);
      }
      BreakJoins(s, i);
    }
  }

  /** A line without a break joins back to itself. */
  lemma {:induction false} SingleLineJoins(s: string)
    requires s != [] && FirstBreak(s) == |s|
    ensures JoinsBackTo(SplitLines(s), s)
  {
    SingleLine(s);
    assert !IsLineBreak(s[|s| - 1]);
  }

  /** The first break of text whose only breaks are "\n" is a "\n", and the
      text after it has only "\n" breaks too. */
  lemma {:induction false} NewlineThenOnlyNewlines(s: string, i: nat)
    requires OnlyNewlines(s) && i < |s| && IsLineBreak(s[i])
    ensures s[i] == '\n' && OnlyNewlines(s[i + 1..])
  {
    var rest := s[i + 1..];
    forall j | 0 <= j < |rest| && IsLineBreak(rest[j]) ensures rest[j] == '\n' {
      assert rest[j] == s[i + 1 + j];
    }
  }

  /** Joining back at the first break, a "\n", given the rest joins back. */
  lemma {:induction false} BreakJoins(s: string, i: nat)
    requires i < |s| && i == FirstBreak(s) && s[i] == '\n'
    requires i + 1 < |s| ==> JoinsBackTo(SplitLines(s[i + 1..]), s[i + 1..])
    ensures JoinsBackTo(SplitLines(s), s)
  {
    SplitLinesAtNewline(s, i);
    if i + 1 < |s| {
      JoinNewlineStep(s, i, SplitLines(s[i + 1..]));
    } else {
      assert s == s[..i] + "\n";
    }
  }

  /** The lines joined with "\n" give s back, followed by a final "\n" when s
      ends with one. */
  predicate JoinsBackTo(lines: seq<string>, s: string) {
    if s != [] && s[|s| - 1] == '\n' then Join("\n", lines) + "\n" == s else Join("\n", lines) == s
  }

  /** Unfolding SplitLines at a "\n" break. */
  lemma {:induction false} SplitLinesAtNewline(s: string, i: nat)
    requires i < |s| && i == FirstBreak(s) && s[i] == '\n'
    ensures SplitLines(s) == [s[..i]] + SplitLines(s[i + 1..])
    ensures s[i + 1..] == [] ==> SplitLines(s) == [s[..i]]
  {
    assert s[i] != '\r';
    if s[i + 1..] == [] {
      assert SplitLines(s[i + 1..]) == [];
      assert [s[..i]] + SplitLines(s[i + 1..]) == [s[..i]];
    }
  }

  /** The text up to a "\n", then the rest joined back, is s. */
  lemma {:induction false} JoinNewlineStep(s: string, i: nat, lines: seq<string>)
    requires i < |s| - 1 && s[i] == '\n' && lines != []
    requires JoinsBackTo(lines, s[i + 1..])
    ensures JoinsBackTo([s[..i]] + lines, s)
  {
    JoinCons("\n", s[..i], lines);
    assert s == s[..i] + "\n" + s[i + 1..];
    assert s[i + 1..][|s| - i - 2] == s[|s| - 1];
  }

  /** Every line break in s is a "\n". */
  predicate OnlyNewlines(s: string) {
    forall j :: 0 <= j < |s| && IsLineBreak(s[j]) ==> s[j] == '\n'
  }

  lemma {:induction false} JoinCons(sep: string, part: string, parts: seq<string>)
    requires parts != []
    ensures Join(sep, [part] + parts) == part + sep + Join(sep, parts)
  {
    assert ([part] + parts)[1..] == parts;
  }



  function DigitChar(d: nat): (c: char)
    requires d < 10
    ensures IsDigit(c)
  {
    ['0', '1', '2', '3', '4', '5', '6', '7', '8', '9'][d]
  }

  function DigitValue(c: char): (d: nat)
    requires IsDigit(c)
    ensures d < 10
  {
    (c as int - '0' as int) as nat
  }

  /** str(n) for a non-negative integer. */
  function NatToString(n: nat): (s: string)
    ensures |s| >= 1 && AllDigits(s)
  {
    if n < 10 then [DigitChar(n)] else NatToString(n / 10) + [DigitChar(n % 10)]
  }

  /** str(i) for an integer. */
  function IntToString(i: int): (s: string)
    ensures |s| >= 1
  {
    if i < 0 then "-" + NatToString(-i) else NatToString(i)
  }

  /** int(s) for a non-empty string of decimal digits. */
  function ParseNat(s: string): nat
    requires |s| >= 1 && AllDigits(s)
    decreases |s|
  {
    if |s| == 1 then DigitValue(s[0])
    else ParseNat(s[..|s| - 1]) * 10 + DigitValue(s[|s| - 1])
  }

  /** int(s) for a string matched by the pattern -?\d+ */
  predicate IsIntLiteral(s: string) {
    (|s| >= 1 && AllDigits(s)) || (|s| >= 2 && s[0] == '-' && AllDigits(s[1..]))
  }

  function ParseInt(s: string): int
    requires IsIntLiteral(s)
  {
    if |s| >= 1 && AllDigits(s) then ParseNat(s) as int else 0 - ParseNat(s[1..])
  }

  lemma {:induction false} ParseNatToString(n: nat)
    ensures ParseNat(NatToString(n)) == n
  {
    if n >= 10 {
      var s := NatToString(n);
      assert s[..|s| - 1] == NatToString(n / 10);
      ParseNatToString(n / 10);
    }
  }

  /** An integer printed with str() reads back with int(): the id a CRUSH bucket
      is written with is the id the next parse of the map finds. */
  lemma IntToStringRoundTrip(i: int)
    ensures IsIntLiteral(IntToString(i))
    ensures ParseInt(IntToString(i)) == i
  {
    if i < 0 {
      var d := NatToString(-i);
      var s := IntToString(i);
      assert s == "-" + d;
      assert s[0] == '-' && s[1..] == d;
      assert !AllDigits(s) by { assert !IsDigit(s[0]); }
      assert IsIntLiteral(s);
      assert ParseInt(s) == 0 - ParseNat(d);
      ParseNatToString(-i);
    } else {
      ParseNatToString(i);
    }
  }

  /** Regrouping a concatenation, stated once so that callers need not
      rediscover it element by element. */
  lemma ConcatAssoc(a: string, b: string, c: string)
    ensures a + (b + c) == (a + b) + c
  {
  }

  // ------------------------------------------------------------ regular-expression scanning

  /** The first index at or after i whose character is not white space: where
      a greedy \s* or \s+ starting at i stops. */
  function SkipSpaces(s: string, i: nat): (e: nat)
    requires i <= |s|
    ensures i <= e <= |s| && (e < |s| ==> !IsSpace(s[e]))
    decreases |s| - i
  {
    if i < |s| && IsSpace(s[i]) then SkipSpaces(s, i + 1) else i
  }

  /** The end of the run of digits that starts at i: where a greedy \d+ stops. */
  function DigitsEnd(s: string, i: nat): (e: nat)
    requires i <= |s|
    ensures i <= e <= |s| && (e < |s| ==> !IsDigit(s[e]))
    ensures AllDigits(s[i..e])
    decreases |s| - i
  {
    if i < |s| && IsDigit(s[i]) then DigitsEnd(s, i + 1) else i
  }

  lemma SkipSpacesAt(s: string, i: nat, e: nat)
    requires i <= e < |s| && !IsSpace(s[e]) && forall j :: i <= j < e ==> IsSpace(s[j])
    ensures SkipSpaces(s, i) == e
    decreases e - i
  {
    if i < e {
      SkipSpacesAt(s, i + 1, e);
    }
  }

  lemma DigitsEndAt(s: string, i: nat, e: nat)
    requires i <= e < |s| && !IsDigit(s[e]) && forall j :: i <= j < e ==> IsDigit(s[j])
    ensures DigitsEnd(s, i) == e
    decreases e - i
  {
    if i < e {
      DigitsEndAt(s, i + 1, e);
    }
  }

  lemma {:induction false} DigitsEndOfDigits(s: string, i: nat)
    requires i <= |s| && AllDigits(s[i..])
    ensures DigitsEnd(s, i) == |s|
    decreases |s| - i
  {
    if i < |s| {
      assert s[i] == s[i..][0];
      assert s[i + 1..] == s[i..][1..];
      DigitsEndOfDigits(s, i + 1);
    }
  }
}
