/** The regular expressions with which charms_ceph/crush_utils.py reads the
    decompiled CRUSH map: the `id` pattern and the `root` pattern, scanned
    with Python's findall semantics and backtracking order, and where the
    pieces of a written bucket sit for the patterns to read them back. */
module CrushScan {
  import opened Wrappers
  import opened Text

  /** The end of -?\d+ matched at c (the optional sign is taken when present). */
  function IntAt(s: string, c: nat): (r: Option<nat>)
    requires c <= |s|
    ensures r.Some? ==> c < r.value <= |s| && IsIntLiteral(s[c..r.value])
  {
    if c < |s| && s[c] == '-' then
      var d := DigitsEnd(s, c + 1);
      assert s[c..d][1..] == s[c + 1..d];
      if d > c + 1 then Some(d) else None
    else
      var d := DigitsEnd(s, c);
      if d > c then Some(d) else None
  }

  /** CRUSHMAP_ID_RE, id\s+(-?\d+), tried at i: the group and the match's end. */
  function IdMatchAt(s: string, i: nat): (r: Option<(string, nat)>)
    requires i <= |s|
    ensures r.Some? ==> i < r.value.1 <= |s| && IsIntLiteral(r.value.0)
  {
    if i + 2 <= |s| && s[i..i + 2] == "id" then
      var c := SkipSpaces(s, i + 2);
      if c > i + 2 then
        match IntAt(s, c)
        case Some(d) => Some((s[c..d], d))
        case None => None
      else None
    else None
  }

  /** re.findall(CRUSHMAP_ID_RE, s[from..]): scanning resumes at the end of
      each match. */
  function FindIds(s: string, from: nat): (ts: seq<string>)
    requires from <= |s|
    ensures forall j :: 0 <= j < |ts| ==> IsIntLiteral(ts[j])
    decreases |s| - from
  {
    if from == |s| then []
    else
      match IdMatchAt(s, from)
      case Some((t, e)) => [t] + FindIds(s, e)
      case None => FindIds(s, from + 1)
  }

  /** The part \s+\{\s*id\s+(-?\d+) of CRUSHMAP_BUCKETS_RE, tried at q.  Each
      white-space run is followed by a character it cannot match, so the
      greedy runs never need to give anything back. */
  function TailAt(s: string, q: nat): (r: Option<(string, nat)>)
    requires q <= |s|
    ensures r.Some? ==> q < r.value.1 <= |s| && IsIntLiteral(r.value.0)
  {
    var a := SkipSpaces(s, q);
    if a > q && a < |s| && s[a] == '{' then IdMatchAt(s, SkipSpaces(s, a + 1)) else None
  }

  /** Where the line holding position p ends: how far `.` can reach from p. */
  function LineEnd(s: string, p: nat): (e: nat)
    requires p <= |s|
    ensures p <= e <= |s| && (e < |s| ==> s[e] == '\n')
    ensures forall j :: p <= j < e ==> s[j] != '\n'
    decreases |s| - p
  {
    if p < |s| && s[p] != '\n' then LineEnd(s, p + 1) else p
  }

  /** The greedy group (.+) starting at p: the longest end q, at most `upTo`,
      after which the tail matches. */
  function NameEnd(s: string, p: nat, upTo: nat): (r: Option<nat>)
    requires p < upTo <= |s|
    ensures r.Some? ==> p < r.value <= upTo && TailAt(s, r.value).Some?
    decreases upTo
  {
    if TailAt(s, upTo).Some? then Some(upTo)
    else if upTo - 1 > p then NameEnd(s, p, upTo - 1)
    else None
  }

  /** Backtracking over where the greedy \s+ after "root" ends: p from its
      longest run down to a single white-space character. */
  function NameStart(s: string, i: nat, p: nat): (r: Option<(nat, nat)>)
    requires i + 4 < p <= |s|
    ensures r.Some? ==> i + 4 < r.value.0 < r.value.1 <= |s| && TailAt(s, r.value.1).Some?
    ensures r.Some? ==> forall j :: r.value.0 <= j < r.value.1 ==> s[j] != '\n'
    decreases p
  {
    var e := LineEnd(s, p);
    if e > p && NameEnd(s, p, e).Some? then Some((p, NameEnd(s, p, e).value))
    else if p - 1 > i + 4 then NameStart(s, i, p - 1)
    else None
  }

  /** A bucket name as the pattern captures it: one or more characters of one line. */
  predicate OneLine(name: string) {
    |name| >= 1 && forall j :: 0 <= j < |name| ==> name[j] != '\n'
  }

  /** CRUSHMAP_BUCKETS_RE, root\s+(.+)\s+\{\s*id\s+(-?\d+), tried at i: the
      two groups and the match's end, with Python's backtracking order. */
  function RootMatchAt(s: string, i: nat): (r: Option<(string, string, nat)>)
    requires i <= |s|
    ensures r.Some? ==> OneLine(r.value.0) && IsIntLiteral(r.value.1) && i < r.value.2 <= |s|
  {
    if i + 4 <= |s| && s[i..i + 4] == "root" then
      var w := SkipSpaces(s, i + 4);
      if w > i + 4 then
        match NameStart(s, i, w)
        case Some((p, q)) =>
          var (t, e) := TailAt(s, q).value;
          Some((s[p..q], t, e))
        case None => None
      else None
    else None
  }

  /** re.findall(CRUSHMAP_BUCKETS_RE, s[from..]): (name, id text) pairs. */
  function FindRoots(s: string, from: nat): (rs: seq<(string, string)>)
    requires from <= |s|
    ensures forall j :: 0 <= j < |rs| ==> OneLine(rs[j].0) && IsIntLiteral(rs[j].1)
    decreases |s| - from
  {
    if from == |s| then []
    else
      match RootMatchAt(s, from)
      case Some((name, t, e)) => [(name, t)] + FindRoots(s, e)
      case None => FindRoots(s, from + 1)
  }

  /** The findall scan of s begun at `from` tries a match at p: it steps over
      the positions where nothing matches and jumps over each match, and
      lands on p rather than inside a match that covers it. */
  predicate ScanReaches(s: string, from: nat, p: nat)
    requires from <= p <= |s|
    decreases p - from
  {
    from == p
    || match RootMatchAt(s, from)
       case Some((_, _, e)) => e <= p && ScanReaches(s, e, p)
       case None => ScanReaches(s, from + 1, p)
  }

  /** A match at a position the scan reaches is among those findall returns. */
  lemma {:induction false} FoundWhenReached(s: string, from: nat, p: nat)
    requires from <= p < |s| && ScanReaches(s, from, p) && RootMatchAt(s, p).Some?
    ensures (RootMatchAt(s, p).value.0, RootMatchAt(s, p).value.1) in FindRoots(s, from)
    decreases p - from
  {
    if from < p {
      match RootMatchAt(s, from)
      case Some((n, t, e)) =>
        if e < p {
          FoundWhenReached(s, e, p);
        }
        assert FindRoots(s, from) == [(n, t)] + FindRoots(s, e);
      case None =>
        FoundWhenReached(s, from + 1, p);
    }
  }

  /** The text "root" starts at i. */
  predicate RootAt(s: string, i: nat) {
    i + 4 <= |s| && s[i..i + 4] == "root"
  }

  /** With no "root" starting between `from` and p, the scan walks up to p. */
  lemma {:induction false} ScanReachesWithoutRoot(s: string, from: nat, p: nat)
    requires from <= p <= |s|
    requires forall i :: from <= i < p ==> !RootAt(s, i)
    ensures ScanReaches(s, from, p)
    decreases p - from
  {
    if from < p {
      assert !RootAt(s, from);
      assert RootMatchAt(s, from).None?;
      ScanReachesWithoutRoot(s, from + 1, p);
    }
  }

  /** Text without "root", followed by two line breaks, has no "root"
      starting before the end of those breaks. */
  lemma NoRootUpToBreaks(built: string, rest: string)
    requires |rest| >= 2 && rest[0] == '\n' && rest[1] == '\n'
    requires forall i :: 0 <= i < |built| ==> !RootAt(built, i)
    ensures forall i :: 0 <= i < |built| + 2 ==> !RootAt(built + rest, i)
  {
    var s := built + rest;
    forall i | 0 <= i < |built| + 2 ensures !RootAt(s, i) {
      if i + 4 <= |built| {
        assert s[i..i + 4] == built[i..i + 4];
        assert !RootAt(built, i);
      } else if i + 4 <= |s| {
        var k := if i <= |built| then |built| else |built| + 1;
        assert s[k] == '\n';
        assert s[i..i + 4][k - i] == '\n';
      }
    }
  }

  /** A name the pattern reads back whole: one line, not starting with white
      space (the \s+ before the group would take it). */
  predicate ReadableName(name: string) {
    OneLine(name) && !IsSpace(name[0])
  }

  /** The characters of a slice are those of the sequence it is cut from. */
  lemma SliceAt(s: string, k: nat, h: string)
    requires k + |h| <= |s| && s[k..k + |h|] == h
    ensures forall j :: 0 <= j < |h| ==> s[k + j] == h[j]
  {
    forall j | 0 <= j < |h| ensures s[k + j] == h[j] {
      assert s[k..k + |h|][j] == h[j];
    }
  }

  lemma LineEndAt(s: string, p: nat, e: nat)
    requires p <= e < |s| && s[e] == '\n' && forall j :: p <= j < e ==> s[j] != '\n'
    ensures LineEnd(s, p) == e
    decreases e - p
  {
    if p < e {
      LineEndAt(s, p + 1, e);
    }
  }

  /** str(id), followed by a space, is read by -?\d+ whole. */
  lemma IntAtOfString(s: string, c: nat, id: int)
    requires c + |IntToString(id)| < |s| && s[c..c + |IntToString(id)|] == IntToString(id)
    requires s[c + |IntToString(id)|] == ' '
    ensures IntAt(s, c) == Some(c + |IntToString(id)|)
  {
    var t := IntToString(id);
    var m := |t|;
    SliceAt(s, c, t);
    if id < 0 {
      var d := NatToString(-id);
      assert t == "-" + d;
      forall j | c + 1 <= j < c + m ensures IsDigit(s[j]) {
        assert s[j] == t[j - c] == d[j - c - 1];
      }
      DigitsEndAt(s, c + 1, c + m);
    } else {
      forall j | c <= j < c + m ensures IsDigit(s[j]) {
        assert s[j] == t[j - c];
      }
      DigitsEndAt(s, c, c + m);
    }
  }

  /** The `id` pattern at c reads the integer text t that follows "id" and
      one space. */
  lemma IdMatchOf(s: string, c: nat, t: string)
    requires c + 3 + |t| <= |s| && s[c..c + 2] == "id" && s[c + 2] == ' '
    requires SkipSpaces(s, c + 2) == c + 3
    requires s[c + 3..c + 3 + |t|] == t && IntAt(s, c + 3) == Some(c + 3 + |t|)
    ensures IdMatchAt(s, c) == Some((t, c + 3 + |t|))
  {
  }

  /** The tail, tried where white space runs to a brace, goes on with the
      `id` pattern after the brace's white space. */
  lemma TailThroughBrace(s: string, q: nat, a: nat)
    requires q < a < |s| && SkipSpaces(s, q) == a && s[a] == '{'
    ensures TailAt(s, q) == IdMatchAt(s, SkipSpaces(s, a + 1))
  {
  }

  /** The tail does not match where no white space run leads to a brace. */
  lemma TailMissesAt(s: string, q: nat, a: nat)
    requires q <= a < |s| && SkipSpaces(s, q) == a && (a == q || s[a] != '{')
    ensures TailAt(s, q).None?
  {
  }

  /** The characters of " {", a line break, four spaces and "id ". */
  lemma BraceIdChars(s: string, L: nat)
    requires L + 10 <= |s| && s[L..L + 10] == " {\n    id "
    ensures s[L] == ' ' && s[L + 1] == '{' && s[L + 2] == '\n'
            && s[L + 3] == ' ' && s[L + 4] == ' ' && s[L + 5] == ' ' && s[L + 6] == ' '
            && s[L + 7] == 'i' && s[L + 9] == ' ' && s[L + 7..L + 9] == "id"
  {
    var h := s[L..L + 10];
    assert h[0] == ' ' && h[1] == '{' && h[2] == '\n' && h[3] == ' ' && h[4] == ' '
        && h[5] == ' ' && h[6] == ' ' && h[7] == 'i' && h[8] == 'd' && h[9] == ' ';
    assert s[L + 7..L + 9] == h[7..9];
  }

  /** Right after a bucket's name the tail of the root pattern matches and
      reads the id text t; one or two characters further on (at the brace,
      or at the end of the line) it does not. */
  lemma TailAfterName(s: string, L: nat, t: string)
    requires |t| >= 1 && L + 10 + |t| <= |s|
    requires s[L..L + 10] == " {\n    id "
    requires s[L + 10..L + 10 + |t|] == t && IntAt(s, L + 10) == Some(L + 10 + |t|)
    ensures TailAt(s, L) == Some((t, L + 10 + |t|))
    ensures TailAt(s, L + 1).None? && TailAt(s, L + 2).None?
  {
    BraceIdChars(s, L);
    assert s[L + 10] == '-' || IsDigit(s[L + 10]) by {
      assert s[L + 10] == s[L + 10..L + 10 + |t|][0];
    }
    SkipSpacesAt(s, L, L + 1);
    SkipSpacesAt(s, L + 1, L + 1);
    SkipSpacesAt(s, L + 2, L + 7);
    SkipSpacesAt(s, L + 9, L + 10);
    IdMatchOf(s, L + 7, t);
    TailThroughBrace(s, L, L + 1);
    TailMissesAt(s, L + 1, L + 1);
    TailMissesAt(s, L + 2, L + 7);
  }

  lemma SuffixOfConcat(a: string, b: string)
    ensures (a + b)[|a|..] == b
  {
  }

  /** A piece at the front of a suffix of s sits in s at that position. */
  lemma Piece(s: string, i: nat, a: string, rest: string)
    requires i <= |s| && s[i..] == a + rest
    ensures i + |a| <= |s| && s[i..i + |a|] == a && s[i + |a|..] == rest
  {
    assert s[i..i + |a|] == s[i..][..|a|];
  }

  /** Where the pieces after "root " sit: the name, " {", a line break,
      "id ", the id text and the space after it. */
  lemma NameIdLayout(s: string, m: nat, name: string, t: string, post: string)
    requires |post| > 0 && post[0] == ' '
    requires m <= |s| && s[m..] == name + (" {\n    id " + (t + post))
    ensures var L := m + |name|;
            L + 10 + |t| < |s|
            && s[m..L] == name
            && s[L..L + 10] == " {\n    id "
            && s[L + 10..L + 10 + |t|] == t && s[L + 10 + |t|] == ' '
  {
    var L := m + |name|;
    Piece(s, m, name, " {\n    id " + (t + post));
    Piece(s, L, " {\n    id ", t + post);
    Piece(s, L + 10, t, post);
    assert s[L + 10 + |t|] == s[L + 10 + |t|..][0];
  }

  /** Where the pieces of a bucket's head sit. */
  lemma HeadLayout(s: string, pre: string, name: string, t: string, post: string)
    requires |post| > 0 && post[0] == ' '
    requires s == pre + ("root " + (name + (" {\n    id " + (t + post))))
    ensures var k := |pre|;
            var L := k + 5 + |name|;
            L + 10 + |t| < |s|
            && s[k..k + 4] == "root" && s[k + 4] == ' '
            && s[k + 5..L] == name
            && s[L..L + 10] == " {\n    id "
            && s[L + 10..L + 10 + |t|] == t && s[L + 10 + |t|] == ' '
  {
    var k := |pre|;
    var R1 := name + (" {\n    id " + (t + post));
    assert s[k..k + 4] == "root" && s[k + 4] == ' ' && s[k + 5..] == R1 by {
      SuffixOfConcat(pre, "root " + R1);
      Piece(s, k, "root ", R1);
      assert s[k..k + 4] == s[k..k + 5][..4];
      assert s[k + 4] == s[k..k + 5][4];
    }
    NameIdLayout(s, k + 5, name, t, post);
  }

  /** The greedy name group, started before q, gives back the line's last
      two characters and stops at q when the tail matches there and not after. */
  lemma NameEndAt(s: string, p: nat, q: nat)
    requires p < q && q + 2 <= |s|
    requires TailAt(s, q).Some? && TailAt(s, q + 1).None? && TailAt(s, q + 2).None?
    ensures NameEnd(s, p, q + 2) == Some(q)
  {
    assert NameEnd(s, p, q + 1) == Some(q);
  }

  /** With no white space to give back, the name group starts right after
      the single space following "root". */
  lemma NameStartAt(s: string, k: nat, q: nat)
    requires k + 5 < q + 2 <= |s| && LineEnd(s, k + 5) == q + 2 && NameEnd(s, k + 5, q + 2) == Some(q)
    ensures NameStart(s, k, k + 5) == Some((k + 5, q))
  {
  }

  /** The root pattern at k, once the name group is settled, reads the name
      and the tail's id text. */
  lemma RootMatchVia(s: string, k: nat, q: nat)
    requires k + 5 < q <= |s| && s[k..k + 4] == "root" && SkipSpaces(s, k + 4) == k + 5
    requires NameStart(s, k, k + 5) == Some((k + 5, q))
    ensures TailAt(s, q).Some?
    ensures RootMatchAt(s, k) == Some((s[k + 5..q], TailAt(s, q).value.0, TailAt(s, q).value.1))
  {
  }

  /** The root pattern, tried where "root " and a readable name are followed
      by " {", a line break, "id " and an integer, reads that name and that
      integer's text. */
  lemma RootMatchOfHead(s: string, k: nat, name: string, t: string)
    requires ReadableName(name) && |t| >= 1
    requires var L := k + 5 + |name|;
             L + 10 + |t| <= |s|
             && s[k..k + 4] == "root" && s[k + 4] == ' '
             && s[k + 5..L] == name
             && s[L..L + 10] == " {\n    id "
             && s[L + 10..L + 10 + |t|] == t && IntAt(s, L + 10) == Some(L + 10 + |t|)
    ensures var r := RootMatchAt(s, k);
            r.Some? && r.value.0 == name && r.value.1 == t
  {
    var L := k + 5 + |name|;
    RootSpace(s, k, name);
    NameLineEnd(s, k + 5, name);
    NameThenTail(s, k + 5, L, t);
    RootMatchFinish(s, k, L, t, L + 10 + |t|);
  }

  /** A single space separates "root" from a name that does not start with
      white space. */
  lemma RootSpace(s: string, k: nat, name: string)
    requires ReadableName(name) && k + 5 + |name| <= |s|
    requires s[k + 4] == ' ' && s[k + 5..k + 5 + |name|] == name
    ensures SkipSpaces(s, k + 4) == k + 5
  {
    assert s[k + 5] == s[k + 5..k + 5 + |name|][0] == name[0];
    SkipSpacesAt(s, k + 4, k + 5);
  }

  /** The greedy name group started at m stops right after the name, where
      the tail reads the id text. */
  lemma NameThenTail(s: string, m: nat, L: nat, t: string)
    requires m < L && |t| >= 1 && L + 10 + |t| <= |s|
    requires s[L..L + 10] == " {\n    id "
    requires s[L + 10..L + 10 + |t|] == t && IntAt(s, L + 10) == Some(L + 10 + |t|)
    ensures NameEnd(s, m, L + 2) == Some(L) && TailAt(s, L) == Some((t, L + 10 + |t|))
  {
    TailAfterName(s, L, t);
    NameEndAt(s, m, L);
  }

  /** The root pattern at k, with the white space after "root" settled, the
      name's line ending two characters after it and the tail matching right
      after the name, reads the name and the tail's id text. */
  lemma RootMatchFinish(s: string, k: nat, L: nat, t: string, e: nat)
    requires k + 5 < L && L + 2 <= |s| && s[k..k + 4] == "root" && SkipSpaces(s, k + 4) == k + 5
    requires LineEnd(s, k + 5) == L + 2 && NameEnd(s, k + 5, L + 2) == Some(L)
    requires TailAt(s, L) == Some((t, e))
    ensures RootMatchAt(s, k) == Some((s[k + 5..L], t, e))
  {
    NameStartAt(s, k, L);
    RootMatchVia(s, k, L);
  }

  /** A one-line name followed by " {" and a line break ends its line two
      characters after the name. */
  lemma NameLineEnd(s: string, m: nat, name: string)
    requires OneLine(name) && m + |name| + 10 <= |s|
    requires s[m..m + |name|] == name && s[m + |name|..m + |name| + 10] == " {\n    id "
    ensures LineEnd(s, m) == m + |name| + 2
  {
    var L := m + |name|;
    SliceAt(s, m, name);
    BraceIdChars(s, L);
    LineEndAt(s, m, L + 2);
  }

}
