/** The in-memory CRUSH map of charms_ceph/crush_utils.py: the decompiled
    text of the cluster's map, the root buckets found in it, every bucket id
    it uses, and the buckets added on top of it, which are written back as
    `root` and `rule` blocks appended to the text. */
module Crush {
  import opened Wrappers
  import opened Text
  import opened Sorting
  import PoolQueries
  import opened CrushScan

  // ------------------------------------------------------------ CRUSHBucket

  /** CRUSHBucket: equality compares all three fields, and the id is always
      held as an integer. */
  datatype Bucket = Bucket(name: string, id: int, isDefault: bool)

  /** CRUSHBucket(name, id_text, default) for an id read out of the map. */
  function BucketOfText(name: string, idText: string, isDefault: bool): (b: Bucket)
    requires IsIntLiteral(idText)
    ensures b.name == name && b.isDefault == isDefault
  {
    Bucket(name, ParseInt(idText), isDefault)
  }

  /** Two spellings of the same number give equal buckets, since the id is
      converted with int(); buckets that differ only in `default` are not
      equal. */
  lemma BucketIdIsInteger()
    ensures BucketOfText("ssd", "-01", false) == Bucket("ssd", -1, false)
    ensures BucketOfText("ssd", "-1", true) != Bucket("ssd", -1, false)
  {
    var t := "-01";
    assert t[0] == '-' && !IsDigit(t[0]) && t[1..] == "01";
    assert "01"[..1] == "0" && "01"[1] == '1';
    assert ParseNat("01") == ParseNat("0") * 10 + DigitValue('1') == 1;
    assert ParseInt(t) == -1;
  }

  // ------------------------------------------------------------ bucket_string

  /** The `root` block after its id. */
  const RootRest := "    " + "# do not change unnecessarily\n" + "    # weight 0.000\n" + "    alg straw2\n"
                    + "    hash 0  # rjenkins1\n" + "}"
  /** The `rule` block from its opening brace to `step take`. */
  const RuleBody := "\n    ruleset 0\n" + "    type replicated\n" + "    min_size 1\n" + "    max_size 10\n" + "    "
  /** The `rule` block after the `step take` line. */
  const RuleEnd := "    step chooseleaf firstn 0 type host\n" + "    step emit\n" + "}"

  /** The `root` block up to its id. */
  function BucketHead(name: string, id: int): string {
    "root " + name + " {\n    id " + IntToString(id)
  }

  /** The `rule` block: the rule takes its name from the bucket and starts
      from it. */
  function RuleBlock(name: string): string {
    "rule " + name + " {" + RuleBody + "step take " + name + "\n" + RuleEnd
  }

  /** bucket_string: CRUSH_BUCKET with the name and str(id) filled in: the
      `root` block, a blank line, the `rule` block. */
  function BucketString(name: string, id: int): string {
    (BucketHead(name, id) + RootRest) + ("\n\n" + RuleBlock(name))
  }

  lemma PrefixOfConcat(a: string, b: string)
    ensures (a + b)[..|a|] == a
    ensures |b| > 0 ==> (a + b)[|a|] == b[0]
  {
  }

  /** The same name heads the `root` block, names the `rule` block and is the
      bucket the rule's `step take` starts from. */
  lemma {:induction false} BucketNamesAgree(name: string, id: int)
    ensures BucketString(name, id)[..5 + |name|] == "root " + name
    ensures exists v, w :: RuleBlock(name) == "rule " + name + " {" + v + "step take " + name + "\n" + w
    ensures exists u :: BucketString(name, id) == u + RuleBlock(name)
  {
    var h := BucketHead(name, id);
    var b := BucketString(name, id);
    PrefixOfConcat(h + RootRest, "\n\n" + RuleBlock(name));
    PrefixOfConcat(h, RootRest);
    PrefixOfConcat("root " + name + " {\n    id ", IntToString(id));
    PrefixOfConcat("root " + name, " {\n    id ");
    assert b[..|h|] == h by { assert b[..|h|] == b[..|h + RootRest|][..|h|]; }
    assert b[..5 + |name|] == h[..5 + |name|];
    assert h[..5 + |name|] == ("root " + name + " {\n    id ")[..5 + |name|];
    ConcatAssoc(h + RootRest, "\n\n", RuleBlock(name));
  }

  /** A bucket's head, followed by a space, is read back by the root pattern
      as the same name and the same id, whatever precedes and follows it. */
  lemma HeadParsesBack(s: string, pre: string, name: string, id: int, post: string)
    requires ReadableName(name) && |post| > 0 && post[0] == ' '
    requires s == pre + ("root " + (name + (" {\n    id " + (IntToString(id) + post))))
    ensures var r := RootMatchAt(s, |pre|);
            r.Some? && r.value.0 == name && r.value.1 == IntToString(id) && ParseInt(r.value.1) == id
  {
    var t := IntToString(id);
    var L := |pre| + 5 + |name|;
    HeadLayout(s, pre, name, t, post);
    IntAtOfString(s, L + 10, id);
    RootMatchOfHead(s, |pre|, name, t);
    IntToStringRoundTrip(id);
  }

  /** A `root` block written by bucket_string is read back as the same name
      and the same id when the root pattern is tried at the block's first
      character, whatever precedes and follows it in the map. Whether a scan
      from the start of the map tries that position is AddedBucketFound's
      concern. */
  lemma BucketBlockParsesBack(pre: string, name: string, id: int, post: string)
    requires ReadableName(name)
    ensures var r := RootMatchAt(pre + BucketString(name, id) + post, |pre|);
            r.Some? && r.value.0 == name && r.value.1 == IntToString(id) && ParseInt(r.value.1) == id
  {
    var t := IntToString(id);
    var lit := " {\n    id ";
    var X := "\n\n" + RuleBlock(name);
    var after := RootRest + X + post;
    var s := pre + BucketString(name, id) + post;
    // regroup the block so that its head stands first
    ConcatAssoc(BucketHead(name, id), RootRest, X);
    ConcatAssoc("root " + name + lit, t, RootRest + X);
    ConcatAssoc("root " + name, lit, t + (RootRest + X));
    ConcatAssoc("root ", name, lit + (t + (RootRest + X)));
    var B := "root " + (name + (lit + (t + (RootRest + X))));
    assert BucketString(name, id) == B;
    ConcatAssoc(pre, B, post);
    ConcatAssoc(RootRest, X, post);
    ConcatAssoc(t, RootRest + X, post);
    ConcatAssoc(lit, t + (RootRest + X), post);
    ConcatAssoc(name, lit + (t + (RootRest + X)), post);
    ConcatAssoc("root ", name + (lit + (t + (RootRest + X))), post);
    assert s == pre + ("root " + (name + (lit + (t + after))));
    assert RootRest[0] == ' ';
    HeadParsesBack(s, pre, name, id, after);
  }

  // ------------------------------------------------------------ the map as a whole

  /** The text build_crushmap appends for one bucket: nothing for a bucket
      found in the map, a blank line and its block for an added one. */
  function Block(b: Bucket): string {
    if b.isDefault then "" else "\n\n" + BucketString(b.name, b.id)
  }

  /** The blocks of `bs`, in list order. */
  function Blocks(bs: seq<Bucket>): string {
    if bs == [] then "" else Blocks(bs[..|bs| - 1]) + Block(bs[|bs| - 1])
  }

  lemma BlocksSnoc(bs: seq<Bucket>, j: nat)
    requires j < |bs|
    ensures Blocks(bs[..j + 1]) == Blocks(bs[..j]) + Block(bs[j])
  {
    assert bs[..j + 1][..j] == bs[..j];
  }

  /** The buckets of `bs` that were added, in order. */
  function AddedOnly(bs: seq<Bucket>): (r: seq<Bucket>)
    ensures |r| <= |bs|
  {
    if bs == [] then []
    else AddedOnly(bs[..|bs| - 1]) + (if bs[|bs| - 1].isDefault then [] else [bs[|bs| - 1]])
  }

  /** Buckets found in the map add nothing: the text is that of the added
      buckets alone. */
  lemma {:induction false} DefaultsAddNothing(bs: seq<Bucket>)
    ensures Blocks(bs) == Blocks(AddedOnly(bs))
  {
    if bs != [] {
      var init := bs[..|bs| - 1];
      var last := bs[|bs| - 1];
      var added := AddedOnly(init);
      DefaultsAddNothing(init);
      if last.isDefault {
        assert AddedOnly(bs) == added + [] == added;
        assert Blocks(bs) == Blocks(init) + "" == Blocks(init);
      } else {
        assert AddedOnly(bs) == added + [last];
        assert (added + [last])[..|added|] == added;
        assert Blocks(added + [last]) == Blocks(added) + Block(last);
      }
    }
  }

  /** When every bucket was found in the map, the map is written back as loaded. */
  lemma {:induction false} OnlyDefaultsWriteBackUnchanged(bs: seq<Bucket>)
    requires forall b :: b in bs ==> b.isDefault
    ensures Blocks(bs) == ""
  {
    if bs != [] {
      var init := bs[..|bs| - 1];
      assert forall b :: b in init ==> b in bs;
      OnlyDefaultsWriteBackUnchanged(init);
      assert bs[|bs| - 1] in bs;
    }
  }

  /** Whatever was built before it, the block of an added bucket is read
      back by the root pattern, right after its blank line, with the
      bucket's name and id. */
  lemma AddedBlockParsesBack(built: string, b: Bucket)
    requires !b.isDefault && ReadableName(b.name)
    ensures var s := built + Block(b);
            |built| + 2 < |s| && var r := RootMatchAt(s, |built| + 2);
            r.Some? && r.value.0 == b.name && r.value.1 == IntToString(b.id) && ParseInt(r.value.1) == b.id
  {
    var pre := built + "\n\n";
    var block := BucketString(b.name, b.id);
    assert built + Block(b) == pre + block + "" by {
      ConcatAssoc(built, "\n\n", block);
    }
    BucketBlockParsesBack(pre, b.name, b.id, "");
  }

  /** A map saved with an added bucket and loaded again finds the bucket
      among its roots (re.findall) whenever the scan of the text before the
      block lands on the block: findall would otherwise be inside a match
      that began earlier, which happens only when that text ends in "root"
      and white space. */
  lemma AddedBucketFound(built: string, b: Bucket)
    requires !b.isDefault && ReadableName(b.name)
    requires |built| + 2 <= |built + Block(b)| && ScanReaches(built + Block(b), 0, |built| + 2)
    ensures (b.name, IntToString(b.id)) in FindRoots(built + Block(b), 0)
  {
    AddedBlockParsesBack(built, b);
    FoundWhenReached(built + Block(b), 0, |built| + 2);
  }

  lemma BlockStartsWithBreaks(b: Bucket)
    requires !b.isDefault
    ensures |Block(b)| >= 2 && Block(b)[0] == '\n' && Block(b)[1] == '\n'
  {
  }

  /** In a map without "root", the scan lands on an added block. */
  lemma RootlessScanReachesBlock(built: string, b: Bucket)
    requires !b.isDefault
    requires forall i :: 0 <= i < |built| ==> !RootAt(built, i)
    ensures |built| + 2 <= |built + Block(b)| && ScanReaches(built + Block(b), 0, |built| + 2)
  {
    BlockStartsWithBreaks(b);
    NoRootUpToBreaks(built, Block(b));
    ScanReachesWithoutRoot(built + Block(b), 0, |built| + 2);
  }

  /** A map in which "root" does not occur, saved with an added bucket and
      loaded again, finds the bucket among its roots. */
  lemma {:induction false} AddedToRootlessMapFound(built: string, b: Bucket)
    requires !b.isDefault && ReadableName(b.name)
    requires forall i :: 0 <= i < |built| ==> !RootAt(built, i)
    ensures (b.name, IntToString(b.id)) in FindRoots(built + Block(b), 0)
  {
    RootlessScanReachesBlock(built, b);
    AddedBucketFound(built, b);
  }

  /** The least element of a non-empty list (min). */
  function MinOf(xs: seq<int>): (m: int)
    requires |xs| > 0
    ensures m in xs && forall x :: x in xs ==> m <= x
  {
    if |xs| == 1 then xs[0]
    else
      var r := MinOf(xs[1..]);
      assert forall x :: x in xs ==> x == xs[0] || x in xs[1..];
      if xs[0] <= r then xs[0] else r
  }

  function Names(bs: seq<Bucket>): (r: seq<string>)
    ensures |r| == |bs| && forall j :: 0 <= j < |bs| ==> r[j] == bs[j].name
  {
    seq(|bs|, j requires 0 <= j < |bs| => bs[j].name)
  }

  /** The buckets __init__ makes of the roots it found: all marked default. */
  function RootBuckets(roots: seq<(string, string)>): (bs: seq<Bucket>)
    requires forall j :: 0 <= j < |roots| ==> IsIntLiteral(roots[j].1)
    ensures |bs| == |roots|
  {
    seq(|roots|, j requires 0 <= j < |roots| => BucketOfText(roots[j].0, roots[j].1, true))
  }

  function ParsedIds(ts: seq<string>): (xs: seq<int>)
    requires forall j :: 0 <= j < |ts| ==> IsIntLiteral(ts[j])
    ensures |xs| == |ts|
  {
    seq(|ts|, j requires 0 <= j < |ts| => ParseInt(ts[j]))
  }

  /** The id list __init__ keeps: every id in the map, sorted, or [0]. */
  function InitialIds(loaded: string): seq<int> {
    var xs := ParsedIds(FindIds(loaded, 0));
    if xs == [] then [0] else SortInts(xs)
  }

  /** The id list after construction is never empty and ascending; it holds
      exactly the ids of the map when there are any. */
  lemma InitialIdsSorted(loaded: string)
    ensures |InitialIds(loaded)| > 0 && SortedInts(InitialIds(loaded))
    ensures FindIds(loaded, 0) == [] ==> InitialIds(loaded) == [0]
    ensures FindIds(loaded, 0) != [] ==> multiset(InitialIds(loaded)) == multiset(ParsedIds(FindIds(loaded, 0)))
  {
    SortIntsSorted(ParsedIds(FindIds(loaded, 0)));
  }

  // ------------------------------------------------------------ talking to the cluster

  /** The exceptions load_crushmap and save let escape. */
  datatype CrushError = CalledProcessError(code: int) | AttributeError(attribute: string)

  /** What a subprocess is given on standard input: a file object, or (as the
      code does) a plain string, which subprocess asks for .fileno(). */
  datatype Stdin = FileObject(content: string) | PlainString(content: string)

  /** check_output(cmd, stdin=...) for a command whose outcome on an input is `run`. */
  function CheckOutput(stdin: Stdin, run: string -> PoolQueries.CommandResult): (r: Result<string, CrushError>)
    ensures stdin.PlainString? ==> r == Err(AttributeError("fileno"))
    ensures stdin.FileObject? ==> (r.Ok? <==> run(stdin.content).Output?)
  {
    match stdin
    case PlainString(_) => Err(AttributeError("fileno"))
    case FileObject(content) =>
      match run(content)
      case Output(text) => Ok(text)
      case Failed(code, _) => Err(CalledProcessError(code))
  }

  /** load_crushmap as written: the fetched map is a str, and its `.stdout`
      is read to feed crushtool. */
  function LoadCrushmapAsWritten(fetched: PoolQueries.CommandResult, decompile: string -> PoolQueries.CommandResult)
    : (r: Result<string, CrushError>)
    ensures fetched.Failed? ==> r == Err(CalledProcessError(fetched.code))
  {
    match fetched
    case Failed(code, _) => Err(CalledProcessError(code))
    case Output(_) => Err(AttributeError("stdout"))
  }

  /** load_crushmap as written never returns a map: a successful
      `ceph osd getcrushmap` ends in AttributeError. */
  lemma LoadAsWrittenNeverLoads(fetched: PoolQueries.CommandResult, decompile: string -> PoolQueries.CommandResult)
    ensures LoadCrushmapAsWritten(fetched, decompile).Err?
    ensures fetched.Output? ==> LoadCrushmapAsWritten(fetched, decompile) == Err(AttributeError("stdout"))
  {
  }

  /** load_crushmap with the fetched map piped into `crushtool -d -`. */
  function LoadCrushmap(fetched: PoolQueries.CommandResult, decompile: string -> PoolQueries.CommandResult)
    : (r: Result<string, CrushError>)
    ensures r.Ok? <==> fetched.Output? && decompile(fetched.text).Output?
    ensures r.Ok? ==> r.value == decompile(fetched.text).text
    ensures fetched.Failed? ==> r == Err(CalledProcessError(fetched.code))
  {
    match fetched
    case Failed(code, _) => Err(CalledProcessError(code))
    case Output(raw) => CheckOutput(FileObject(raw), decompile)
  }

  /** save as written: the built map, a str, is passed as stdin. */
  function SaveMapAsWritten(built: string, compile: string -> PoolQueries.CommandResult,
                            install: string -> PoolQueries.CommandResult): (r: Result<string, CrushError>)
  {
    match CheckOutput(PlainString(built), compile)
    case Err(e) => Err(e)
    case Ok(compiled) => CheckOutput(PlainString(compiled), install)
  }

  /** save as written never installs a map, whatever crushtool and ceph would do. */
  lemma SaveAsWrittenNeverSaves(built: string, compile: string -> PoolQueries.CommandResult,
                                install: string -> PoolQueries.CommandResult)
    ensures SaveMapAsWritten(built, compile, install) == Err(AttributeError("fileno"))
  {
  }

  /** save with the text fed to `crushtool -c` and the compiled map fed to
      `ceph osd setcrushmap`: the output of the latter, or the first failure. */
  function SaveMap(built: string, compile: string -> PoolQueries.CommandResult,
                   install: string -> PoolQueries.CommandResult): (r: Result<string, CrushError>)
    ensures r.Ok? <==> compile(built).Output? && install(compile(built).text).Output?
    ensures r.Ok? ==> r.value == install(compile(built).text).text
    ensures compile(built).Failed? ==> r == Err(CalledProcessError(compile(built).code))
  {
    match CheckOutput(FileObject(built), compile)
    case Err(e) => Err(e)
    case Ok(compiled) => CheckOutput(FileObject(compiled), install)
  }

  // ------------------------------------------------------------ Crushmap

  /** Added buckets never share an id. */
  predicate AddedIdsDistinct(bs: seq<Bucket>) {
    forall i, j :: 0 <= i < j < |bs| && !bs[i].isDefault && !bs[j].isDefault ==> bs[i].id != bs[j].id
  }

  class Crushmap {
    /** _crushmap: the decompiled map the object was made from. */
    const text: string
    /** _buckets */
    var buckets: seq<Bucket>
    /** _ids */
    var ids: seq<int>
    /** The texts installed in the cluster by successful saves, oldest first. */
    var saved: seq<string>

    predicate Valid()
      reads this
    {
      |ids| > 0
      && (forall j :: 0 <= j < |buckets| && !buckets[j].isDefault ==> buckets[j].id in ids)
      && AddedIdsDistinct(buckets)
    }

    /** __init__, given the text load_crushmap returned: one default bucket
        per root the pattern finds, in order, and the sorted ids. */
    constructor(loaded: string)
      ensures text == loaded && saved == []
      ensures buckets == RootBuckets(FindRoots(loaded, 0))
      ensures ids == InitialIds(loaded)
      ensures forall b :: b in buckets ==> b.isDefault
      ensures Valid()
    {
      text := loaded;
      var roots := FindRoots(loaded, 0);
      var found: seq<Bucket> := [];
      for j := 0 to |roots|
        invariant |found| == j
        invariant forall t :: 0 <= t < j ==> found[t] == BucketOfText(roots[t].0, roots[t].1, true)
      {
        found := found + [BucketOfText(roots[j].0, roots[j].1, true)];
      }
      var all := SortInts(ParsedIds(FindIds(loaded, 0)));
      buckets := found;
      if all != [] {
        ids := all;
      } else {
        ids := [0];
      }
      saved := [];
    }

    /** add_bucket: the new bucket's id is one below the least id in use. */
    method AddBucket(name: string)
      requires Valid()
      modifies this
      ensures Valid()
      ensures ids == old(ids) + [MinOf(old(ids)) - 1]
      ensures buckets == old(buckets) + [Bucket(name, MinOf(old(ids)) - 1, false)]
      ensures forall x :: x in old(ids) ==> MinOf(old(ids)) - 1 < x
      ensures saved == old(saved)
    {
      var newId := MinOf(ids) - 1;
      assert forall b :: b in buckets && !b.isDefault ==> newId < b.id;
      ids := ids + [newId];
      buckets := buckets + [Bucket(name, newId, false)];
    }

    /** build_crushmap: the loaded text followed by the block of every added
        bucket, in list order. */
    method BuildCrushmap() returns (r: string)
      ensures r == text + Blocks(buckets)
    {
      var bs := buckets;
      r := text;
      assert Blocks(bs[..0]) == "";
      for j := 0 to |bs|
        invariant r == text + Blocks(bs[..j])
      {
        var b := bs[j];
        BlocksSnoc(bs, j);
        ConcatAssoc(text, Blocks(bs[..j]), Block(b));
        if !b.isDefault {
          r := r + ("\n\n" + BucketString(b.name, b.id));
        } else {
          assert r + Block(b) == r;
        }
      }
      assert bs[..|bs|] == bs;
    }

    /** save: the built map is compiled and installed; it is remembered
        as installed only when both commands succeed. */
    method Save(compile: string -> PoolQueries.CommandResult, install: string -> PoolQueries.CommandResult)
      returns (r: Result<string, CrushError>)
      modifies this
      ensures r == SaveMap(text + Blocks(buckets), compile, install)
      ensures saved == old(saved) + (if r.Ok? then [text + Blocks(buckets)] else [])
      ensures buckets == old(buckets) && ids == old(ids)
    {
      var built := BuildCrushmap();
      r := SaveMap(built, compile, install);
      if r.Ok? {
        saved := saved + [built];
      }
    }

    /** ensure_bucket_is_present: a bucket of that name is added and the map
        saved only when no bucket has the name yet. */
    method EnsureBucketIsPresent(name: string, compile: string -> PoolQueries.CommandResult,
                                 install: string -> PoolQueries.CommandResult)
      returns (raised: Option<CrushError>)
      requires Valid()
      modifies this
      ensures Valid()
      ensures name in Names(buckets)
      ensures name in Names(old(buckets)) ==>
        raised == None && buckets == old(buckets) && ids == old(ids) && saved == old(saved)
      ensures name !in Names(old(buckets)) ==>
        buckets == old(buckets) + [Bucket(name, MinOf(old(ids)) - 1, false)]
        && ids == old(ids) + [MinOf(old(ids)) - 1]
        && var out := SaveMap(text + Blocks(buckets), compile, install);
           raised == (if out.Ok? then None else Some(out.error))
           && saved == old(saved) + (if out.Ok? then [text + Blocks(buckets)] else [])
    {
      raised := None;
      if name !in Names(buckets) {
        AddBucket(name);
        var r := Save(compile, install);
        if r.Err? {
          raised := Some(r.error);
        }
      }
      assert Names(buckets)[|buckets| - 1] == buckets[|buckets| - 1].name;
    }
  }

  /** A second ensure_bucket_is_present with the same name changes nothing:
      two calls leave the map as one call does. */
  method EnsureTwice(c: Crushmap, name: string, compile: string -> PoolQueries.CommandResult,
                     install: string -> PoolQueries.CommandResult)
    returns (second: Option<CrushError>)
    requires c.Valid()
    modifies c
    ensures c.Valid() && second == None
    ensures c.buckets == old(c.buckets) + (if name in Names(old(c.buckets)) then [] else [Bucket(name, MinOf(old(c.ids)) - 1, false)])
    ensures |c.saved| <= |old(c.saved)| + 1
  {
    var first := c.EnsureBucketIsPresent(name, compile, install);
    ghost var once := c.buckets;
    second := c.EnsureBucketIsPresent(name, compile, install);
    assert c.buckets == once;
  }

  /** On a map with no ids at all, the first added bucket gets id -1. */
  method FirstBucketOnEmptyMap(name: string) returns (bs: seq<Bucket>, ids: seq<int>)
    ensures bs == [Bucket(name, -1, false)]
    ensures ids == [0, -1]
  {
    var c := new Crushmap("");
    assert FindRoots("", 0) == [] && FindIds("", 0) == [];
    c.AddBucket(name);
    bs, ids := c.buckets, c.ids;
  }
}
