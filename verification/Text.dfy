/**
 String shapes the system builds its identities from: decimal numbers, zero-padded
 entry ids, attempt ids, path basenames and filesystem paths.
 */
module Text {

  // ---------------------------------------------------------------- decimals

  predicate IsDigit(c: char) { '0' <= c <= '9' }

  predicate AllDigits(s: string) { forall i | 0 <= i < |s| :: IsDigit(s[i]) }

  function DigitChar(d: nat): (c: char)
    requires d < 10
    ensures IsDigit(c)
  {
    ('0' as int + d) as char
  }

  /** A number in decimal digits. */
  function Decimal(n: nat): (s: string)
    ensures s != "" && AllDigits(s)
  {
    if n < 10 then [DigitChar(n)] else Decimal(n / 10) + [DigitChar(n % 10)]
  }

  /** The number a digit string denotes; leading zeros are allowed. */
  function Value(s: string): nat
    requires AllDigits(s)
  {
    if s == "" then 0 else Value(s[..|s| - 1]) * 10 + (s[|s| - 1] as int - '0' as int)
  }

  lemma {:induction false} DecimalValue(n: nat)
    ensures Value(Decimal(n)) == n
  {
    if n >= 10 {
      DecimalValue(n / 10);
      var s := Decimal(n);
      assert s[..|s| - 1] == Decimal(n / 10);
    }
  }

  /** Zeros on the left up to a width; nothing is ever cut off. */
  function ZeroPadded(s: string, width: nat): (r: string)
    requires AllDigits(s)
    ensures AllDigits(r) && |r| >= width && |r| >= |s|
    decreases if |s| < width then width - |s| else 0
  {
    if |s| >= width then s else ZeroPadded("0" + s, width)
  }

  lemma {:induction false} LeadingZero(s: string)
    requires AllDigits(s)
    ensures AllDigits("0" + s) && Value("0" + s) == Value(s)
  {
    if s != "" {
      LeadingZero(s[..|s| - 1]);
      assert ("0" + s)[..|s|] == "0" + s[..|s| - 1];
    } else {
      assert "0" + s == "0";
      assert Value("0") == Value("") * 10 + 0;
    }
  }

  lemma {:induction false} PaddingKeepsValue(s: string, width: nat)
    requires AllDigits(s)
    ensures Value(ZeroPadded(s, width)) == Value(s)
    decreases if |s| < width then width - |s| else 0
  {
    if |s| < width {
      LeadingZero(s);
      PaddingKeepsValue("0" + s, width);
    }
  }

  /** The ledger writer's entry ids: "E" and at least four digits. */
  function EntryId(n: nat): (id: string)
    ensures id != ""
  {
    "E" + ZeroPadded(Decimal(n), 4)
  }

  /** The recorder's invocation ids: "LLM" and at least four digits. */
  function InvocationId(n: nat): string {
    "LLM" + ZeroPadded(Decimal(n), 4)
  }

  lemma PaddedInjective(m: nat, n: nat, width: nat)
    requires ZeroPadded(Decimal(m), width) == ZeroPadded(Decimal(n), width)
    ensures m == n
  {
    PaddingKeepsValue(Decimal(m), width);
    PaddingKeepsValue(Decimal(n), width);
    DecimalValue(m);
    DecimalValue(n);
  }

  /** Ids stay distinct for every counter value, also past 9999. */
  lemma EntryIdInjective(m: nat, n: nat)
    requires EntryId(m) == EntryId(n)
    ensures m == n
  {
    assert EntryId(m)[1..] == ZeroPadded(Decimal(m), 4);
    assert EntryId(n)[1..] == ZeroPadded(Decimal(n), 4);
    PaddedInjective(m, n, 4);
  }

  lemma InvocationIdInjective(m: nat, n: nat)
    requires InvocationId(m) == InvocationId(n)
    ensures m == n
  {
    assert InvocationId(m)[3..] == ZeroPadded(Decimal(m), 4);
    assert InvocationId(n)[3..] == ZeroPadded(Decimal(n), 4);
    PaddedInjective(m, n, 4);
  }

  // -------------------------------------------------------------- attempt ids

  /** The id of an attempt: its run's, and its number. */
  function AttemptId(runId: string, number: nat): (id: string)
    ensures id != ""
  {
    runId + "-a" + Decimal(number)
  }

  lemma ShorterSuffixClash(r1: string, d1: string, r2: string, d2: string)
    requires AllDigits(d1) && AllDigits(d2) && |d1| < |d2|
    ensures r1 + "-a" + d1 != r2 + "-a" + d2
  {
    var s1, s2 := r1 + "-a" + d1, r2 + "-a" + d2;
    if |s1| == |s2| {
      var k := |s1| - |d1| - 1;
      assert s1[k] == 'a';
      assert s2[k] == d2[|d2| - |d1| - 1];
      assert IsDigit(s2[k]);
    }
  }

  /** An attempt id determines its run and its number, whatever the run id looks like,
      including run ids that themselves end in "-a" and digits. */
  lemma AttemptIdInjective(r1: string, n1: nat, r2: string, n2: nat)
    requires AttemptId(r1, n1) == AttemptId(r2, n2)
    ensures r1 == r2 && n1 == n2
  {
    var d1, d2 := Decimal(n1), Decimal(n2);
    var s := AttemptId(r1, n1);
    if |d1| < |d2| {
      ShorterSuffixClash(r1, d1, r2, d2);
    } else if |d2| < |d1| {
      ShorterSuffixClash(r2, d2, r1, d1);
    }
    assert s[|s| - |d1|..] == d1 && s[|s| - |d2|..] == d2;
    assert s[..|s| - |d1| - 2] == r1 && s[..|s| - |d2| - 2] == r2;
    DecimalValue(n1);
    DecimalValue(n2);
  }

  // ---------------------------------------------------------------- basenames

  predicate Slashless(s: string) { '/' !in s }

  /** No separator of either style. */
  predicate Plain(s: string) { '/' !in s && '\\' !in s }

  /** Every separator as a forward slash. */
  function ForwardSlashes(p: string): (r: string)
    ensures |r| == |p|
    ensures forall i | 0 <= i < |p| :: r[i] == if p[i] == '\\' then '/' else p[i]
  {
    seq(|p|, i requires 0 <= i < |p| => if p[i] == '\\' then '/' else p[i])
  }

  /** What follows the last forward slash. */
  function LastSegment(p: string): (r: string)
    ensures |r| <= |p| && Slashless(r)
  {
    if p == "" || p[|p| - 1] == '/' then ""
    else LastSegment(p[..|p| - 1]) + [p[|p| - 1]]
  }

  /** It is the end of the text, after a slash if anything precedes it. */
  lemma {:induction false} SegmentEnds(p: string)
    ensures var n := |p| - |LastSegment(p)|; LastSegment(p) == p[n..] && (n > 0 ==> p[n - 1] == '/')
    decreases |p|
  {
    if p != "" && p[|p| - 1] != '/' {
      var init := p[..|p| - 1];
      SegmentEnds(init);
      assert init[|init| - |LastSegment(init)|..] + [p[|p| - 1]] == p[|p| - |LastSegment(p)|..];
    }
  }

  function Basename(path: string): string {
    LastSegment(ForwardSlashes(path))
  }

  lemma {:induction false} LastSegmentUnique(dir: string, name: string)
    requires Slashless(name)
    requires dir == "" || dir[|dir| - 1] == '/'
    ensures LastSegment(dir + name) == name
    decreases |name|
  {
    var p := dir + name;
    if name == "" {
      assert p == dir;
    } else {
      var init := name[..|name| - 1];
      assert p[..|p| - 1] == dir + init;
      assert name[|name| - 1] in name;
      LastSegmentUnique(dir, init);
    }
  }

  /** The basename of a file is its name, under any directory and either slash style. */
  lemma BasenameOfFile(dir: string, name: string)
    requires Plain(name)
    requires dir == "" || dir[|dir| - 1] in {'/', '\\'}
    ensures Basename(dir + name) == name
  {
    var n := ForwardSlashes(name);
    assert n == name;
    assert ForwardSlashes(dir + name) == ForwardSlashes(dir) + name;
    LastSegmentUnique(ForwardSlashes(dir), name);
  }

  // -------------------------------------------------------------------- paths

  /** A filesystem path as the standard path library keeps it: an anchor and the
      segments that remain once empty and "." segments are dropped. */
  datatype Path = Path(absolute: bool, parts: seq<string>)

  predicate Kept(segment: string) { segment != "" && segment != "." }

  predicate WellFormed(p: Path) {
    forall i | 0 <= i < |p.parts| :: Kept(p.parts[i]) && Slashless(p.parts[i])
  }

  function Keep(segment: string): seq<string> {
    if Kept(segment) then [segment] else []
  }

  /** What precedes the last segment, without the separating slash. */
  function BeforeLast(s: string): string
    requires |LastSegment(s)| < |s|
  {
    s[..|s| - |LastSegment(s)| - 1]
  }

  function Parts(s: string): (ps: seq<string>)
    ensures forall i | 0 <= i < |ps| :: Kept(ps[i]) && Slashless(ps[i])
    decreases |s|
  {
    var last := LastSegment(s);
    if |last| == |s| then Keep(last) else Parts(BeforeLast(s)) + Keep(last)
  }

  /** The parts before the last segment. */
  function Lead(s: string): seq<string> {
    if |LastSegment(s)| == |s| then [] else Parts(BeforeLast(s))
  }

  predicate Anchored(s: string) { s != "" && s[0] == '/' }

  function ParsePath(s: string): (p: Path)
    ensures WellFormed(p)
  {
    Path(Anchored(s), Parts(s))
  }

  /** A path below another; an absolute right operand replaces the base. */
  function Join(base: Path, s: string): (p: Path)
    ensures WellFormed(base) ==> WellFormed(p)
  {
    if Anchored(s) then ParsePath(s) else Path(base.absolute, base.parts + Parts(s))
  }

  /** Following one more segment: a parent takes the last segment back, if there is one to take; above the
      root of an absolute path there is nothing. */
  function Follow(absolute: bool, settled: seq<string>, segment: string): (r: seq<string>)
    ensures forall i | 0 <= i < |r| :: r[i] in settled || r[i] == segment
  {
    if segment != ".." then settled + [segment]
    else if settled != [] && settled[|settled| - 1] != ".." then settled[..|settled| - 1]
    else if absolute then settled
    else settled + [segment]
  }

  /** A path without the segments that a parent takes back. */
  function Resolved(absolute: bool, parts: seq<string>): (r: seq<string>)
    ensures forall i | 0 <= i < |r| :: r[i] in parts
  {
    if parts == [] then []
    else Follow(absolute, Resolved(absolute, parts[..|parts| - 1]), parts[|parts| - 1])
  }

  function Settled(p: Path): (r: Path)
    ensures WellFormed(p) ==> WellFormed(r)
  {
    Path(p.absolute, Resolved(p.absolute, p.parts))
  }

  predicate Parentless(parts: seq<string>) { ".." !in parts }

  lemma ResolvedNext(absolute: bool, init: seq<string>, last: string)
    ensures Resolved(absolute, init + [last]) == Follow(absolute, Resolved(absolute, init), last)
  {
    hide Follow;
    assert (init + [last])[..|init|] == init;
  }

  /** Resolving what comes first changes nothing. */
  lemma {:induction false} ResolvedPrefix(absolute: bool, a: seq<string>, a': seq<string>, b: seq<string>)
    requires Resolved(absolute, a) == Resolved(absolute, a')
    ensures Resolved(absolute, a + b) == Resolved(absolute, a' + b)
    decreases |b|
  {
    hide Follow, Resolved;
    if b == [] {
      assert a + b == a && a' + b == a';
    } else {
      var init, last := b[..|b| - 1], b[|b| - 1];
      ResolvedPrefix(absolute, a, a', init);
      ResolvedNext(absolute, a + init, last);
      ResolvedNext(absolute, a' + init, last);
      assert a + b == (a + init) + [last] && a' + b == (a' + init) + [last];
    }
  }

  /** Segments without a parent among them stay as they are, whatever precedes them. */
  lemma {:induction false} ResolvedParentless(absolute: bool, a: seq<string>, b: seq<string>)
    requires Parentless(b)
    ensures Resolved(absolute, a + b) == Resolved(absolute, a) + b
    decreases |b|
  {
    hide Resolved;
    if b == [] {
      assert a + b == a;
    } else {
      var init, last := b[..|b| - 1], b[|b| - 1];
      assert last in b;
      ResolvedParentless(absolute, a, init);
      ResolvedNext(absolute, a + init, last);
      assert a + b == (a + init) + [last] && b == init + [last];
    }
  }

  lemma ResolvedPair(absolute: bool, a: seq<string>, x: string)
    requires x != ".."
    ensures Resolved(absolute, a + [x, ".."]) == Resolved(absolute, a)
  {
    hide Resolved;
    ResolvedNext(absolute, a, x);
    ResolvedNext(absolute, a + [x], "..");
    assert a + [x, ".."] == (a + [x]) + [".."];
  }

  function Slashed(parts: seq<string>): string {
    if parts == [] then ""
    else if |parts| == 1 then parts[0]
    else Slashed(parts[..|parts| - 1]) + "/" + parts[|parts| - 1]
  }

  /** A path as text. */
  function Render(p: Path): string {
    if p.absolute then "/" + Slashed(p.parts)
    else if p.parts == [] then "."
    else Slashed(p.parts)
  }

  lemma PartsOfLast(s: string, dir: string, last: string)
    requires s == dir + "/" + last
    requires Slashless(last)
    ensures LastSegment(s) == last && |last| < |s| && BeforeLast(s) == dir
    ensures Parts(s) == Parts(dir) + Keep(last)
    ensures Lead(s) == Parts(dir)
  {
    LastSegmentUnique(dir + "/", last);
  }

  lemma PartsOfSegment(segment: string)
    requires Slashless(segment)
    ensures LastSegment(segment) == segment && Parts(segment) == Keep(segment)
  {
    LastSegmentUnique("", segment);
    assert "" + segment == segment;
  }

  lemma PartsOfFirst(prefix: string, segment: string)
    requires prefix == "" || prefix == "/"
    requires Slashless(segment)
    ensures Parts(prefix + segment) == Keep(segment)
  {
    if prefix == "" {
      assert prefix + segment == segment;
      PartsOfSegment(segment);
    } else {
      PartsOfSegment("");
      PartsOfLast(prefix + segment, "", segment);
    }
  }

  lemma SlashedLast(prefix: string, init: seq<string>, last: string)
    requires init != []
    ensures prefix + Slashed(init + [last]) == prefix + Slashed(init) + "/" + last
  {
    assert (init + [last])[..|init|] == init;
  }

  lemma {:induction false} PartsOfSlashed(prefix: string, parts: seq<string>)
    requires prefix == "" || prefix == "/"
    requires WellFormed(Path(false, parts)) && parts != []
    ensures Parts(prefix + Slashed(parts)) == parts
    decreases |parts|
  {
    var last := parts[|parts| - 1];
    var init := parts[..|parts| - 1];
    assert parts == init + [last];
    if init == [] {
      PartsOfFirst(prefix, last);
    } else {
      PartsOfSlashed(prefix, init);
      var dir := prefix + Slashed(init);
      SlashedLast(prefix, init, last);
      PartsOfLast(prefix + Slashed(parts), dir, last);
    }
  }

  lemma SlashedStart(parts: seq<string>)
    requires WellFormed(Path(false, parts)) && parts != []
    ensures Slashed(parts) != "" && Slashed(parts)[0] == parts[0][0] != '/'
    decreases |parts|
  {
    if |parts| > 1 {
      SlashedStart(parts[..|parts| - 1]);
    }
  }

  lemma NoParts()
    ensures Parts("/") == [] && Parts(".") == [] && "/" + Slashed([]) == "/"
  {
    assert LastSegment("/") == "" && LastSegment("") == "" && LastSegment(".") == ".";
    assert BeforeLast("/") == "";
  }

  /** Reading a rendered path back gives the same path, so rendering is injective. */
  lemma ParseRendered(p: Path)
    requires WellFormed(p)
    ensures ParsePath(Render(p)) == p
  {
    hide Parts, Slashed;
    if p.parts == [] {
      NoParts();
    } else {
      SlashedStart(p.parts);
      PartsOfSlashed(if p.absolute then "/" else "", p.parts);
      assert "" + Slashed(p.parts) == Slashed(p.parts);
    }
  }

  lemma RenderedBasename(dir: Path, name: string)
    requires WellFormed(dir) && Plain(name) && Kept(name)
    ensures Basename(Render(Path(dir.absolute, dir.parts + [name]))) == name
  {
    hide Basename, WellFormed, Plain, Kept;
    var p := Path(dir.absolute, dir.parts + [name]);
    var prefix := if dir.absolute then "/" else "";
    if dir.parts == [] {
      assert p.parts == [name];
      assert Render(p) == prefix + name;
      BasenameOfFile(prefix, name);
    } else {
      assert p.parts[..|p.parts| - 1] == dir.parts;
      assert Render(p) == (prefix + Slashed(dir.parts) + "/") + name;
      BasenameOfFile(prefix + Slashed(dir.parts) + "/", name);
    }
  }

  lemma SplitAtLast(s: string, suffix: string)
    requires |LastSegment(s)| < |s|
    ensures s == BeforeLast(s) + "/" + LastSegment(s)
    ensures s + suffix == BeforeLast(s) + "/" + (LastSegment(s) + suffix)
  {
    SegmentEnds(s);
  }

  /** Appending text without slashes to a run id changes its last segment only. */
  lemma PartsOfSuffixed(s: string, suffix: string)
    requires Slashless(suffix) && |suffix| >= 2 && suffix[0] != '.'
    ensures Parts(s + suffix) == Lead(s) + [LastSegment(s) + suffix]
    ensures Parts(s) == Lead(s) + Keep(LastSegment(s))
    ensures LastSegment(s + suffix) == LastSegment(s) + suffix
    ensures Anchored(s + suffix) == Anchored(s)
  {
    hide Parts, LastSegment;
    var last := LastSegment(s);
    if |last| == |s| {
      SegmentEnds(s);
      assert last == s;
      PartsOfSegment(s);
      PartsOfSegment(s + suffix);
      assert Kept(s + suffix);
    } else {
      SplitAtLast(s, suffix);
      PartsOfLast(s, BeforeLast(s), last);
      PartsOfLast(s + suffix, BeforeLast(s), last + suffix);
    }
  }
}
