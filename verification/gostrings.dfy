/** The pieces of Go's `strings` and `path` packages the program's text
    handling is built from. Characters are Unicode code points; case
    mapping covers the ASCII letters only. */
module GoStrings {
  import opened Wrappers

  /** ASCII lower-casing of one character. */
  function LowerChar(c: char): char {
    if 'A' <= c <= 'Z' then (c as int + 32) as char else c
  }

  /** `strings.ToLower`, restricted to ASCII case mapping. */
  function ToLower(s: string): (r: string)
    ensures |r| == |s|
    ensures forall i | 0 <= i < |s| :: r[i] == LowerChar(s[i])
  {
    seq(|s|, i requires 0 <= i < |s| => LowerChar(s[i]))
  }

  /** Lower-casing is idempotent, so a name that is already lower case is
      its own lower-cased form. */
  lemma ToLowerIdempotent(s: string)
    ensures ToLower(ToLower(s)) == ToLower(s)
  {
  }

  /** `strings.HasSuffix`. */
  predicate HasSuffix(s: string, suffix: string) {
    |suffix| <= |s| && s[|s| - |suffix|..] == suffix
  }

  /** `strings.TrimSuffix`: removes one trailing occurrence of `suffix`. */
  function TrimSuffix(s: string, suffix: string): (r: string)
    ensures HasSuffix(s, suffix) ==> r + suffix == s
    ensures !HasSuffix(s, suffix) ==> r == s
  {
    if HasSuffix(s, suffix) then s[..|s| - |suffix|] else s
  }

  /** `sub` occurs in `s` starting at position `i`. */
  predicate OccursAt(s: string, sub: string, i: int) {
    0 <= i && i + |sub| <= |s| && s[i..i + |sub|] == sub
  }

  /** `strings.Contains`, written as the library scans: try each start. */
  function Contains(s: string, sub: string): bool
    decreases |s|
  {
    if |sub| > |s| then false
    else if s[..|sub|] == sub then true
    else Contains(s[1..], sub)
  }

  /** `Contains` is exactly substring occurrence. */
  lemma {:induction false} ContainsIsOccurrence(s: string, sub: string)
    ensures Contains(s, sub) <==> exists i :: OccursAt(s, sub, i)
    decreases |s|
  {
    if |sub| > |s| {
    } else if s[..|sub|] == sub {
      assert OccursAt(s, sub, 0);
    } else {
      ContainsIsOccurrence(s[1..], sub);
      if Contains(s[1..], sub) {
        var i :| OccursAt(s[1..], sub, i);
        assert s[1..][i..i + |sub|] == s[i + 1..i + 1 + |sub|];
        assert OccursAt(s, sub, i + 1);
      }
      if exists i :: OccursAt(s, sub, i) {
        var i :| OccursAt(s, sub, i);
        assert i != 0;
        assert s[1..][i - 1..i - 1 + |sub|] == s[i..i + |sub|];
        assert OccursAt(s[1..], sub, i - 1);
      }
    }
  }

  /** The first position of `c` in `s` (`strings.IndexByte`). */
  function IndexOf(s: string, c: char): (r: Option<nat>)
    ensures r.Some? ==> r.value < |s| && s[r.value] == c && c !in s[..r.value]
    ensures r.None? ==> c !in s
    decreases |s|
  {
    if |s| == 0 then None
    else if s[0] == c then Some(0)
    else
      match IndexOf(s[1..], c)
      case None => None
      case Some(i) => Some(i + 1)
  }

  /** `strings.Split(s, sep)[0]` for a one-character separator: the text
      before the first separator, or all of `s`. */
  function BeforeFirst(s: string, c: char): (r: string)
    ensures c !in r
    ensures c in s ==> |r| < |s| && s[..|r|] == r && s[|r|] == c
    ensures c !in s ==> r == s
  {
    match IndexOf(s, c)
    case None => s
    case Some(i) => s[..i]
  }

  /** `strings.Split` with a one-character separator; like Go it returns
      one element for text without the separator, including "". */
  function SplitOn(s: string, c: char): (r: seq<string>)
    ensures |r| >= 1
    decreases |s|
  {
    match IndexOf(s, c)
    case None => [s]
    case Some(i) => [s[..i]] + SplitOn(s[i + 1..], c)
  }

  /** `strings.Join` with a one-character separator. */
  function JoinWith(parts: seq<string>, c: char): string
    requires |parts| >= 1
    decreases |parts|
  {
    if |parts| == 1 then parts[0] else parts[0] + [c] + JoinWith(parts[1..], c)
  }

  lemma IndexOfAfterPrefix(a: string, c: char, b: string)
    requires c !in a
    ensures IndexOf(a + [c] + b, c) == Some(|a|)
  {
    var s := a + [c] + b;
    assert s[|a|] == c;
    assert s[..|a|] == a;
  }

  /** Joining parts free of the separator and splitting again gives them back. */
  lemma {:induction false} SplitJoin(parts: seq<string>, c: char)
    requires |parts| >= 1
    requires forall k | 0 <= k < |parts| :: c !in parts[k]
    ensures SplitOn(JoinWith(parts, c), c) == parts
    decreases |parts|
  {
    if |parts| > 1 {
      var rest := JoinWith(parts[1..], c);
      IndexOfAfterPrefix(parts[0], c, rest);
      var s := parts[0] + [c] + rest;
      assert s[..|parts[0]|] == parts[0];
      assert s[|parts[0]| + 1..] == rest;
      SplitJoin(parts[1..], c);
    }
  }

  lemma {:induction false} JoinWithAppend(parts: seq<string>, x: string, c: char)
    requires |parts| >= 1
    ensures JoinWith(parts + [x], c) == JoinWith(parts, c) + [c] + x
    decreases |parts|
  {
    if |parts| > 1 {
      assert (parts + [x])[1..] == parts[1..] + [x];
      JoinWithAppend(parts[1..], x, c);
    }
  }

  /** A path element `path.Clean` keeps as it is. */
  predicate PlainSegment(seg: string) {
    |seg| > 0 && '/' !in seg && seg != "." && seg != ".."
  }

  /** The element loop of `path.Clean`: drops empty and "." elements, lets
      ".." cancel the element before it, and drops a ".." that would climb
      above the root of a rooted path. */
  function CleanSegments(segs: seq<string>, rooted: bool, out: seq<string>): seq<string>
    decreases |segs|
  {
    if |segs| == 0 then out
    else
      var seg := segs[0];
      var out' :=
        if seg == "" || seg == "." then out
        else if seg == ".." then
          (if |out| > 0 && out[|out| - 1] != ".." then out[..|out| - 1]
           else if rooted then out
           else out + [".."])
        else out + [seg];
      CleanSegments(segs[1..], rooted, out')
  }

  /** `path.Clean`. */
  function Clean(p: string): string {
    var rooted := |p| > 0 && p[0] == '/';
    var out := CleanSegments(SplitOn(p, '/'), rooted, []);
    if |out| == 0 then (if rooted then "/" else ".")
    else (if rooted then "/" else "") + JoinWith(out, '/')
  }

  function TotalLength(elems: seq<string>): nat {
    if |elems| == 0 then 0 else |elems[0]| + TotalLength(elems[1..])
  }

  /** The buffer `path.Join` builds before cleaning: leading empty elements
      are skipped, later ones still add a separator. */
  function JoinBuffer(elems: seq<string>, buf: string): string
    decreases |elems|
  {
    if |elems| == 0 then buf
    else
      var e := elems[0];
      var buf' :=
        if |buf| > 0 || e != "" then (if |buf| > 0 then buf + "/" else buf) + e
        else buf;
      JoinBuffer(elems[1..], buf')
  }

  /** `path.Join`: "" when every element is empty, else the cleaned buffer. */
  function PathJoin(elems: seq<string>): string {
    if TotalLength(elems) == 0 then "" else Clean(JoinBuffer(elems, ""))
  }

  lemma {:induction false} CleanPlain(segs: seq<string>, rooted: bool, out: seq<string>)
    requires forall k | 0 <= k < |segs| :: PlainSegment(segs[k])
    ensures CleanSegments(segs, rooted, out) == out + segs
    decreases |segs|
  {
    if |segs| > 0 {
      CleanPlain(segs[1..], rooted, out + [segs[0]]);
      assert out + [segs[0]] + segs[1..] == out + segs;
    }
  }

  lemma JoinBufferThree(dir: string, sub: string, file: string)
    requires |dir| > 0
    ensures JoinBuffer([dir, sub, file], "") == dir + "/" + sub + "/" + file
    ensures TotalLength([dir, sub, file]) > 0
  {
    assert [dir, sub, file][1..] == [sub, file];
    assert [sub, file][1..] == [file];
    assert "" + dir == dir;
    assert JoinBuffer([dir, sub, file], "") == JoinBuffer([sub, file], dir);
    assert JoinBuffer([sub, file], dir) == JoinBuffer([file], dir + "/" + sub);
    assert JoinBuffer([file], dir + "/" + sub) == JoinBuffer([], dir + "/" + sub + "/" + file);
  }

  lemma SplitRooted(all: seq<string>)
    requires |all| >= 1
    requires forall k | 0 <= k < |all| :: '/' !in all[k]
    ensures SplitOn("/" + JoinWith(all, '/'), '/') == [""] + all
  {
    var rest := JoinWith(all, '/');
    IndexOfAfterPrefix("", '/', rest);
    assert "" + "/" + rest == "/" + rest;
    assert ("/" + rest)[1..] == rest;
    SplitJoin(all, '/');
  }

  /** Cleaning a rooted path made of plain elements changes nothing. */
  lemma CleanRootedPlain(all: seq<string>)
    requires |all| >= 1
    requires forall k | 0 <= k < |all| :: PlainSegment(all[k])
    ensures Clean("/" + JoinWith(all, '/')) == "/" + JoinWith(all, '/')
  {
    var p := "/" + JoinWith(all, '/');
    SplitRooted(all);
    CleanPlain(all, true, []);
    var segs := [""] + all;
    assert segs[0] == "" && segs[1..] == all;
    assert CleanSegments(segs, true, []) == CleanSegments(all, true, []);
    var out := CleanSegments(SplitOn(p, '/'), true, []);
    assert out == all;
    assert p[0] == '/';
  }

  lemma ConcatRegroup(j: string, sub: string, file: string)
    ensures "/" + ((j + "/" + sub) + "/" + file) == ("/" + j) + "/" + sub + "/" + file
  {
  }

  lemma JoinedIsRooted(dirSegs: seq<string>, sub: string, file: string)
    requires |dirSegs| >= 1
    ensures ("/" + JoinWith(dirSegs, '/')) + "/" + sub + "/" + file
         == "/" + JoinWith(dirSegs + [sub] + [file], '/')
  {
    var j := JoinWith(dirSegs, '/');
    var k := JoinWith(dirSegs + [sub], '/');
    JoinWithAppend(dirSegs + [sub], file, '/');
    JoinWithAppend(dirSegs, sub, '/');
    assert k == j + "/" + sub;
    assert JoinWith(dirSegs + [sub] + [file], '/') == k + "/" + file;
    ConcatRegroup(j, sub, file);
  }

  lemma AppendPlain(dirSegs: seq<string>, sub: string, file: string)
    requires forall k | 0 <= k < |dirSegs| :: PlainSegment(dirSegs[k])
    requires PlainSegment(sub) && PlainSegment(file)
    ensures var all := dirSegs + [sub] + [file];
            forall k | 0 <= k < |all| :: PlainSegment(all[k])
  {
    var all := dirSegs + [sub] + [file];
    forall k | 0 <= k < |all|
      ensures PlainSegment(all[k])
    {
      if k < |dirSegs| {
        assert all[k] == dirSegs[k];
      } else if k == |dirSegs| {
        assert all[k] == sub;
      } else {
        assert all[k] == file;
      }
    }
  }

  lemma PathJoinIsClean(dir: string, sub: string, file: string)
    requires |dir| > 0
    ensures PathJoin([dir, sub, file]) == Clean(dir + "/" + sub + "/" + file)
  {
    JoinBufferThree(dir, sub, file);
  }

  /** Joining a clean absolute directory with two plain elements is plain
      concatenation with "/": cleaning changes nothing. */
  lemma PathJoinPlain(dirSegs: seq<string>, sub: string, file: string)
    requires |dirSegs| >= 1
    requires forall k | 0 <= k < |dirSegs| :: PlainSegment(dirSegs[k])
    requires PlainSegment(sub) && PlainSegment(file)
    ensures var dir := "/" + JoinWith(dirSegs, '/');
            PathJoin([dir, sub, file]) == dir + "/" + sub + "/" + file
  {
    var dir := "/" + JoinWith(dirSegs, '/');
    var all := dirSegs + [sub] + [file];
    JoinedIsRooted(dirSegs, sub, file);
    AppendPlain(dirSegs, sub, file);
    CleanRootedPlain(all);
    PathJoinIsClean(dir, sub, file);
  }
}
