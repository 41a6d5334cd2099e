/** The part of pathlib's pure path arithmetic the converter relies on, for POSIX paths:
    `name`, `suffix`, `with_suffix`, `relative_to`, the `/` operator and `str()`. */
module Paths {
  import opened Wrappers

  /** A path as pathlib stores it: its parts, the first of which is "/" when the path is
      absolute (`PurePosixPath("/in/a.dav").parts == ("/", "in", "a.dav")`). */
  datatype Path = Path(parts: seq<string>)

  const Root: string := "/"

  predicate IsAbsolute(p: Path) {
    |p.parts| > 0 && p.parts[0] == Root
  }

  /** `PurePath.name`: the last part, or "" for the empty path and for the bare root. */
  function Name(p: Path): (r: string)
    ensures r != "" ==> |p.parts| > 0 && r == p.parts[|p.parts| - 1]
    ensures |p.parts| > 0 && !(|p.parts| == 1 && IsAbsolute(p)) ==> r == p.parts[|p.parts| - 1]
    ensures |p.parts| == 1 && IsAbsolute(p) ==> r == ""
  {
    if |p.parts| == 0 || (|p.parts| == 1 && IsAbsolute(p)) then "" else p.parts[|p.parts| - 1]
  }

  /** `str.rfind` for one character: the last index holding `c`, or -1. */
  function LastIndexOf(s: string, c: char): (i: int)
    ensures -1 <= i < |s|
    ensures i >= 0 ==> s[i] == c
    ensures forall j :: i < j < |s| ==> s[j] != c
  {
    if |s| == 0 then -1
    else if s[|s| - 1] == c then |s| - 1
    else LastIndexOf(s[..|s| - 1], c)
  }

  /** `PurePath.suffix` of a name: from the last '.' on, provided that dot is neither the
      first nor the last character of the name; "" otherwise. */
  function Suffix(name: string): (r: string)
    ensures r == "" || (2 <= |r| < |name| && r[0] == '.' && '.' !in r[1..] && name[|name| - |r|..] == r)
    ensures r != "" <==> (|name| >= 2 && name[|name| - 1] != '.' && '.' in name[1..|name| - 1])
  {
    var i := LastIndexOf(name, '.');
    if 0 < i < |name| - 1 then
      assert '.' in name[1..|name| - 1] by { assert name[1..|name| - 1][i - 1] == '.'; }
      name[i..]
    else
      ""
  }

  /** The name without its suffix (`PurePath.stem`). */
  function Stem(name: string): (r: string)
    ensures r + Suffix(name) == name
    ensures Suffix(name) != "" ==> r != ""
  {
    name[..|name| - |Suffix(name)|]
  }

  function PathSuffix(p: Path): string {
    Suffix(Name(p))
  }

  /** The suffixes `with_suffix` accepts: no separator, and either empty or a dot followed by
      at least one character. */
  predicate ValidSuffix(suffix: string) {
    '/' !in suffix && (suffix == "" || (suffix[0] == '.' && suffix != "."))
  }

  /** A suffix made of one dot and a dot-free, non-empty tail, such as ".mkv". */
  predicate SimpleSuffix(suffix: string) {
    |suffix| >= 2 && suffix[0] == '.' && '.' !in suffix[1..] && '/' !in suffix
  }

  /** `PurePath.with_suffix`: replaces the last suffix of the name, or appends when there is
      none; None where pathlib raises ValueError (an invalid suffix or an empty name). */
  function WithSuffix(p: Path, suffix: string): (r: Option<Path>)
    ensures r.Some? <==> ValidSuffix(suffix) && Name(p) != ""
  {
    if !ValidSuffix(suffix) || Name(p) == "" then None
    else Some(Path(p.parts[..|p.parts| - 1] + [Stem(Name(p)) + suffix]))
  }

  /** `base / rel`: an absolute right operand replaces the left one. */
  function Join(base: Path, rel: Path): (r: Path)
    ensures IsAbsolute(rel) ==> r == rel
    ensures !IsAbsolute(rel) ==>
      (|r.parts| == |base.parts| + |rel.parts| &&
       r.parts[..|base.parts|] == base.parts && r.parts[|base.parts|..] == rel.parts)
  {
    if IsAbsolute(rel) then rel else Path(base.parts + rel.parts)
  }

  /** `PurePath.relative_to`: the parts after `base`, or None where pathlib raises
      ValueError (`base` is not a leading part of `p`, or `base` is empty and `p` absolute). */
  function RelativeTo(p: Path, base: Path): (r: Option<Path>)
    ensures r.Some? ==> p.parts == base.parts + r.value.parts
    ensures r.None? <==> (if |base.parts| == 0 then IsAbsolute(p) else !(|base.parts| <= |p.parts| && p.parts[..|base.parts|] == base.parts))
  {
    if |base.parts| == 0 then (if IsAbsolute(p) then None else Some(p))
    else if |base.parts| <= |p.parts| && p.parts[..|base.parts|] == base.parts then
      var rest := Path(p.parts[|base.parts|..]);
      assert p.parts == base.parts + rest.parts;
      Some(rest)
    else None
  }

  function JoinParts(parts: seq<string>): (r: string)
    ensures |parts| > 0 && parts[0] != "" ==> |r| > 0 && r[0] == parts[0][0]
  {
    if |parts| == 0 then ""
    else if |parts| == 1 then parts[0]
    else parts[0] + "/" + JoinParts(parts[1..])
  }

  /** `str(path)`: "." for the empty path, a leading "/" for an absolute one. */
  function PathString(p: Path): (r: string)
    ensures |p.parts| == 0 ==> r == "."
    ensures |p.parts| > 0 && p.parts[0] != "" ==> |r| > 0 && (r[0] == '/' <==> p.parts[0][0] == '/')
  {
    if |p.parts| == 0 then "."
    else if IsAbsolute(p) then Root + JoinParts(p.parts[1..])
    else JoinParts(p.parts)
  }

  /** Parts as pathlib stores them after the root: no empty part, no "." and no separator. */
  predicate PlainParts(parts: seq<string>) {
    forall i :: 0 <= i < |parts| ==> parts[i] != "" && parts[i] != "." && '/' !in parts[i]
  }

  /** A path as pathlib builds it: the root, if any, followed by plain parts. */
  predicate WellFormedPath(p: Path) {
    if IsAbsolute(p) then PlainParts(p.parts[1..]) else PlainParts(p.parts)
  }

  /** `str.split("/")`: the pieces between the separators, the empty ones included. */
  function Split(s: string): (r: seq<string>)
    ensures |r| >= 1
  {
    if |s| == 0 then [""]
    else
      var rest := Split(s[1..]);
      if s[0] == '/' then [""] + rest else [[s[0]] + rest[0]] + rest[1..]
  }

  /** Reads a string written by `str(path)` back into a path. */
  function ParsePathString(s: string): Path {
    if s == "." then Path([])
    else if s == Root then Path([Root])
    else if |s| > 0 && s[0] == '/' then Path([Root] + Split(s[1..]))
    else Path(Split(s))
  }

  lemma {:induction false} SplitWithoutSeparator(a: string)
    requires '/' !in a
    ensures Split(a) == [a]
  {
    if |a| > 0 {
      SplitWithoutSeparator(a[1..]);
      assert [a[0]] + a[1..] == a;
    }
  }

  lemma {:induction false} SplitAtSeparator(a: string, b: string)
    requires '/' !in a
    ensures Split(a + "/" + b) == [a] + Split(b)
  {
    var s := a + "/" + b;
    if |a| == 0 {
      assert s[1..] == b;
    } else {
      assert s[1..] == a[1..] + "/" + b;
      SplitAtSeparator(a[1..], b);
      assert [a[0]] + a[1..] == a;
    }
  }

  /** Splitting parts joined by "/" gives the parts back, provided none holds a separator. */
  lemma {:induction false} SplitJoinParts(parts: seq<string>)
    requires |parts| >= 1 && forall i :: 0 <= i < |parts| ==> '/' !in parts[i]
    ensures Split(JoinParts(parts)) == parts
  {
    if |parts| == 1 {
      SplitWithoutSeparator(parts[0]);
    } else {
      SplitJoinParts(parts[1..]);
      SplitAtSeparator(parts[0], JoinParts(parts[1..]));
      assert [parts[0]] + parts[1..] == parts;
    }
  }

  /** `str(path)` loses nothing: the string reads back as the path it was written from. */
  lemma PathStringRoundTrip(p: Path)
    requires WellFormedPath(p)
    ensures ParsePathString(PathString(p)) == p
  {
    var s := PathString(p);
    if |p.parts| == 0 {
    } else if IsAbsolute(p) {
      var rest := p.parts[1..];
      assert p.parts == [Root] + rest;
      if |rest| > 0 {
        assert rest[0] != "" && '/' !in rest[0];
        assert s == Root + JoinParts(rest);
        assert s[1..] == JoinParts(rest);
        assert |s| >= 2;
        SplitJoinParts(rest);
      }
    } else {
      assert p.parts[0] != "" && '/' !in p.parts[0];
      assert s == JoinParts(p.parts);
      assert s[0] != '/';
      if |p.parts| > 1 { assert |s| >= 2; } else { assert s == p.parts[0]; }
      SplitJoinParts(p.parts);
    }
  }

  /** Two paths as pathlib builds them have the same string only when they are equal. */
  lemma PathStringInjective(p: Path, q: Path)
    requires WellFormedPath(p) && WellFormedPath(q) && PathString(p) == PathString(q)
    ensures p == q
  {
    PathStringRoundTrip(p);
    PathStringRoundTrip(q);
  }

  /** `str.lower` restricted to ASCII letters. */
  function LowerChar(c: char): char {
    if 'A' <= c <= 'Z' then (c as int + 32) as char else c
  }

  function Lower(s: string): (r: string)
    ensures |r| == |s| && forall i :: 0 <= i < |s| ==> r[i] == LowerChar(s[i])
  {
    seq(|s|, i requires 0 <= i < |s| => LowerChar(s[i]))
  }

  /** A relative path whose parts are all real names: what a directory listing joins onto
      the listed directory. */
  predicate IsChildPath(rel: Path) {
    |rel.parts| >= 1 && forall i :: 0 <= i < |rel.parts| ==> rel.parts[i] != "" && '/' !in rel.parts[i]
  }

  lemma {:induction false} StemOfSimpleSuffixed(stem: string, suffix: string)
    requires stem != "" && SimpleSuffix(suffix)
    ensures Suffix(stem + suffix) == suffix && Stem(stem + suffix) == stem
  {
    var name := stem + suffix;
    var i := LastIndexOf(name, '.');
    assert name[|stem|] == '.';
    forall j | |stem| < j < |name| ensures name[j] != '.' {
      assert name[j] == suffix[1..][j - |stem| - 1];
    }
    assert i == |stem|;
    assert name[i..] == suffix;
  }

  /** `with_suffix` with a one-dot suffix such as ".mkv" gives a path whose suffix is exactly
      that one, whose stem is the old stem, and which lies in the same directory. */
  lemma {:induction false} WithSuffixSetsSuffix(p: Path, suffix: string)
    requires SimpleSuffix(suffix) && Name(p) != ""
    ensures WithSuffix(p, suffix).Some?
    ensures PathSuffix(WithSuffix(p, suffix).value) == suffix
    ensures Stem(Name(WithSuffix(p, suffix).value)) == Stem(Name(p))
  {
    var name := Name(p);
    var old_ := Suffix(name);
    assert Stem(name) != "" by {
      if old_ == "" { assert Stem(name) == name; } else { assert |old_| < |name|; }
    }
    StemOfSimpleSuffixed(Stem(name), suffix);
  }

  /** Applying the same one-dot suffix twice changes nothing the second time. */
  lemma {:induction false} WithSuffixIdempotent(p: Path, suffix: string)
    requires SimpleSuffix(suffix) && Name(p) != ""
    ensures WithSuffix(p, suffix).Some?
    ensures WithSuffix(WithSuffix(p, suffix).value, suffix) == WithSuffix(p, suffix)
  {
    WithSuffixSetsSuffix(p, suffix);
    var q := WithSuffix(p, suffix).value;
    var q2 := WithSuffix(q, suffix).value;
    assert q2.parts == q.parts[..|q.parts| - 1] + [Stem(Name(q)) + suffix];
    assert q.parts[..|q.parts| - 1] == p.parts[..|p.parts| - 1];
  }

  /** A child path joined onto a directory is found again by `relative_to` that directory. */
  lemma {:induction false} RelativeToJoin(base: Path, rel: Path)
    requires IsChildPath(rel)
    ensures RelativeTo(Join(base, rel), base) == Some(rel)
  {
    assert !IsAbsolute(rel) by { assert '/' !in rel.parts[0]; assert rel.parts[0] != Root by { assert Root[0] == '/'; } }
    var p := Join(base, rel);
    assert p.parts == base.parts + rel.parts;
    if |base.parts| > 0 {
      assert p.parts[..|base.parts|] == base.parts;
      assert p.parts[|base.parts|..] == rel.parts;
    }
  }

  /** The name of a child path joined onto a directory is the child's last part. */
  lemma JoinedName(base: Path, rel: Path)
    requires IsChildPath(rel)
    ensures Name(Join(base, rel)) == rel.parts[|rel.parts| - 1] != ""
  {
    assert rel.parts[0] != Root by { assert Root[0] == '/'; assert '/' !in rel.parts[0]; }
    var p := Join(base, rel);
    assert p.parts == base.parts + rel.parts;
    if |p.parts| == 1 {
      assert p.parts[0] == rel.parts[0];
    }
  }

  lemma NoSeparatorInStem(name: string)
    requires '/' !in name
    ensures '/' !in Stem(name)
  {
    var st := Stem(name);
    assert forall j :: 0 <= j < |st| ==> st[j] == name[j];
  }

  /** The path `with_suffix` builds: the same leading parts and a renamed last part. */
  lemma RenamedLast(p: Path, suffix: string)
    requires WithSuffix(p, suffix).Some?
    ensures WithSuffix(p, suffix).value.parts == p.parts[..|p.parts| - 1] + [Stem(Name(p)) + suffix]
  {
  }

  lemma ChildFacts(rel: Path)
    requires IsChildPath(rel)
    ensures '/' !in rel.parts[0] && '/' !in rel.parts[|rel.parts| - 1] && rel.parts[|rel.parts| - 1] != ""
  {
  }

  lemma ChildName(rel: Path)
    requires IsChildPath(rel)
    ensures !IsAbsolute(rel) && Name(rel) == rel.parts[|rel.parts| - 1]
  {
    assert Root[0] == '/';
    assert '/' !in rel.parts[0];
  }

  lemma ReplaceLastOfConcat(b: seq<string>, r: seq<string>, x: string)
    requires |r| >= 1
    ensures (b + r)[..|b + r| - 1] + [x] == b + (r[..|r| - 1] + [x])
  {
    assert (b + r)[..|b + r| - 1] == b + r[..|r| - 1];
  }

  lemma NoSeparatorInRenamed(name: string, suffix: string)
    requires '/' !in name && '/' !in suffix
    ensures '/' !in Stem(name) + suffix
  {
    NoSeparatorInStem(name);
    var r := Stem(name) + suffix;
    forall j | 0 <= j < |r| ensures r[j] != '/' {
      if j < |Stem(name)| { assert r[j] == Stem(name)[j]; } else { assert r[j] == suffix[j - |Stem(name)|]; }
    }
  }

  /** Renaming a child path leaves it relative. */
  lemma RenamedChildIsRelative(rel: Path, suffix: string)
    requires IsChildPath(rel) && ValidSuffix(suffix)
    ensures WithSuffix(rel, suffix).Some? && !IsAbsolute(WithSuffix(rel, suffix).value)
  {
    ChildName(rel);
    ChildFacts(rel);
    var n := |rel.parts|;
    var renamed := Stem(rel.parts[n - 1]) + suffix;
    NoSeparatorInRenamed(rel.parts[n - 1], suffix);
    RenamedLast(rel, suffix);
    var r := WithSuffix(rel, suffix).value;
    assert Root[0] == '/';
    if n == 1 { assert r.parts[0] == renamed; } else { assert r.parts[0] == rel.parts[0]; }
  }

  /** Replacing the suffix of a child path and then joining it onto a directory is the same
      as joining first and replacing the suffix of the joined path. */
  lemma {:induction false} JoinWithSuffixCommutes(base: Path, rel: Path, suffix: string)
    requires IsChildPath(rel) && ValidSuffix(suffix)
    ensures WithSuffix(rel, suffix).Some? && WithSuffix(Join(base, rel), suffix).Some?
    ensures Join(base, WithSuffix(rel, suffix).value) == WithSuffix(Join(base, rel), suffix).value
  {
    JoinedName(base, rel);
    ChildName(rel);
    var n := |rel.parts|;
    var p := Join(base, rel);
    assert p.parts == base.parts + rel.parts;
    RenamedLast(rel, suffix);
    RenamedLast(p, suffix);
    RenamedChildIsRelative(rel, suffix);
    ReplaceLastOfConcat(base.parts, rel.parts, Stem(rel.parts[n - 1]) + suffix);
  }
}
