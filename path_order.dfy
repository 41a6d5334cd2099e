/** The order `sorted()` puts paths in: pathlib compares POSIX paths part by part, and two
    parts as Python compares strings, code point by code point. */
module PathOrder {
  import opened Paths

  /** `a <= b` on strings. */
  predicate StrLe(a: string, b: string) {
    |a| == 0 || (|b| > 0 && (if a[0] == b[0] then StrLe(a[1..], b[1..]) else a[0] < b[0]))
  }

  /** `a <= b` on sequences of parts, each part compared with StrLe. */
  predicate PartsLe(a: seq<string>, b: seq<string>) {
    |a| == 0 || (|b| > 0 && (if a[0] == b[0] then PartsLe(a[1..], b[1..]) else StrLe(a[0], b[0])))
  }

  predicate PathLe(p: Path, q: Path) {
    PartsLe(p.parts, q.parts)
  }

  lemma {:induction false} StrLeReflexive(a: string)
    ensures StrLe(a, a)
  {
    if |a| > 0 { StrLeReflexive(a[1..]); }
  }

  lemma {:induction false} StrLeTotal(a: string, b: string)
    ensures StrLe(a, b) || StrLe(b, a)
  {
    if |a| > 0 && |b| > 0 && a[0] == b[0] { StrLeTotal(a[1..], b[1..]); }
  }

  lemma {:induction false} StrLeAntisymmetric(a: string, b: string)
    requires StrLe(a, b) && StrLe(b, a)
    ensures a == b
  {
    if |a| > 0 && |b| > 0 {
      StrLeAntisymmetric(a[1..], b[1..]);
      assert a == [a[0]] + a[1..] && b == [b[0]] + b[1..];
    }
  }

  lemma {:induction false} StrLeTransitive(a: string, b: string, c: string)
    requires StrLe(a, b) && StrLe(b, c)
    ensures StrLe(a, c)
  {
    if |a| > 0 && a[0] == b[0] && b[0] == c[0] { StrLeTransitive(a[1..], b[1..], c[1..]); }
  }

  lemma {:induction false} PartsLeReflexive(a: seq<string>)
    ensures PartsLe(a, a)
  {
    if |a| > 0 { PartsLeReflexive(a[1..]); }
  }

  lemma {:induction false} PartsLeTotal(a: seq<string>, b: seq<string>)
    ensures PartsLe(a, b) || PartsLe(b, a)
  {
    if |a| > 0 && |b| > 0 {
      if a[0] == b[0] { PartsLeTotal(a[1..], b[1..]); } else { StrLeTotal(a[0], b[0]); }
    }
  }

  lemma {:induction false} PartsLeAntisymmetric(a: seq<string>, b: seq<string>)
    requires PartsLe(a, b) && PartsLe(b, a)
    ensures a == b
  {
    if |a| > 0 && |b| > 0 {
      if a[0] == b[0] {
        PartsLeAntisymmetric(a[1..], b[1..]);
        assert a == [a[0]] + a[1..] && b == [b[0]] + b[1..];
      } else {
        StrLeAntisymmetric(a[0], b[0]);
      }
    }
  }

  lemma {:induction false} PartsLeTransitive(a: seq<string>, b: seq<string>, c: seq<string>)
    requires PartsLe(a, b) && PartsLe(b, c)
    ensures PartsLe(a, c)
  {
    if |a| > 0 {
      if a[0] == b[0] && b[0] == c[0] {
        PartsLeTransitive(a[1..], b[1..], c[1..]);
      } else if a[0] != b[0] && b[0] != c[0] {
        StrLeTransitive(a[0], b[0], c[0]);
        if a[0] == c[0] { StrLeAntisymmetric(a[0], b[0]); }
      }
    }
  }

  /** Paths are totally ordered: any two compare, and only equal paths compare both ways. */
  lemma PathLeTotalOrder(p: Path, q: Path, r: Path)
    ensures PathLe(p, p)
    ensures PathLe(p, q) || PathLe(q, p)
    ensures PathLe(p, q) && PathLe(q, p) ==> p == q
    ensures PathLe(p, q) && PathLe(q, r) ==> PathLe(p, r)
  {
    PartsLeReflexive(p.parts);
    PartsLeTotal(p.parts, q.parts);
    if PathLe(p, q) && PathLe(q, p) { PartsLeAntisymmetric(p.parts, q.parts); }
    if PathLe(p, q) && PathLe(q, r) { PartsLeTransitive(p.parts, q.parts, r.parts); }
  }

  ghost predicate Sorted(s: seq<Path>) {
    forall i, j :: 0 <= i < j < |s| ==> PathLe(s[i], s[j])
  }

  /** Inserts `x` before the first element it does not exceed. */
  function Insert(x: Path, s: seq<Path>): (r: seq<Path>)
    ensures multiset(r) == multiset(s) + multiset{x}
  {
    if |s| == 0 then [x]
    else if PathLe(x, s[0]) then [x] + s
    else
      assert s == [s[0]] + s[1..];
      [s[0]] + Insert(x, s[1..])
  }

  lemma {:induction false} InsertKeepsSorted(x: Path, s: seq<Path>)
    requires Sorted(s)
    ensures Sorted(Insert(x, s))
  {
    if |s| == 0 {
    } else if PathLe(x, s[0]) {
      forall j | 0 < j < |s| ensures PathLe(x, s[j]) { PathLeTotalOrder(x, s[0], s[j]); }
    } else {
      var tail := Insert(x, s[1..]);
      InsertKeepsSorted(x, s[1..]);
      PathLeTotalOrder(x, s[0], x);
      forall e | e in tail ensures PathLe(s[0], e) {
        assert e in multiset(tail);
        if e != x {
          assert e in s[1..];
          var k :| 0 <= k < |s[1..]| && s[1..][k] == e;
          assert s[k + 1] == e;
        }
      }
      assert Insert(x, s) == [s[0]] + tail;
    }
  }

  /** `sorted(paths)`: insertion sort, which for a total order gives the same list as
      Python's sort (see SortedIsUnique). */
  function SortPaths(s: seq<Path>): (r: seq<Path>)
    ensures multiset(r) == multiset(s)
    ensures Sorted(r)
  {
    if |s| == 0 then []
    else
      var rest := SortPaths(s[1..]);
      InsertKeepsSorted(s[0], rest);
      assert s == [s[0]] + s[1..];
      Insert(s[0], rest)
  }

  lemma SortedTail(a: seq<Path>)
    requires Sorted(a) && |a| > 0
    ensures Sorted(a[1..])
  {
    forall x, y | 0 <= x < y < |a[1..]| ensures PathLe(a[1..][x], a[1..][y]) {
      assert a[1..][x] == a[x + 1] && a[1..][y] == a[y + 1];
    }
  }

  lemma MultisetTail<T>(a: seq<T>)
    requires |a| > 0
    ensures multiset(a[1..]) == multiset(a) - multiset{a[0]}
  {
    assert a == [a[0]] + a[1..];
  }

  /** The first element of a sorted sequence is a least element of it. */
  lemma SameHead(a: seq<Path>, b: seq<Path>)
    requires Sorted(a) && Sorted(b) && multiset(a) == multiset(b) && |a| > 0
    ensures |b| > 0 && a[0] == b[0]
  {
    assert |b| > 0 by { assert |multiset(b)| == |multiset(a)| > 0; }
    assert a[0] in multiset(b) && b[0] in multiset(a);
    var i :| 0 <= i < |a| && a[i] == b[0];
    var j :| 0 <= j < |b| && b[j] == a[0];
    PathLeTotalOrder(a[0], b[0], a[0]);
    if i > 0 { assert PathLe(a[0], a[i]); }
    if j > 0 { assert PathLe(b[0], b[j]); }
  }

  /** Two sorted arrangements of the same paths are identical, so the result of sorting does
      not depend on the order the paths were found in. */
  lemma {:induction false} SortedIsUnique(a: seq<Path>, b: seq<Path>)
    requires Sorted(a) && Sorted(b) && multiset(a) == multiset(b)
    ensures a == b
  {
    if |a| == 0 {
      assert |multiset(b)| == 0;
    } else {
      SameHead(a, b);
      MultisetTail(a);
      MultisetTail(b);
      SortedTail(a);
      SortedTail(b);
      SortedIsUnique(a[1..], b[1..]);
      assert a == [a[0]] + a[1..] && b == [b[0]] + b[1..];
    }
  }

  /** Sorting is insensitive to the order of its input. */
  lemma SortPathsOrderIndependent(s: seq<Path>, t: seq<Path>)
    requires multiset(s) == multiset(t)
    ensures SortPaths(s) == SortPaths(t)
  {
    SortedIsUnique(SortPaths(s), SortPaths(t));
  }
}
