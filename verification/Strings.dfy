/** Sequence and string helpers that Python provides as built-ins: `str.split`, `str.join`,
    `str.find`, and string comparison with `sorted`.
  */
module Strings {

  datatype Option<+T> = None | Some(value: T)

  datatype Result<+T, +E> = Ok(value: T) | Err(error: E)

  /** All parts, one after the other. */
  function Concat<T>(parts: seq<seq<T>>): seq<T> {
    if parts == [] then [] else Concat(parts[..|parts| - 1]) + parts[|parts| - 1]
  }

  lemma {:induction false} ConcatEmpty<T>(parts: seq<seq<T>>)
    ensures Concat(parts) == [] <==> forall i :: 0 <= i < |parts| ==> parts[i] == []
  {
    if parts != [] {
      var front, last := parts[..|parts| - 1], parts[|parts| - 1];
      ConcatEmpty(front);
      assert Concat(parts) == Concat(front) + last;
      assert forall i :: 0 <= i < |front| ==> front[i] == parts[i];
    }
  }

  lemma {:induction false} ConcatHolds<T>(parts: seq<seq<T>>, x: T)
    ensures x in Concat(parts) <==> exists i :: 0 <= i < |parts| && x in parts[i]
  {
    if parts != [] {
      var front, last := parts[..|parts| - 1], parts[|parts| - 1];
      ConcatHolds(front, x);
      assert Concat(parts) == Concat(front) + last;
      assert forall i :: 0 <= i < |front| ==> front[i] == parts[i];
    }
  }

  /** With one part that may be non-empty, that part is everything. */
  lemma {:induction false} ConcatOnly<T>(parts: seq<seq<T>>, k: nat)
    requires k < |parts| && forall i :: 0 <= i < |parts| && i != k ==> parts[i] == []
    ensures Concat(parts) == parts[k]
  {
    var front := parts[..|parts| - 1];
    if k == |parts| - 1 {
      ConcatEmpty(front);
    } else {
      ConcatOnly(front, k);
    }
  }

  /** `s.split(c)` for a one-character separator: always at least one part. */
  function Split(s: string, c: char): (parts: seq<string>)
    ensures |parts| >= 1
  {
    if s == [] then [[]]
    else
      var rest := Split(s[1..], c);
      if s[0] == c then [[]] + rest else [[s[0]] + rest[0]] + rest[1..]
  }

  /** Every part preceded by the separator. */
  function LedBy(parts: seq<string>, c: char): string {
    if parts == [] then [] else [c] + parts[0] + LedBy(parts[1..], c)
  }

  ghost predicate Without(parts: seq<string>, c: char) {
    forall i :: 0 <= i < |parts| ==> c !in parts[i]
  }

  /** Splitting loses nothing: the parts are free of the separator and rebuild the string. */
  lemma {:induction false} SplitRebuilds(s: string, c: char)
    ensures Without(Split(s, c), c)
    ensures s == Split(s, c)[0] + LedBy(Split(s, c)[1..], c)
  {
    if s != [] {
      SplitRebuilds(s[1..], c);
      var rest := Split(s[1..], c);
      if s[0] == c {
        assert Split(s, c)[1..] == rest;
        assert LedBy(rest, c) == [c] + rest[0] + LedBy(rest[1..], c);
        assert s == [c] + s[1..];
      } else {
        assert Split(s, c)[1..] == rest[1..];
        assert s == [s[0]] + s[1..];
      }
    }
  }

  /** Splitting is inverse to joining: `parts` free of the separator come back unchanged. */
  lemma {:induction false} SplitJoined(a: string, parts: seq<string>, c: char)
    requires c !in a && Without(parts, c)
    ensures Split(a + LedBy(parts, c), c) == [a] + parts
    decreases |parts|, |a|
  {
    var s := a + LedBy(parts, c);
    if a != [] {
      SplitJoined(a[1..], parts, c);
      assert s[1..] == a[1..] + LedBy(parts, c);
      assert [a[0]] + a[1..] == a;
    } else if parts != [] {
      SplitJoined(parts[0], parts[1..], c);
      assert s[1..] == parts[0] + LedBy(parts[1..], c);
      assert [parts[0]] + parts[1..] == parts;
    } else {
      assert s == [];
    }
  }

  /** One more separator opens one more part. */
  lemma {:induction false} SplitAppend(s: string, part: string, c: char)
    requires c !in part
    ensures Split(s + [c] + part, c) == Split(s, c) + [part]
  {
    var whole := s + [c] + part;
    if s == [] {
      assert whole[1..] == part;
      SplitJoined(part, [], c);
      assert part + LedBy([], c) == part;
    } else {
      assert whole[1..] == s[1..] + [c] + part;
      SplitAppend(s[1..], part, c);
    }
  }

  lemma {:induction false} LedByAppend(a: seq<string>, b: seq<string>, c: char)
    ensures LedBy(a + b, c) == LedBy(a, c) + LedBy(b, c)
  {
    if a == [] {
      assert a + b == b;
    } else {
      LedByAppend(a[1..], b, c);
      assert (a + b)[1..] == a[1..] + b;
    }
  }

  /** Python's string order: code point by code point, a proper prefix first. */
  predicate StringLess(a: string, b: string) {
    b != [] && (a == [] || a[0] < b[0] || (a[0] == b[0] && StringLess(a[1..], b[1..])))
  }

  lemma {:induction false} StringLessTotal(a: string, b: string)
    ensures StringLess(a, b) || a == b || StringLess(b, a)
    ensures !(StringLess(a, b) && StringLess(b, a))
    ensures !StringLess(a, a)
  {
    if a != [] && b != [] {
      StringLessTotal(a[1..], b[1..]);
      assert a == [a[0]] + a[1..] && b == [b[0]] + b[1..];
    }
    if a != [] {
      StringLessTotal(a[1..], a[1..]);
    }
  }

  lemma {:induction false} StringLessTransitive(a: string, b: string, c: string)
    requires StringLess(a, b) && StringLess(b, c)
    ensures StringLess(a, c)
  {
    if a != [] && a[0] == b[0] == c[0] {
      StringLessTransitive(a[1..], b[1..], c[1..]);
    }
  }

  ghost predicate SmallerAt(a: string, b: string, k: nat) {
    k < |a| && k < |b| && a[..k] == b[..k] && a[k] < b[k]
  }

  lemma SmallerBehind(a: string, b: string, k: nat)
    requires a != [] && b != [] && a[0] == b[0]
    ensures SmallerAt(a, b, k + 1) <==> SmallerAt(a[1..], b[1..], k)
  {
    if k < |a| - 1 && k < |b| - 1 {
      assert a[..k + 1] == [a[0]] + a[1..][..k] && b[..k + 1] == [b[0]] + b[1..][..k];
      assert a[..k + 1][1..] == a[1..][..k] && b[..k + 1][1..] == b[1..][..k];
    }
  }

  /** The first difference decides, and without one the shorter string comes first. */
  lemma {:induction false} StringLessMeans(a: string, b: string)
    ensures StringLess(a, b) <==> a < b || exists k: nat :: SmallerAt(a, b, k)
  {
    if a != [] && b != [] && a[0] == b[0] {
      StringLessMeans(a[1..], b[1..]);
      forall k: nat
        ensures SmallerAt(a, b, k + 1) <==> SmallerAt(a[1..], b[1..], k)
      {
        SmallerBehind(a, b, k);
      }
      assert !SmallerAt(a, b, 0);
      assert a < b <==> a[1..] < b[1..] by {
        assert a == [a[0]] + a[1..] && b == [b[0]] + b[1..];
      }
      hide SmallerAt;
      if k: nat :| SmallerAt(a, b, k) {
        assert SmallerAt(a[1..], b[1..], k - 1) by {
          assert SmallerAt(a, b, (k - 1) + 1);
        }
      }
    } else if a != [] && b != [] && a[0] < b[0] {
      assert SmallerAt(a, b, 0);
    }
  }

  /** Ascending, repetitions allowed. */
  ghost predicate Ascending(s: seq<string>) {
    forall i, j :: 0 <= i < j < |s| ==> !StringLess(s[j], s[i])
  }

  /** `sorted` on strings, as an insertion sort. */
  function Sorted(s: seq<string>): seq<string> {
    if s == [] then [] else Insert(s[0], Sorted(s[1..]))
  }

  function Insert(x: string, s: seq<string>): seq<string> {
    if s == [] then [x]
    else if StringLess(s[0], x) then [s[0]] + Insert(x, s[1..])
    else [x] + s
  }

  lemma {:induction false} InsertKeeps(x: string, s: seq<string>)
    ensures multiset(Insert(x, s)) == multiset(s) + multiset{x}
  {
    if s != [] {
      assert s == [s[0]] + s[1..];
      InsertKeeps(x, s[1..]);
    }
  }

  lemma ConsAscending(x: string, s: seq<string>)
    requires Ascending(s) && forall y :: y in s ==> !StringLess(y, x)
    ensures Ascending([x] + s)
  {
    hide StringLess;
  }

  lemma LeastBefore(x: string, s: seq<string>, y: string)
    requires Ascending(s) && y in s && !StringLess(s[0], x)
    ensures !StringLess(y, x)
  {
    hide StringLess;
    var j :| 0 <= j < |s| && s[j] == y;
    if StringLess(y, x) {
      StringLessTotal(s[0], y);
      if StringLess(s[0], y) {
        StringLessTransitive(s[0], y, x);
      }
    }
  }

  lemma {:induction false} InsertAscending(x: string, s: seq<string>)
    requires Ascending(s)
    ensures Ascending(Insert(x, s))
  {
    hide StringLess, Ascending;
    if s != [] && StringLess(s[0], x) {
      var rest := Insert(x, s[1..]);
      assert Ascending(s[1..]) && forall y :: y in s[1..] ==> !StringLess(y, s[0]) by {
        RestAscending(s);
      }
      InsertAscending(x, s[1..]);
      InsertKeeps(x, s[1..]);
      StringLessTotal(s[0], x);
      forall y | y in rest
        ensures !StringLess(y, s[0])
      {
        assert y in multiset(rest);
      }
      ConsAscending(s[0], rest);
    } else if s != [] {
      forall y | y in s
        ensures !StringLess(y, x)
      {
        LeastBefore(x, s, y);
      }
      ConsAscending(x, s);
    } else {
      NothingAscends();
      ConsAscending(x, []);
      assert [x] + [] == [x];
    }
  }

  lemma NothingAscends()
    ensures Ascending([])
  {
  }

  lemma RestAscending(s: seq<string>)
    requires s != [] && Ascending(s)
    ensures Ascending(s[1..]) && forall y :: y in s[1..] ==> !StringLess(y, s[0])
  {
    hide StringLess;
  }

  /** `Sorted` sorts, and neither loses nor invents an element. */
  lemma {:induction false} SortedSorts(s: seq<string>)
    ensures Ascending(Sorted(s)) && multiset(Sorted(s)) == multiset(s)
  {
    if s != [] {
      SortedSorts(s[1..]);
      InsertAscending(s[0], Sorted(s[1..]));
      InsertKeeps(s[0], Sorted(s[1..]));
      assert s == [s[0]] + s[1..];
    }
  }

  lemma LeastFirst(s: seq<string>, x: string)
    requires Ascending(s) && x in multiset(s)
    ensures s != [] && !StringLess(x, s[0])
  {
    var i :| 0 <= i < |s| && s[i] == x;
    StringLessTotal(x, x);
  }

  lemma WithoutFirst(s: seq<string>)
    requires s != [] && Ascending(s)
    ensures Ascending(s[1..]) && multiset(s[1..]) == multiset(s) - multiset{s[0]}
  {
    assert s == [s[0]] + s[1..];
  }

  /** There is only one ascending arrangement of a multiset of strings. */
  lemma {:induction false} AscendingUnique(a: seq<string>, b: seq<string>)
    requires Ascending(a) && Ascending(b) && multiset(a) == multiset(b)
    ensures a == b
  {
    assert |a| == |multiset(a)| == |multiset(b)| == |b|;
    if a != [] {
      LeastFirst(a, b[0]);
      LeastFirst(b, a[0]);
      StringLessTotal(a[0], b[0]);
      WithoutFirst(a);
      WithoutFirst(b);
      AscendingUnique(a[1..], b[1..]);
      assert a == [a[0]] + a[1..] && b == [b[0]] + b[1..];
    }
  }

  /** Sorting forgets the input order and nothing else. */
  lemma SortedCanonical(a: seq<string>, b: seq<string>)
    ensures Sorted(a) == Sorted(b) <==> multiset(a) == multiset(b)
  {
    SortedSorts(a);
    SortedSorts(b);
    if multiset(a) == multiset(b) {
      AscendingUnique(Sorted(a), Sorted(b));
    }
  }

  // ---- white space ------------------------------------------------------------------------------

  /** `str.isspace`, character by character. */
  predicate IsSpace(c: char) {
    var n := c as int;
    9 <= n <= 13 || 28 <= n <= 32 || n == 0x85 || n == 0xA0 || n == 0x1680 || 0x2000 <= n <= 0x200A ||
    n == 0x2028 || n == 0x2029 || n == 0x202F || n == 0x205F || n == 0x3000
  }

  function StripLeft(s: string): string {
    if s != [] && IsSpace(s[0]) then StripLeft(s[1..]) else s
  }

  function StripRight(s: string): string {
    if s != [] && IsSpace(s[|s| - 1]) then StripRight(s[..|s| - 1]) else s
  }

  /** `str.strip`. */
  function Strip(s: string): string {
    StripRight(StripLeft(s))
  }

  /** `part in s`. */
  predicate Contains(s: string, part: string) {
    part <= s || (s != [] && Contains(s[1..], part))
  }

  /** `s[i..j]` is `s` without the white space around it. */
  ghost predicate Trims(s: string, i: nat, j: nat) {
    i <= j <= |s| && (forall k :: 0 <= k < i ==> IsSpace(s[k])) && (forall k :: j <= k < |s| ==> IsSpace(s[k])) &&
    (i < j ==> !IsSpace(s[i]) && !IsSpace(s[j - 1]))
  }

  lemma {:induction false} StripLeftMeans(s: string) returns (i: nat)
    ensures i <= |s| && StripLeft(s) == s[i..] && (forall k :: 0 <= k < i ==> IsSpace(s[k]))
    ensures i < |s| ==> !IsSpace(s[i])
  {
    if s != [] && IsSpace(s[0]) {
      i := StripLeftMeans(s[1..]);
      forall k | 0 <= k < i + 1
        ensures IsSpace(s[k])
      {
        assert k > 0 ==> s[k] == s[1..][k - 1];
      }
      i := i + 1;
    } else {
      i := 0;
    }
  }

  lemma {:induction false} StripRightMeans(s: string) returns (j: nat)
    ensures j <= |s| && StripRight(s) == s[..j] && (forall k :: j <= k < |s| ==> IsSpace(s[k]))
    ensures j > 0 ==> !IsSpace(s[j - 1])
  {
    if s != [] && IsSpace(s[|s| - 1]) {
      j := StripRightMeans(s[..|s| - 1]);
      forall k | j <= k < |s|
        ensures IsSpace(s[k])
      {
        assert k < |s| - 1 ==> s[k] == s[..|s| - 1][k];
      }
      assert s[..|s| - 1][..j] == s[..j];
    } else {
      j := |s|;
    }
  }

  lemma StripMeans(s: string) returns (i: nat, j: nat)
    ensures Trims(s, i, j) && Strip(s) == s[i..j]
  {
    i := StripLeftMeans(s);
    var n := StripRightMeans(s[i..]);
    j := i + n;
    assert s[i..][..n] == s[i..j];
    forall k | j <= k < |s|
      ensures IsSpace(s[k])
    {
      assert s[k] == s[i..][k - i];
    }
  }

  lemma {:induction false} ContainsMeans(s: string, part: string)
    ensures Contains(s, part) <==> exists i :: 0 <= i <= |s| && part <= s[i..]
  {
    if s != [] {
      ContainsMeans(s[1..], part);
      if i :| 0 <= i <= |s| && part <= s[i..] {
        assert i > 0 ==> s[1..][i - 1..] == s[i..];
      }
      if i :| 0 <= i <= |s[1..]| && part <= s[1..][i..] {
        assert s[1..][i..] == s[i + 1..];
      }
    }
    assert s[0..] == s;
  }

  /** The first part is what comes before the first separator. */
  lemma SplitFirst(s: string, c: char) returns (n: nat)
    ensures n <= |s| && Split(s, c)[0] == s[..n] && c !in s[..n] && (n < |s| ==> s[n] == c)
  {
    SplitRebuilds(s, c);
    n := |Split(s, c)[0]|;
  }

  /** The last part is what comes after the last separator. */
  lemma {:induction false} SplitLast(s: string, c: char) returns (n: nat)
    ensures var parts := Split(s, c);
            n <= |s| && parts[|parts| - 1] == s[n..] && c !in s[n..] && (n > 0 ==> s[n - 1] == c)
  {
    if s == [] {
      n := 0;
    } else {
      var rest := Split(s[1..], c);
      var m := SplitLast(s[1..], c);
      if s[0] == c || |rest| > 1 {
        n := m + 1;
        assert s[1..][m..] == s[n..];
        assert n > 1 ==> s[n - 1] == s[1..][m - 1];
        if s[0] != c && m == 0 {
          SplitRebuilds(s[1..], c);
          SplitSingle(s[1..], c);
        }
      } else {
        n := 0;
        SplitRebuilds(s[1..], c);
        assert s == [s[0]] + s[1..];
        assert LedBy(rest[1..], c) == [];
      }
    }
  }

  lemma SplitSingle(s: string, c: char)
    ensures |Split(s, c)| == 1 <==> c !in s
  {
    SplitRebuilds(s, c);
    if c !in s {
      SplitJoined(s, [], c);
      assert s + LedBy([], c) == s;
    }
  }
}
