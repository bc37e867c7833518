/**
 * The JavaScript string built-ins the services rely on: `split` and `join` with a
 * one-character separator, and the default ordering used by `Array.prototype.sort`.
 */
module Strings {

  /** `s.split(sep)`: the pieces between occurrences of `sep`, in order. */
  function Split(s: string, sep: char): (parts: seq<string>)
    ensures |parts| >= 1
    ensures forall i :: 0 <= i < |parts| ==> sep !in parts[i]
    decreases |s|
  {
    if s == [] then [""]
    else
      var rest := Split(s[1..], sep);
      if s[0] == sep then [""] + rest
      else [[s[0]] + rest[0]] + rest[1..]
  }

  /** `parts.join(sep)`. */
  function Join(parts: seq<string>, sep: char): string
  {
    if |parts| == 0 then ""
    else if |parts| == 1 then parts[0]
    else parts[0] + [sep] + Join(parts[1..], sep)
  }

  lemma JoinCons(p: string, ps: seq<string>, sep: char)
    ensures Join([p] + ps, sep) == if ps == [] then p else p + [sep] + Join(ps, sep)
  {
    assert ([p] + ps)[1..] == ps;
  }

  /** Joining the pieces of a split gives the string back. */
  lemma {:induction false} JoinSplit(s: string, sep: char)
    ensures Join(Split(s, sep), sep) == s
    decreases |s|
  {
    if s != [] {
      var rest := Split(s[1..], sep);
      JoinSplit(s[1..], sep);
      if s[0] == sep {
        JoinCons("", rest, sep);
        assert s == [sep] + s[1..];
      } else {
        JoinCons([s[0]] + rest[0], rest[1..], sep);
        assert rest == [rest[0]] + rest[1..];
        JoinCons(rest[0], rest[1..], sep);
        assert s == [s[0]] + s[1..];
      }
    }
  }

  /** A string without the separator is a single piece. */
  lemma {:induction false} SplitWithoutSeparator(a: string, sep: char)
    requires sep !in a
    ensures Split(a, sep) == [a]
    decreases |a|
  {
    if a != [] {
      SplitWithoutSeparator(a[1..], sep);
      assert a == [a[0]] + a[1..];
    }
  }

  /** A separator-free prefix followed by the separator is split off as the first piece. */
  lemma {:induction false} SplitAfterPiece(a: string, b: string, sep: char)
    requires sep !in a
    ensures Split(a + [sep] + b, sep) == [a] + Split(b, sep)
    decreases |a|
  {
    var s := a + [sep] + b;
    if a == [] {
      assert s[1..] == b;
    } else {
      assert s[1..] == a[1..] + [sep] + b;
      SplitAfterPiece(a[1..], b, sep);
      assert a == [a[0]] + a[1..];
    }
  }

  /** The first piece is everything before the first separator. */
  lemma FirstPiece(a: string, rest: string, sep: char)
    requires sep !in a
    requires rest == [] || rest[0] == sep
    ensures Split(a + rest, sep)[0] == a
  {
    if rest == [] {
      assert a + rest == a;
      SplitWithoutSeparator(a, sep);
    } else {
      assert a + rest == a + [sep] + rest[1..];
      SplitAfterPiece(a, rest[1..], sep);
    }
  }

  /** Splitting a join of separator-free pieces gives the pieces back. */
  lemma {:induction false} SplitJoin(parts: seq<string>, sep: char)
    requires |parts| >= 1
    requires forall i :: 0 <= i < |parts| ==> sep !in parts[i]
    ensures Split(Join(parts, sep), sep) == parts
    decreases |parts|
  {
    if |parts| == 1 {
      SplitWithoutSeparator(parts[0], sep);
    } else {
      SplitJoin(parts[1..], sep);
      SplitAfterPiece(parts[0], Join(parts[1..], sep), sep);
      assert parts == [parts[0]] + parts[1..];
    }
  }

  /**
   * Strict lexicographic order on strings, character by character; the empty
   * string comes first. This is the order the default `sort()` puts keys in.
   */
  predicate Less(a: string, b: string)
    decreases |a|
  {
    |b| > 0 && (|a| == 0 || a[0] < b[0] || (a[0] == b[0] && Less(a[1..], b[1..])))
  }

  lemma {:induction false} LessIrreflexive(a: string)
    ensures !Less(a, a)
    decreases |a|
  {
    if |a| > 0 {
      LessIrreflexive(a[1..]);
    }
  }

  lemma {:induction false} LessTransitive(a: string, b: string, c: string)
    requires Less(a, b) && Less(b, c)
    ensures Less(a, c)
    decreases |a|
  {
    if |a| > 0 && a[0] == b[0] && b[0] == c[0] {
      LessTransitive(a[1..], b[1..], c[1..]);
    }
  }

  lemma {:induction false} LessAsymmetric(a: string, b: string)
    requires Less(a, b)
    ensures !Less(b, a)
    decreases |a|
  {
    if |a| > 0 && a[0] == b[0] {
      LessAsymmetric(a[1..], b[1..]);
    }
  }

  lemma {:induction false} LessTotal(a: string, b: string)
    requires a != b
    ensures Less(a, b) || Less(b, a)
    decreases |a|
  {
    if |a| > 0 && |b| > 0 && a[0] == b[0] {
      assert a == [a[0]] + a[1..];
      assert b == [b[0]] + b[1..];
      LessTotal(a[1..], b[1..]);
    }
  }

  /** Strictly increasing, hence also free of duplicates. */
  predicate Ascending(s: seq<string>)
  {
    forall i, j :: 0 <= i < j < |s| ==> Less(s[i], s[j])
  }

  predicate Distinct(s: seq<string>)
  {
    forall i, j :: 0 <= i < j < |s| ==> s[i] != s[j]
  }

  /** Insertion of one string into an ordered sequence. */
  function Insert(x: string, s: seq<string>): (r: seq<string>)
    ensures multiset(r) == multiset(s) + multiset{x}
    ensures Ascending(s) && x !in s ==> Ascending(r)
  {
    if s == [] then [x]
    else if Less(x, s[0]) then
      InsertFront(x, s);
      [x] + s
    else
      var tail := Insert(x, s[1..]);
      assert s == [s[0]] + s[1..];
      if Ascending(s) && x !in s then
        InsertBehind(x, s, tail);
        [s[0]] + tail
      else
        [s[0]] + tail
  }

  lemma InsertFront(x: string, s: seq<string>)
    requires s != [] && Less(x, s[0])
    ensures Ascending(s) ==> Ascending([x] + s)
  {
    if Ascending(s) {
      forall j | 0 < j < |s| ensures Less(x, s[j]) {
        LessTransitive(x, s[0], s[j]);
      }
    }
  }

  lemma InsertBehind(x: string, s: seq<string>, tail: seq<string>)
    requires s != [] && !Less(x, s[0]) && Ascending(s) && x !in s
    requires multiset(tail) == multiset(s[1..]) + multiset{x}
    requires Ascending(tail)
    ensures Ascending([s[0]] + tail)
  {
    LessTotal(x, s[0]);
    forall j | 0 <= j < |tail| ensures Less(s[0], tail[j]) {
      assert tail[j] in multiset(tail);
      if tail[j] != x {
        assert tail[j] in multiset(s[1..]);
        var k :| 0 <= k < |s[1..]| && s[1..][k] == tail[j];
        assert s[k + 1] == tail[j];
      }
    }
  }

  /** The ascending arrangement of a sequence of distinct strings (`names.sort()`). */
  function Sort(s: seq<string>): (r: seq<string>)
    ensures multiset(r) == multiset(s)
    ensures Distinct(s) ==> Ascending(r)
  {
    if s == [] then []
    else
      var tail := Sort(s[1..]);
      assert s == [s[0]] + s[1..];
      if Distinct(s) then
        assert Distinct(s[1..]);
        assert s[0] !in multiset(s[1..]);
        Insert(s[0], tail)
      else
        Insert(s[0], tail)
  }

  /** Two ascending sequences with the same elements are equal. */
  lemma {:induction false} AscendingUnique(a: seq<string>, b: seq<string>)
    requires Ascending(a) && Ascending(b) && |a| == |b|
    requires forall x :: x in a <==> x in b
    ensures a == b
    decreases |a|
  {
    if a != [] {
      assert a[0] in b && b[0] in a;
      var k :| 0 <= k < |b| && b[k] == a[0];
      var m :| 0 <= m < |a| && a[m] == b[0];
      if k != 0 && m != 0 {
        LessAsymmetric(b[0], a[0]);
        assert false;
      }
      assert a[0] == b[0];
      forall x ensures x in a[1..] <==> x in b[1..] {
        if x in a[1..] {
          var i :| 0 <= i < |a[1..]| && a[1..][i] == x;
          assert Less(a[0], a[i + 1]);
          LessIrreflexive(x);
          assert x in b;
        }
        if x in b[1..] {
          var i :| 0 <= i < |b[1..]| && b[1..][i] == x;
          assert Less(b[0], b[i + 1]);
          LessIrreflexive(x);
          assert x in a;
        }
      }
      AscendingUnique(a[1..], b[1..]);
      assert a == [a[0]] + a[1..];
      assert b == [b[0]] + b[1..];
    }
  }
}
