/** Optional values, used for lookups that may fail. */
module Wrappers {
  datatype Option<+T> = None | Some(value: T)
}

/**
 * The few string operations of Python's `str` that the scripts rely on,
 * with Python's semantics: `startswith`, the substring test `in`,
 * `split(sep)` with a non-empty separator and `sep.join(...)`.
 */
module Text {
  import opened Wrappers

  /** `s.startswith(p)` */
  predicate StartsWith(s: string, p: string) {
    |p| <= |s| && s[..|p|] == p
  }

  /** `sub in s`: some position of `s` starts an occurrence of `sub` (the empty string occurs everywhere). */
  predicate Contains(s: string, sub: string)
    decreases |s|
  {
    StartsWith(s, sub) || (|s| > 0 && Contains(s[1..], sub))
  }

  /** The leftmost occurrence of `sep` in `s`, as `str.find` gives it. */
  function Find(s: string, sep: string): (r: Option<nat>)
    requires |sep| > 0
    ensures r.Some? ==> r.value + |sep| <= |s|
    decreases |s|
  {
    if |s| < |sep| then
      None
    else if s[..|sep|] == sep then
      Some(0)
    else
      match Find(s[1..], sep)
      case None => None
      case Some(i) => Some(i + 1)
  }

  /** When `s.find(sep)` answers an index, `sep` occurs in `s` at that index. */
  lemma {:induction false} FindOccurs(s: string, sep: string)
    requires |sep| > 0
    ensures Find(s, sep).Some? ==> s[Find(s, sep).value..Find(s, sep).value + |sep|] == sep
    decreases |s|
  {
    if |s| >= |sep| && s[..|sep|] != sep && Find(s[1..], sep).Some? {
      var i := Find(s[1..], sep).value;
      FindOccurs(s[1..], sep);
      assert s[1..][i..i + |sep|] == s[i + 1..i + 1 + |sep|];
    }
  }

  /** `sep` occurs in `s` starting at index `k`. */
  predicate OccursAt(s: string, sep: string, k: nat) {
    k + |sep| <= |s| && s[k..k + |sep|] == sep
  }

  /**
   * `s.find(sep)` answers the leftmost occurrence of `sep`, and answers
   * nothing exactly when `sep` occurs nowhere in `s`.
   */
  lemma {:induction false} FindLeftmost(s: string, sep: string)
    requires |sep| > 0
    ensures Find(s, sep).Some? ==>
      OccursAt(s, sep, Find(s, sep).value) &&
      forall k: nat :: k < Find(s, sep).value ==> !OccursAt(s, sep, k)
    ensures Find(s, sep).None? <==> forall k: nat :: !OccursAt(s, sep, k)
    decreases |s|
  {
    FindOccurs(s, sep);
    if |s| >= |sep| {
      if s[..|sep|] == sep {
        assert OccursAt(s, sep, 0);
      } else {
        FindLeftmost(s[1..], sep);
        OccursShift(s, sep);
      }
    }
  }

  /** The occurrences in `s[1..]` are those in `s` after index 0, shifted by one. */
  lemma OccursShift(s: string, sep: string)
    requires |s| > 0
    ensures forall k: nat :: k >= 1 ==> OccursAt(s, sep, k) == OccursAt(s[1..], sep, k - 1)
  {
    forall k: nat | k >= 1 ensures OccursAt(s, sep, k) == OccursAt(s[1..], sep, k - 1) {
      if k + |sep| <= |s| {
        assert s[1..][k - 1..k - 1 + |sep|] == s[k..k + |sep|];
      }
    }
  }

  /** `sub in s` holds exactly when `sub` occurs in `s` at some index. */
  lemma {:induction false} ContainsOccurs(s: string, sub: string)
    ensures Contains(s, sub) <==> exists k: nat :: OccursAt(s, sub, k)
    decreases |s|
  {
    if StartsWith(s, sub) {
      assert OccursAt(s, sub, 0);
    } else if |s| > 0 {
      ContainsOccurs(s[1..], sub);
      assert !OccursAt(s, sub, 0);
      OccursShift(s, sub);
      if Contains(s, sub) {
        var k: nat :| OccursAt(s[1..], sub, k);
        assert OccursAt(s, sub, k + 1);
      }
    } else {
      assert !OccursAt(s, sub, 0);
    }
  }

  /** `s.split(sep)`: the pieces between the non-overlapping occurrences of `sep`, scanned left to right. */
  function Split(s: string, sep: string): (r: seq<string>)
    requires |sep| > 0
    ensures |r| >= 1
    decreases |s|
  {
    match Find(s, sep)
    case None => [s]
    case Some(i) => [s[..i]] + Split(s[i + |sep|..], sep)
  }

  /** `sep.join(xs)` */
  function Join(xs: seq<string>, sep: string): string
  {
    if |xs| == 0 then "" else if |xs| == 1 then xs[0] else xs[0] + sep + Join(xs[1..], sep)
  }

  /** Joining the pieces of `s.split(sep)` with `sep` gives `s` back. */
  lemma {:induction false} SplitJoin(s: string, sep: string)
    requires |sep| > 0
    ensures Join(Split(s, sep), sep) == s
    decreases |s|
  {
    var f := Find(s, sep);
    if f.Some? {
      var i := f.value;
      var rest := s[i + |sep|..];
      var tail := Split(rest, sep);
      assert Split(s, sep) == [s[..i]] + tail;
      SplitJoin(rest, sep);
      JoinCons(s[..i], tail, sep);
      FindOccurs(s, sep);
      Reassemble(s, sep, i);
    }
  }

  lemma JoinCons(a: string, tail: seq<string>, sep: string)
    requires |tail| > 0
    ensures Join([a] + tail, sep) == a + sep + Join(tail, sep)
  {
    assert ([a] + tail)[1..] == tail;
  }

  lemma Reassemble(s: string, sep: string, i: nat)
    requires i + |sep| <= |s| && s[i..i + |sep|] == sep
    ensures s[..i] + sep + s[i + |sep|..] == s
  {
  }

  /** A prefix that ends before the first occurrence of `sep` does not contain it. */
  lemma ClearPrefix(s: string, sep: string, i: nat)
    requires |sep| > 0 && i <= |s| && forall k: nat :: k < i ==> !OccursAt(s, sep, k)
    ensures !Contains(s[..i], sep)
  {
    ContainsOccurs(s[..i], sep);
    if Contains(s[..i], sep) {
      var k: nat :| OccursAt(s[..i], sep, k);
      assert s[..i][k..k + |sep|] == s[k..k + |sep|];
      assert OccursAt(s, sep, k);
    }
  }

  /** No piece of `s.split(sep)` contains `sep`. */
  lemma {:induction false} SplitPiecesClear(s: string, sep: string)
    requires |sep| > 0
    ensures forall k :: 0 <= k < |Split(s, sep)| ==> !Contains(Split(s, sep)[k], sep)
    decreases |s|
  {
    FindLeftmost(s, sep);
    match Find(s, sep)
    case None =>
      ClearPrefix(s, sep, |s|);
      assert s[..|s|] == s;
    case Some(i) =>
      var rest := s[i + |sep|..];
      SplitPiecesClear(rest, sep);
      ClearPrefix(s, sep, i);
      var r := Split(s, sep);
      assert r == [s[..i]] + Split(rest, sep);
      forall k | 0 <= k < |r| ensures !Contains(r[k], sep) {
        if k > 0 {
          assert r[k] == Split(rest, sep)[k - 1];
        }
      }
  }

  /** Joining two non-empty lists puts one separator between their joins. */
  lemma {:induction false} JoinAppend(a: seq<string>, b: seq<string>, sep: string)
    requires |a| > 0 && |b| > 0
    ensures Join(a + b, sep) == Join(a, sep) + sep + Join(b, sep)
  {
    if |a| == 1 {
      assert a + b == [a[0]] + b;
    } else {
      assert (a + b)[1..] == a[1..] + b;
      JoinAppend(a[1..], b, sep);
    }
  }

  /** One step of the scan: a first character that cannot start `sep` is skipped. */
  lemma FindSkipsFirst(s: string, sep: string)
    requires |sep| > 0 && |s| > 0 && s[0] != sep[0]
    ensures Find(s[1..], sep).None? ==> Find(s, sep).None?
    ensures Find(s[1..], sep).Some? ==> Find(s, sep) == Some(Find(s[1..], sep).value + 1)
  {
    if |s| >= |sep| {
      assert s[..|sep|][0] == s[0];
    }
  }

  /** The scan passes over the first `n` characters when none of them starts `sep`. */
  lemma {:induction false} FindPastClear(s: string, sep: string, n: nat)
    requires |sep| > 0 && n <= |s| && forall k :: 0 <= k < n ==> s[k] != sep[0]
    ensures Find(s[n..], sep).None? ==> Find(s, sep).None?
    ensures Find(s[n..], sep).Some? ==> Find(s, sep) == Some(n + Find(s[n..], sep).value)
    decreases n
  {
    if n == 0 {
      assert s[n..] == s;
    } else {
      var tail := s[1..];
      assert forall k :: 0 <= k < n - 1 ==> tail[k] == s[k + 1];
      FindPastClear(tail, sep, n - 1);
      assert tail[n - 1..] == s[n..];
      FindSkipsFirst(s, sep);
    }
  }

  /** A separator is first found after a prefix that does not contain its first character. */
  lemma FindAfterPrefix(p: string, q: string, sep: string)
    requires |sep| > 0 && sep[0] !in p
    ensures Find(p + q, sep) == match Find(q, sep) case None => None case Some(i) => Some(|p| + i)
  {
    var s := p + q;
    assert forall k :: 0 <= k < |p| ==> s[k] == p[k];
    assert s[|p|..] == q;
    FindPastClear(s, sep, |p|);
  }

  /** A separator whose first character does not occur in `s` is not found in it. */
  lemma FindAbsent(s: string, sep: string)
    requires |sep| > 0 && sep[0] !in s
    ensures Find(s, sep) == None
  {
    FindAfterPrefix(s, "", sep);
    assert s + "" == s;
  }

  /** Splitting `p + sep + q` when the separator's first character does not occur in `p`. */
  lemma SplitAtPrefix(p: string, q: string, sep: string)
    requires |sep| > 0 && sep[0] !in p
    ensures Split(p + sep + q, sep) == [p] + Split(q, sep)
  {
    FindAfterPrefix(p, sep + q, sep);
    assert (sep + q)[..|sep|] == sep;
    assert p + sep + q == p + (sep + q);
    assert (p + sep + q)[..|p|] == p;
    assert (p + sep + q)[|p| + |sep|..] == q;
  }

  /** The value of a decimal digit; the parsers below only meet digits '0' to '9'. */
  function DigitValue(c: char): nat {
    if '0' <= c <= '9' then c as int - '0' as int else 0
  }

  predicate IsDigits(s: string) {
    forall c :: c in s ==> '0' <= c <= '9'
  }

  /** Python's `int(s)` on a string of decimal digits. */
  function ParseNat(s: string): nat
  {
    if |s| == 0 then 0 else 10 * ParseNat(s[..|s| - 1]) + DigitValue(s[|s| - 1])
  }

  function Pow10(n: nat): nat {
    if n == 0 then 1 else 10 * Pow10(n - 1)
  }

  lemma ShiftDigit(x: int, p: int, y: int, d: int)
    ensures 10 * (x * p + y) + d == x * (10 * p) + (10 * y + d)
  {
  }

  /** The digits of `b` are the low-order digits of `a + b`. */
  lemma {:induction false} ParseNatAppend(a: string, b: string)
    ensures ParseNat(a + b) == ParseNat(a) * Pow10(|b|) + ParseNat(b)
    decreases |b|
  {
    if |b| == 0 {
      assert a + b == a;
    } else {
      var b' := b[..|b| - 1];
      var d := DigitValue(b[|b| - 1]);
      assert (a + b)[..|a + b| - 1] == a + b';
      assert (a + b)[|a + b| - 1] == b[|b| - 1];
      assert ParseNat(a + b) == 10 * ParseNat(a + b') + d;
      assert ParseNat(b) == 10 * ParseNat(b') + d;
      assert Pow10(|b|) == 10 * Pow10(|b'|);
      ParseNatAppend(a, b');
      ShiftDigit(ParseNat(a), Pow10(|b'|), ParseNat(b'), d);
    }
  }

  /** A number written with `n` digits is below `10^n`. */
  lemma {:induction false} ParseNatBound(s: string)
    ensures ParseNat(s) < Pow10(|s|)
  {
    if |s| > 0 {
      ParseNatBound(s[..|s| - 1]);
    }
  }

  /** Splitting a string in which the separator's first character does not occur gives the string alone. */
  lemma SplitAbsent(s: string, sep: string)
    requires |sep| > 0 && sep[0] !in s
    ensures Split(s, sep) == [s]
  {
    FindAbsent(s, sep);
  }
}
