/**
 * The sort key of an interface stanza. The scripts sort stanzas with the key
 * `list(map(int, re.findall('[0-9/]+(?=\n\s\s\s)', x)[0].split('/')))`: the
 * first run of digits and slashes that is followed by a line break and three
 * blanks, split on '/', each piece read as a decimal integer, the pieces
 * compared as a Python list. The key function raises IndexError when the
 * expression finds no match and ValueError when a piece is empty; `KeyOf`
 * answers None for both.
 */
module InterfaceKey {
  import opened Wrappers
  import opened Text

  predicate IsKeyChar(c: char) {
    '0' <= c <= '9' || c == '/'
  }

  /** The longest suffix of `s` made of digits and slashes. */
  function TrailingRun(s: string): (r: string)
    ensures |r| <= |s| && r == s[|s| - |r|..]
    ensures forall c :: c in r ==> IsKeyChar(c)
    ensures |r| < |s| ==> !IsKeyChar(s[|s| - |r| - 1])
  {
    if |s| > 0 && IsKeyChar(s[|s| - 1]) then TrailingRun(s[..|s| - 1]) + [s[|s| - 1]] else ""
  }

  /** `int(...)` succeeds on every slash-separated piece: no piece is empty. */
  predicate ValidNumerals(run: string) {
    |run| > 0 && forall piece :: piece in Split(run, "/") ==> |piece| > 0
  }

  function ParseEach(pieces: seq<string>): (r: seq<nat>)
    ensures |r| == |pieces|
    ensures forall i :: 0 <= i < |pieces| ==> r[i] == ParseNat(pieces[i])
  {
    if |pieces| == 0 then [] else [ParseNat(pieces[0])] + ParseEach(pieces[1..])
  }

  /** `list(map(int, run.split('/')))` */
  function Numerals(run: string): seq<nat> {
    ParseEach(Split(run, "/"))
  }

  /** Python's `\\s` on `str`: the characters for which `str.isspace()` holds. */
  predicate IsSpace(c: char) {
    c == ' ' || '\t' <= c <= '\r' || '\U{1C}' <= c <= '\U{1F}' || c == '\U{85}' || c == '\U{A0}' ||
    c == '\U{1680}' || '\U{2000}' <= c <= '\U{200A}' || c == '\U{2028}' || c == '\U{2029}' ||
    c == '\U{202F}' || c == '\U{205F}' || c == '\U{3000}'
  }

  /** The lookahead `(?=\\n\\s\\s\\s)`: a line break followed by three whitespace characters. */
  predicate Lookahead(t: string) {
    |t| >= 4 && t[0] == '\n' && IsSpace(t[1]) && IsSpace(t[2]) && IsSpace(t[3])
  }

  /** The lookahead holds at `l` only where `s` has a line break. */
  lemma LookaheadBreak(s: string, l: nat)
    ensures l <= |s| && Lookahead(s[l..]) ==> l < |s| && s[l] == '\n'
  {
    if l <= |s| && Lookahead(s[l..]) {
      assert s[l..][0] == s[l];
    }
  }

  /** The pattern `[0-9/]+(?=\\n\\s\\s\\s)` matches `s[i..j]`. */
  predicate MatchesAt(s: string, i: nat, j: nat) {
    i < j <= |s| && (forall k :: i <= k < j ==> IsKeyChar(s[k])) && Lookahead(s[j..])
  }

  /** The longest prefix of `s` made of digits and slashes. */
  function LeadingRun(s: string): (r: string)
    ensures |r| <= |s| && r == s[..|r|]
    ensures forall k :: 0 <= k < |r| ==> IsKeyChar(r[k])
    ensures |r| < |s| ==> !IsKeyChar(s[|r|])
  {
    if |s| > 0 && IsKeyChar(s[0]) then [s[0]] + LeadingRun(s[1..]) else ""
  }

  /**
   * `re.findall('[0-9/]+(?=\\n\\s\\s\\s)', s)[0]`, None when the list is empty.
   * The engine tries each start position from the left; at a digit or slash
   * the greedy run can only end at the end of the longest run, since a
   * shorter one is followed by a digit or slash rather than a line break.
   */
  function FirstMatch(s: string): (r: Option<string>)
    decreases |s|
  {
    if |s| == 0 then None
    else if IsKeyChar(s[0]) && Lookahead(s[|LeadingRun(s)|..]) then Some(LeadingRun(s))
    else FirstMatch(s[1..])
  }

  /** The longest run stops at the first character that is neither a digit nor a slash. */
  lemma {:induction false} LeadingRunBound(s: string, k: nat)
    requires k < |s| && !IsKeyChar(s[k])
    ensures |LeadingRun(s)| <= k
  {
    if k > 0 && IsKeyChar(s[0]) {
      assert s[1..][k - 1] == s[k];
      LeadingRunBound(s[1..], k - 1);
    }
  }

  /** A match starting at index 0 ends where the longest run ends. */
  lemma MatchAtStart(s: string, j: nat)
    requires |s| > 0
    ensures MatchesAt(s, 0, j) <==> IsKeyChar(s[0]) && j == |LeadingRun(s)| && Lookahead(s[j..])
  {
    var r := LeadingRun(s);
    if MatchesAt(s, 0, j) {
    }
    if IsKeyChar(s[0]) && j == |r| && Lookahead(s[j..]) {
      assert |r| > 0;
      forall k | 0 <= k < j ensures IsKeyChar(s[k]) {
        assert s[k] == r[k];
      }
    }
  }

  /** Matches in `s[1..]` are the matches in `s` that start after index 0, shifted by one. */
  lemma MatchShift(s: string)
    requires |s| > 0
    ensures forall i: nat, j: nat :: i >= 1 && j >= 1 ==> MatchesAt(s, i, j) == MatchesAt(s[1..], i - 1, j - 1)
  {
    forall i: nat, j: nat | i >= 1 && j >= 1 ensures MatchesAt(s, i, j) == MatchesAt(s[1..], i - 1, j - 1) {
      if i < j <= |s| {
        assert s[1..][j - 1..] == s[j..];
        assert forall k :: i - 1 <= k < j - 1 ==> s[1..][k] == s[k + 1];
      }
    }
  }

  /** A match can end in one place only: the character after a shorter one is not a line break. */
  lemma MatchEndUnique(s: string, i: nat, j: nat, j': nat)
    requires MatchesAt(s, i, j) && MatchesAt(s, i, j')
    ensures j == j'
  {
  }

  /** `s[i..j]` is a match and no match starts before it. */
  ghost predicate Leftmost(s: string, i: nat, j: nat) {
    MatchesAt(s, i, j) && forall k: nat, l: nat :: k < i ==> !MatchesAt(s, k, l)
  }

  /** The pattern matches nowhere in `s`. */
  ghost predicate NoMatch(s: string) {
    forall i: nat, j: nat :: !MatchesAt(s, i, j)
  }

  /** With no match at index 0, the leftmost match of `s[1..]` is the leftmost match of `s`. */
  lemma LeftmostAfterFirst(s: string, i: nat, j: nat)
    requires |s| > 0 && forall l: nat :: !MatchesAt(s, 0, l)
    requires Leftmost(s[1..], i, j)
    ensures Leftmost(s, i + 1, j + 1) && s[i + 1..j + 1] == s[1..][i..j]
  {
    MatchShift(s);
    assert MatchesAt(s, i + 1, j + 1) == MatchesAt(s[1..], i, j);
    assert s[1..][i..j] == s[i + 1..j + 1];
    forall k: nat, l: nat | k < i + 1 ensures !MatchesAt(s, k, l) {
      if k >= 1 && l >= 1 {
        assert !MatchesAt(s[1..], k - 1, l - 1);
      }
    }
  }

  /** With no match at index 0, `s` has a match exactly when `s[1..]` has one. */
  lemma NoMatchAfterFirst(s: string)
    requires |s| > 0 && forall l: nat :: !MatchesAt(s, 0, l)
    requires NoMatch(s[1..])
    ensures NoMatch(s)
  {
    MatchShift(s);
    forall i: nat, j: nat ensures !MatchesAt(s, i, j) {
      if i >= 1 && j >= 1 {
        assert !MatchesAt(s[1..], i - 1, j - 1);
      }
    }
  }

  /**
   * `FirstMatch` answers the leftmost match of the pattern, and nothing
   * exactly when the pattern matches nowhere.
   */
  lemma {:induction false} FirstMatchLeftmost(s: string)
    ensures FirstMatch(s).Some? ==> exists i: nat, j: nat :: Leftmost(s, i, j) && FirstMatch(s).value == s[i..j]
    ensures FirstMatch(s).None? <==> NoMatch(s)
    decreases |s|
  {
    if |s| > 0 {
      var n := |LeadingRun(s)|;
      MatchAtStart(s, n);
      if IsKeyChar(s[0]) && Lookahead(s[n..]) {
        assert Leftmost(s, 0, n) && FirstMatch(s).value == s[0..n];
      } else {
        forall l: nat ensures !MatchesAt(s, 0, l) {
          MatchAtStart(s, l);
        }
        FirstMatchLeftmost(s[1..]);
        if FirstMatch(s[1..]).Some? {
          var i: nat, j: nat :| Leftmost(s[1..], i, j) && FirstMatch(s[1..]).value == s[1..][i..j];
          LeftmostAfterFirst(s, i, j);
        } else {
          NoMatchAfterFirst(s);
        }
      }
    }
  }

  /** A match with no match starting before it is the one `FirstMatch` answers. */
  lemma FirstMatchIs(s: string, i: nat, j: nat)
    requires Leftmost(s, i, j)
    ensures FirstMatch(s) == Some(s[i..j])
  {
    FirstMatchLeftmost(s);
    var i': nat, j': nat :| Leftmost(s, i', j') && FirstMatch(s).value == s[i'..j'];
    assert !(i < i') && !(i' < i);
    MatchEndUnique(s, i, j, j');
  }

  /**
   * The key of a block, None where the script's key function raises:
   * IndexError when the pattern matches nowhere, ValueError when `int`
   * meets an empty piece of the matched run.
   */
  function KeyOf(x: string): Option<seq<nat>> {
    match FirstMatch(x)
    case None => None
    case Some(run) => if ValidNumerals(run) then Some(Numerals(run)) else None
  }

  predicate HasKey(x: string) {
    KeyOf(x).Some?
  }

  /** The sort key of a block; blocks without a key (the scripts crash on them) get the empty list. */
  function SortKey(x: string): seq<nat> {
    match KeyOf(x)
    case Some(k) => k
    case None => []
  }

  /** An interface name whose stanza has a key: one line, ending in well-formed numerals. */
  predicate ValidIdentity(name: string) {
    '\n' !in name && ValidNumerals(TrailingRun(name))
  }

  /** The key that an interface name gives its stanza ("Ethernet1/2" gives [1, 2]). */
  function NameKey(name: string): seq<nat> {
    Numerals(TrailingRun(name))
  }

  /** Python's `a < b` on lists of integers: lexicographic, a proper prefix is smaller. */
  predicate KeyLess(a: seq<nat>, b: seq<nat>) {
    if |a| == 0 then |b| > 0
    else |b| > 0 && (a[0] < b[0] || (a[0] == b[0] && KeyLess(a[1..], b[1..])))
  }

  lemma {:induction false} KeyLessIrreflexive(a: seq<nat>)
    ensures !KeyLess(a, a)
  {
    if |a| > 0 {
      KeyLessIrreflexive(a[1..]);
    }
  }

  lemma {:induction false} KeyLessTransitive(a: seq<nat>, b: seq<nat>, c: seq<nat>)
    requires KeyLess(a, b) && KeyLess(b, c)
    ensures KeyLess(a, c)
  {
    if |a| > 0 && a[0] == b[0] && b[0] == c[0] {
      KeyLessTransitive(a[1..], b[1..], c[1..]);
    }
  }

  lemma {:induction false} KeyLessTotal(a: seq<nat>, b: seq<nat>)
    ensures a == b || KeyLess(a, b) || KeyLess(b, a)
  {
    if |a| > 0 && |b| > 0 && a[0] == b[0] {
      KeyLessTotal(a[1..], b[1..]);
      if a[1..] == b[1..] {
        assert a == [a[0]] + a[1..] && b == [b[0]] + b[1..];
      }
    }
  }

  /** "Not greater than" is transitive, which is what the stable sort relies on. */
  lemma NotLessTransitive(a: seq<nat>, b: seq<nat>, c: seq<nat>)
    requires !KeyLess(b, a) && !KeyLess(c, b)
    ensures !KeyLess(c, a)
  {
    KeyLessTotal(a, b);
    if KeyLess(c, a) {
      if KeyLess(a, b) {
        KeyLessTransitive(c, a, b);
      }
    }
  }

  lemma KeyLessAsymmetric(a: seq<nat>, b: seq<nat>)
    requires KeyLess(a, b)
    ensures !KeyLess(b, a)
  {
    if KeyLess(b, a) {
      KeyLessTransitive(a, b, a);
      KeyLessIrreflexive(a);
    }
  }

  /** A prefix that ends in a blank does not extend the trailing run. */
  lemma {:induction false} TrailingRunAfter(p: string, n: string)
    requires |p| > 0 && !IsKeyChar(p[|p| - 1])
    ensures TrailingRun(p + n) == TrailingRun(n)
    decreases |n|
  {
    if |n| == 0 {
      assert p + n == p;
    } else {
      assert (p + n)[..|p + n| - 1] == p + n[..|n| - 1];
      assert (p + n)[|p + n| - 1] == n[|n| - 1];
      if IsKeyChar(n[|n| - 1]) {
        TrailingRunAfter(p, n[..|n| - 1]);
      }
    }
  }

  /** A string of digits and slashes is its own trailing run. */
  lemma {:induction false} TrailingRunWhole(s: string)
    requires forall k :: 0 <= k < |s| ==> IsKeyChar(s[k])
    ensures TrailingRun(s) == s
  {
    if |s| > 0 {
      var init, last := s[..|s| - 1], s[|s| - 1];
      assert s == init + [last];
      assert forall k :: 0 <= k < |init| ==> init[k] == s[k];
      TrailingRunWhole(init);
      assert TrailingRun(s) == TrailingRun(init) + [last];
    }
  }

  lemma DigitsAreKeyChars(a: string)
    requires IsDigits(a)
    ensures forall k :: 0 <= k < |a| ==> IsKeyChar(a[k])
  {
    forall k | 0 <= k < |a| ensures IsKeyChar(a[k]) {
      assert a[k] in a;
    }
  }

  /** A name "<prefix><a>" with a digit string `a` has the key [a]. */
  lemma NameKeyOne(prefix: string, a: string)
    requires |prefix| > 0 && !IsKeyChar(prefix[|prefix| - 1])
    requires IsDigits(a)
    ensures NameKey(prefix + a) == [ParseNat(a)]
  {
    TrailingRunAfter(prefix, a);
    DigitsAreKeyChars(a);
    TrailingRunWhole(a);
    assert '/' !in a;
    SplitAbsent(a, "/");
  }

  lemma SplitTwo(a: string, b: string)
    requires '/' !in a && '/' !in b
    ensures Split(a + "/" + b, "/") == [a, b]
  {
    SplitAtPrefix(a, b, "/");
    SplitAbsent(b, "/");
  }

  /** The run "<a>/<b>" of two digit strings is made of key characters only. */
  lemma RunTwoKeyChars(a: string, b: string)
    requires IsDigits(a) && IsDigits(b)
    ensures forall k :: 0 <= k < |a + "/" + b| ==> IsKeyChar((a + "/" + b)[k])
  {
    DigitsAreKeyChars(a);
    DigitsAreKeyChars(b);
    var run := a + "/" + b;
    forall k | 0 <= k < |run| ensures IsKeyChar(run[k]) {
      if k < |a| {
        assert run[k] == a[k];
      } else if k > |a| {
        assert run[k] == b[k - |a| - 1];
      }
    }
  }

  lemma TrailingRunTwo(prefix: string, a: string, b: string)
    requires |prefix| > 0 && !IsKeyChar(prefix[|prefix| - 1])
    requires IsDigits(a) && IsDigits(b)
    ensures TrailingRun(prefix + a + "/" + b) == a + "/" + b
  {
    var run := a + "/" + b;
    assert prefix + a + "/" + b == prefix + run;
    TrailingRunAfter(prefix, run);
    RunTwoKeyChars(a, b);
    TrailingRunWhole(run);
  }

  /** A name "<prefix><a>/<b>" with digit strings `a` and `b` has the key [a, b]. */
  lemma NameKeyTwo(prefix: string, a: string, b: string)
    requires |prefix| > 0 && !IsKeyChar(prefix[|prefix| - 1])
    requires IsDigits(a) && IsDigits(b)
    ensures NameKey(prefix + a + "/" + b) == [ParseNat(a), ParseNat(b)]
  {
    TrailingRunTwo(prefix, a, b);
    assert '/' !in a && '/' !in b;
    SplitTwo(a, b);
  }

  /**
   * Keys compare numerically, piece by piece: with the same first number, the
   * second numbers decide as numbers, not as text ("1/2" sorts before "1/10").
   */
  lemma KeyOrderMinor(prefix: string, a: string, b: string, c: string)
    requires |prefix| > 0 && !IsKeyChar(prefix[|prefix| - 1])
    requires IsDigits(a) && IsDigits(b) && IsDigits(c) && ParseNat(b) < ParseNat(c)
    ensures KeyLess(NameKey(prefix + a + "/" + b), NameKey(prefix + a + "/" + c))
  {
    NameKeyTwo(prefix, a, b);
    NameKeyTwo(prefix, a, c);
  }

  /** The first number decides before the second: "1/10" sorts before "2/1". */
  lemma KeyOrderMajor(prefix: string, a: string, b: string, c: string, d: string)
    requires |prefix| > 0 && !IsKeyChar(prefix[|prefix| - 1])
    requires IsDigits(a) && IsDigits(b) && IsDigits(c) && IsDigits(d) && ParseNat(a) < ParseNat(c)
    ensures KeyLess(NameKey(prefix + a + "/" + b), NameKey(prefix + c + "/" + d))
  {
    NameKeyTwo(prefix, a, b);
    NameKeyTwo(prefix, c, d);
  }

  /** A key that is a proper prefix of another sorts first: "3" sorts before "3/1". */
  lemma KeyOrderPrefix(prefix: string, a: string, b: string)
    requires |prefix| > 0 && !IsKeyChar(prefix[|prefix| - 1])
    requires IsDigits(a) && IsDigits(b)
    ensures KeyLess(NameKey(prefix + a), NameKey(prefix + a + "/" + b))
  {
    NameKeyOne(prefix, a);
    NameKeyTwo(prefix, a, b);
  }

  /** The trailing run of a one-line header, followed by an indented line, is a match. */
  lemma HeadRunMatches(head: string, rest: string)
    requires StartsWith(rest, "\n   ") && |TrailingRun(head)| > 0
    ensures MatchesAt(head + rest, |head| - |TrailingRun(head)|, |head|)
  {
    var run := TrailingRun(head);
    RunThenIndent(head, |head| - |run|, rest);
  }

  lemma RunThenIndent(head: string, i: nat, rest: string)
    requires i < |head| && forall k :: i <= k < |head| ==> IsKeyChar(head[k])
    requires StartsWith(rest, "\n   ")
    ensures MatchesAt(head + rest, i, |head|)
  {
    var x := head + rest;
    assert x[|head|..] == rest;
    assert rest[0] == '\n' && rest[1] == ' ' && rest[2] == ' ' && rest[3] == ' ' by {
      assert rest[..4] == "\n   ";
    }
    assert forall k :: i <= k < |head| ==> x[k] == head[k];
  }

  /**
   * In a text whose first line break is at `h`, no match starts before a
   * character `x[i - 1]` (ahead of that break) that is neither digit nor slash.
   */
  lemma NotMatchBefore(x: string, h: nat, i: nat)
    requires h < |x| && x[h] == '\n' && forall p :: 0 <= p < h ==> x[p] != '\n'
    requires i <= h && (0 < i ==> !IsKeyChar(x[i - 1]))
    ensures forall k: nat, l: nat :: k < i ==> !MatchesAt(x, k, l)
  {
    forall k: nat, l: nat | k < i ensures !MatchesAt(x, k, l) {
      LookaheadBreak(x, l);
    }
  }

  /**
   * No match starts before position `i` of a one-line header when `i` is
   * preceded by a character that is neither digit nor slash.
   */
  lemma NoMatchBeforeRun(head: string, rest: string, i: nat)
    requires forall k :: 0 <= k < |head| ==> head[k] != '\n'
    requires StartsWith(rest, "\n   ")
    requires i <= |head| && (0 < i ==> !IsKeyChar(head[i - 1]))
    ensures forall k: nat, l: nat :: k < i ==> !MatchesAt(head + rest, k, l)
  {
    var x := head + rest;
    assert rest[..4][0] == '\n';
    assert x[|head|] == '\n';
    assert forall p :: 0 <= p < |head| ==> x[p] != '\n' by {
      forall p | 0 <= p < |head| ensures x[p] != '\n' {
        assert x[p] == head[p];
      }
    }
    assert 0 < i ==> !IsKeyChar(x[i - 1]) by {
      if 0 < i {
        assert x[i - 1] == head[i - 1];
      }
    }
    NotMatchBefore(x, |head|, i);
  }

  /** The first match in a one-line header followed by an indented line is the header's trailing run. */
  lemma HeadMatch(head: string, rest: string)
    requires forall k :: 0 <= k < |head| ==> head[k] != '\n'
    requires StartsWith(rest, "\n   ") && |TrailingRun(head)| > 0
    ensures FirstMatch(head + rest) == Some(TrailingRun(head))
  {
    var x, run := head + rest, TrailingRun(head);
    var i := |head| - |run|;
    HeadRunMatches(head, rest);
    NoMatchBeforeRun(head, rest, i);
    FirstMatchIs(x, i, |head|);
    assert x[i..|head|] == head[i..];
  }

  /**
   * A stanza "interface <name>" followed by an indented line has a key, and
   * the key is the one its interface name gives.
   */
  lemma StanzaKey(name: string, rest: string)
    requires ValidIdentity(name) && StartsWith(rest, "\n   ")
    ensures HasKey("interface " + name + rest)
    ensures SortKey("interface " + name + rest) == NameKey(name)
  {
    var head := "interface " + name;
    assert "interface " + name + rest == head + rest;
    assert forall k :: 0 <= k < |head| ==> head[k] != '\n' by {
      forall k | 0 <= k < |head| ensures head[k] != '\n' {
        if k >= 10 {
          assert head[k] == name[k - 10];
          assert name[k - 10] in name;
        }
      }
    }
    TrailingRunAfter("interface ", name);
    HeadMatch(head, rest);
  }

  /**
   * A header line that ends in neither a digit nor a slash leaves the key to
   * the lines after it: the key of "interface Ethernet\n   description 500"
   * is the one of "\n   description 500".
   */
  lemma {:induction false} KeyFromLaterLines(head: string, rest: string)
    requires |head| > 0 && !IsKeyChar(head[|head| - 1])
    requires forall k :: 0 <= k < |head| ==> head[k] != '\n'
    ensures FirstMatch(head + rest) == FirstMatch(rest)
    ensures KeyOf(head + rest) == KeyOf(rest)
    decreases |head|
  {
    var x := head + rest;
    var r := LeadingRun(x);
    if IsKeyChar(x[0]) {
      assert x[|head| - 1] == head[|head| - 1];
      LeadingRunBound(x, |head| - 1);
      assert x[|r|] == head[|r|];
      assert x[|r|..][0] == x[|r|];
    }
    assert x[1..] == head[1..] + rest;
    if |head| > 1 {
      KeyFromLaterLines(head[1..], rest);
    } else {
      assert head[1..] + rest == rest;
    }
  }
}
