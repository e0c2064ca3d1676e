/** The JavaScript string operations the model relies on, over `seq<char>`. */
module Strings {

  /** `s.startsWith(p)`. */
  predicate StartsWith(s: string, p: string) {
    p <= s
  }

  /** `s.includes(p)`: `p` occurs somewhere in `s`. */
  predicate Contains(s: string, p: string) {
    exists i :: 0 <= i <= |s| && StartsWith(s[i..], p)
  }

  // ---------------------------------------------------------------------------
  // Case mapping. Only the ASCII letters are mapped; see README "Left out".

  function LowerChar(c: char): char {
    if 'A' <= c <= 'Z' then (c as int - 'A' as int + 'a' as int) as char else c
  }

  /** `s.toLowerCase()`. */
  function ToLower(s: string): (r: string)
    ensures |r| == |s|
    ensures forall i :: 0 <= i < |s| ==> r[i] == LowerChar(s[i])
  {
    seq(|s|, i requires 0 <= i < |s| => LowerChar(s[i]))
  }

  lemma ToLowerIdempotent(s: string)
    ensures ToLower(ToLower(s)) == ToLower(s)
  {
  }

  // ---------------------------------------------------------------------------
  // Trimming: the characters ECMAScript's `String.prototype.trim` removes
  // (WhiteSpace and LineTerminator).

  predicate IsTrimmable(c: char) {
    || c == '\t' || c == '\n' || c == '\U{000B}' || c == '\U{000C}' || c == '\r' || c == ' '
    || c == '\U{00A0}' || c == '\U{1680}' || ('\U{2000}' <= c <= '\U{200A}')
    || c == '\U{2028}' || c == '\U{2029}' || c == '\U{202F}' || c == '\U{205F}'
    || c == '\U{3000}' || c == '\U{FEFF}'
  }

  function TrimStart(s: string): (r: string)
    ensures |r| <= |s| && r == s[|s| - |r|..]
    ensures r != [] ==> !IsTrimmable(r[0])
    ensures forall i :: 0 <= i < |s| - |r| ==> IsTrimmable(s[i])
    decreases |s|
  {
    if s != [] && IsTrimmable(s[0]) then TrimStart(s[1..]) else s
  }

  function TrimEnd(s: string): (r: string)
    ensures |r| <= |s| && r == s[..|r|]
    ensures r != [] ==> !IsTrimmable(r[|r| - 1])
    ensures forall i :: |r| <= i < |s| ==> IsTrimmable(s[i])
    decreases |s|
  {
    if s != [] && IsTrimmable(s[|s| - 1]) then TrimEnd(s[..|s| - 1]) else s
  }

  /** `r` is `s` with some trimmable characters cut off its two ends. */
  predicate TrimmedFrom(s: string, r: string)
    decreases |s|
  {
    || s == r
    || (s != [] && IsTrimmable(s[0]) && TrimmedFrom(s[1..], r))
    || (s != [] && IsTrimmable(s[|s| - 1]) && TrimmedFrom(s[..|s| - 1], r))
  }

  /** `s.trim()`: `s` with trimmable characters cut off both ends until neither
      end is trimmable. */
  function Trim(s: string): (r: string)
    ensures TrimmedFrom(s, r)
    ensures r != [] ==> !IsTrimmable(r[0]) && !IsTrimmable(r[|r| - 1])
  {
    var t := TrimStart(s);
    TrimStartCuts(s);
    TrimEndCuts(t);
    TrimmedFromTrans(s, t, TrimEnd(t));
    TrimEnd(t)
  }

  lemma {:induction false} TrimStartCuts(s: string)
    ensures TrimmedFrom(s, TrimStart(s))
    decreases |s|
  {
    if s != [] && IsTrimmable(s[0]) {
      TrimStartCuts(s[1..]);
    }
  }

  lemma {:induction false} TrimEndCuts(s: string)
    ensures TrimmedFrom(s, TrimEnd(s))
    decreases |s|
  {
    if s != [] && IsTrimmable(s[|s| - 1]) {
      TrimEndCuts(s[..|s| - 1]);
    }
  }

  lemma {:induction false} TrimmedFromTrans(s: string, t: string, r: string)
    requires TrimmedFrom(s, t) && TrimmedFrom(t, r)
    ensures TrimmedFrom(s, r)
    decreases |s|
  {
    if s == t {
    } else if s != [] && IsTrimmable(s[0]) && TrimmedFrom(s[1..], t) {
      TrimmedFromTrans(s[1..], t, r);
    } else {
      TrimmedFromTrans(s[..|s| - 1], t, r);
    }
  }

  /** Only a string made of trimmable characters can be cut down to nothing:
      `s.trim()` is empty only when every character of `s` is trimmable. */
  lemma {:induction false} CutToNothing(s: string)
    requires TrimmedFrom(s, [])
    ensures forall i :: 0 <= i < |s| ==> IsTrimmable(s[i])
    decreases |s|
  {
    if s != [] {
      if IsTrimmable(s[0]) && TrimmedFrom(s[1..], []) {
        CutToNothing(s[1..]);
        assert forall i :: 1 <= i < |s| ==> s[i] == s[1..][i - 1];
      } else {
        CutToNothing(s[..|s| - 1]);
        assert forall i :: 0 <= i < |s| - 1 ==> s[i] == s[..|s| - 1][i];
      }
    }
  }

  /** A string that starts and ends with a non-trimmable character is its own trim. */
  lemma TrimOfTrimmed(s: string)
    requires s != [] ==> !IsTrimmable(s[0]) && !IsTrimmable(s[|s| - 1])
    ensures Trim(s) == s
  {
  }

  /** ASCII lowering never turns a character into a trimmable one or out of one. */
  lemma LowerKeepsTrimmable(c: char)
    ensures IsTrimmable(LowerChar(c)) == IsTrimmable(c)
  {
  }

  // ---------------------------------------------------------------------------
  // `s.split(sep)` for a one-character separator.

  /** The pieces of `s` between occurrences of `sep`; `"".split(sep)` is `[""]`. */
  function SplitOn(s: string, sep: char): (r: seq<string>)
    ensures |r| >= 1
    ensures forall i :: 0 <= i < |r| ==> sep !in r[i]
    ensures |r| == 1 <==> sep !in s
    ensures sep !in s ==> r == [s]
    decreases |s|
  {
    if s == [] then [[]]
    else
      var rest := SplitOn(s[1..], sep);
      if s[0] == sep then [[]] + rest
      else
        assert s == [s[0]] + s[1..];
        [[s[0]] + rest[0]] + rest[1..]
  }

  /** Joining the pieces with the separator gives the string back. */
  function Join(pieces: seq<string>, sep: char): string
    requires |pieces| >= 1
    decreases |pieces|
  {
    if |pieces| == 1 then pieces[0] else pieces[0] + [sep] + Join(pieces[1..], sep)
  }

  lemma {:induction false} JoinSplit(s: string, sep: char)
    ensures Join(SplitOn(s, sep), sep) == s
    decreases |s|
  {
    if s != [] {
      JoinSplit(s[1..], sep);
      var rest := SplitOn(s[1..], sep);
      assert s == [s[0]] + s[1..];
      if s[0] == sep {
        assert SplitOn(s, sep) == [[]] + rest;
        JoinAfterEmpty(rest, sep);
      } else {
        assert SplitOn(s, sep) == [[s[0]] + rest[0]] + rest[1..];
        JoinExtendFirst(s[0], rest, sep);
      }
    }
  }

  lemma JoinAfterEmpty(rest: seq<string>, sep: char)
    requires |rest| >= 1
    ensures Join([[]] + rest, sep) == [sep] + Join(rest, sep)
  {
    assert ([[]] + rest)[1..] == rest;
  }

  lemma JoinExtendFirst(c: char, rest: seq<string>, sep: char)
    requires |rest| >= 1
    ensures Join([[c] + rest[0]] + rest[1..], sep) == [c] + Join(rest, sep)
  {
    var r := [[c] + rest[0]] + rest[1..];
    if |rest| > 1 {
      assert r[1..] == rest[1..];
    }
  }

  /** Splitting `a + [sep] + b` where `a` has no separator: `a` is the first piece and
      the remaining pieces are those of `b`. */
  lemma {:induction false} SplitAtFirst(a: string, sep: char, b: string)
    requires sep !in a
    ensures SplitOn(a + [sep] + b, sep) == [a] + SplitOn(b, sep)
    decreases |a|
  {
    if a == [] {
      assert a + [sep] + b == [sep] + b;
      assert ([sep] + b)[1..] == b;
    } else {
      var s := a + [sep] + b;
      assert s[1..] == a[1..] + [sep] + b;
      SplitAtFirst(a[1..], sep, b);
      var rest := SplitOn(s[1..], sep);
      assert rest == [a[1..]] + SplitOn(b, sep);
      assert s[0] == a[0] != sep;
      assert SplitOn(s, sep) == [[a[0]] + rest[0]] + rest[1..];
      assert [a[0]] + a[1..] == a;
    }
  }

  /** A string is its part before position `i`, the character at `i` and its
      part after. */
  lemma SplitAround(s: string, i: nat)
    requires i < |s|
    ensures s == s[..i] + [s[i]] + s[i + 1..]
  {
  }

  /** The first position of `c` in a string that contains it. */
  lemma {:induction false} FirstOccurrence(s: string, c: char) returns (k: nat)
    requires c in s
    ensures k < |s| && s[k] == c && c !in s[..k]
    decreases |s|
  {
    if s[0] == c {
      k := 0;
    } else {
      assert s == [s[0]] + s[1..];
      var k' := FirstOccurrence(s[1..], c);
      k := k' + 1;
      assert s[..k] == [s[0]] + s[1..][..k'];
    }
  }

  // ---------------------------------------------------------------------------
  // Decimal rendering of integers, as JavaScript's `String(n)` gives it for an
  // integral number.

  function DigitChar(d: nat): char
    requires d < 10
  {
    "0123456789"[d]
  }

  function NatToString(n: nat): (r: string)
    ensures |r| >= 1
    ensures forall i :: 0 <= i < |r| ==> '0' <= r[i] <= '9'
    decreases n
  {
    if n < 10 then [DigitChar(n)] else NatToString(n / 10) + [DigitChar(n % 10)]
  }

  function IntToString(i: int): (r: string)
    ensures |r| >= 1
    ensures forall k :: 0 <= k < |r| ==> r[k] == '-' || '0' <= r[k] <= '9'
  {
    if i < 0 then "-" + NatToString(-i) else NatToString(i)
  }

  /** Decimal parsing, the inverse of `NatToString`. */
  function ParseNat(s: string): nat
    requires forall i :: 0 <= i < |s| ==> '0' <= s[i] <= '9'
    decreases |s|
  {
    if s == [] then 0 else ParseNat(s[..|s| - 1]) * 10 + (s[|s| - 1] as int - '0' as int)
  }

  lemma {:induction false} NatToStringRoundTrip(n: nat)
    ensures ParseNat(NatToString(n)) == n
    decreases n
  {
    if n >= 10 {
      NatToStringRoundTrip(n / 10);
      var s := NatToString(n);
      assert s[..|s| - 1] == NatToString(n / 10);
    }
  }

  /** Distinct numbers render to distinct strings. */
  lemma NatToStringInjective(m: nat, n: nat)
    requires NatToString(m) == NatToString(n)
    ensures m == n
  {
    NatToStringRoundTrip(m);
    NatToStringRoundTrip(n);
  }
}
