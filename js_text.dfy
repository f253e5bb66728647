/** The few JavaScript string primitives the handlers rely on: the `\s` class and
    `String.prototype.trim` (one whitespace set, as ECMAScript defines both), ASCII
    case mapping, `includes` and `slice(-1)`. */
module JsText {

  /** ECMAScript WhiteSpace and LineTerminator code points: the set matched by `\s`
      and removed by `trim()`. */
  predicate IsWhitespace(c: char) {
    || c == '\U{0009}' || c == '\U{000A}' || c == '\U{000B}' || c == '\U{000C}'
    || c == '\U{000D}' || c == '\U{0020}' || c == '\U{00A0}' || c == '\U{1680}'
    || ('\U{2000}' <= c <= '\U{200A}')
    || c == '\U{2028}' || c == '\U{2029}' || c == '\U{202F}' || c == '\U{205F}'
    || c == '\U{3000}' || c == '\U{FEFF}'
  }

  predicate AllWhitespace(s: string) {
    forall k :: 0 <= k < |s| ==> IsWhitespace(s[k])
  }

  predicate NoWhitespace(s: string) {
    forall k :: 0 <= k < |s| ==> !IsWhitespace(s[k])
  }

  /** Leading whitespace removed (`TrimStartDropsWhitespace` says what is removed). */
  function TrimStart(s: string): (r: string)
    ensures |r| <= |s|
    ensures r == "" || !IsWhitespace(r[0])
  {
    if s != [] && IsWhitespace(s[0]) then TrimStart(s[1..]) else s
  }

  /** `TrimStart` keeps a suffix, and what it removes is all whitespace. */
  lemma {:induction false} TrimStartDropsWhitespace(s: string)
    ensures var r := TrimStart(s); r == s[|s| - |r|..] && AllWhitespace(s[..|s| - |r|])
  {
    if s != [] && IsWhitespace(s[0]) {
      var r := TrimStart(s[1..]);
      TrimStartDropsWhitespace(s[1..]);
      assert s[1..][|s| - 1 - |r|..] == s[|s| - |r|..];
      var dropped, rest := s[..|s| - |r|], s[1..][..|s| - 1 - |r|];
      forall k | 0 <= k < |dropped| ensures IsWhitespace(dropped[k]) {
        if k > 0 { assert dropped[k] == rest[k - 1]; }
      }
    }
  }

  /** Trailing whitespace removed (`TrimEndDropsWhitespace` says what is removed). */
  function TrimEnd(s: string): (r: string)
    ensures |r| <= |s|
    ensures r == "" || !IsWhitespace(r[|r| - 1])
  {
    if s != [] && IsWhitespace(s[|s| - 1]) then TrimEnd(s[..|s| - 1]) else s
  }

  /** `TrimEnd` keeps a prefix, and what it removes is all whitespace. */
  lemma {:induction false} TrimEndDropsWhitespace(s: string)
    ensures var r := TrimEnd(s); r == s[..|r|] && AllWhitespace(s[|r|..])
  {
    if s != [] && IsWhitespace(s[|s| - 1]) {
      var init := s[..|s| - 1];
      var r := TrimEnd(init);
      TrimEndDropsWhitespace(init);
      assert init[..|r|] == s[..|r|];
      forall k | 0 <= k < |s| - |r| ensures IsWhitespace(s[|r|..][k]) {
        if k < |s| - 1 - |r| { assert s[|r|..][k] == init[|r|..][k]; }
      }
    }
  }

  /** `s.trim()`. */
  function Trim(s: string): (r: string)
    ensures |r| <= |s|
    ensures r == "" <==> AllWhitespace(s)
    ensures r != "" ==> !IsWhitespace(r[0]) && !IsWhitespace(r[|r| - 1])
  {
    var t := TrimStart(s);
    TrimStartDropsWhitespace(s);
    var r := TrimEnd(t);
    TrimEndDropsWhitespace(t);
    assert r == "" ==> AllWhitespace(s) by {
      if r == "" {
        assert t == "";
        assert s[..|s| - |t|] == s;
      }
    }
    assert t != "" ==> t[0] == s[|s| - |t|];
    assert r != "" ==> r[0] == t[0];
    r
  }

  /** `s.trim() === ''`: the string is empty or only whitespace (`BlankIsEmptyTrim`). */
  predicate IsBlank(s: string) {
    AllWhitespace(s)
  }

  /** A string is blank exactly when its trim is empty. */
  lemma BlankIsEmptyTrim(s: string)
    ensures IsBlank(s) <==> Trim(s) == ""
  {
  }

  /** Whitespace before an empty remainder does not change where the remainder starts. */
  lemma {:induction false} TrimStartSkipsPadding(p: string, u: string)
    requires AllWhitespace(p)
    ensures TrimStart(p + u) == TrimStart(u)
  {
    if p != [] {
      assert (p + u)[1..] == p[1..] + u;
      assert AllWhitespace(p[1..]) by {
        forall k | 0 <= k < |p| - 1 ensures IsWhitespace(p[1..][k]) {
          assert p[1..][k] == p[k + 1];
        }
      }
      TrimStartSkipsPadding(p[1..], u);
    } else {
      assert p + u == u;
    }
  }

  /** Trailing whitespace is removed whatever precedes it. */
  lemma {:induction false} TrimEndSkipsPadding(t: string, q: string)
    requires AllWhitespace(q)
    ensures TrimEnd(t + q) == TrimEnd(t)
  {
    if q != [] {
      assert (t + q)[|t + q| - 1] == q[|q| - 1];
      assert (t + q)[..|t + q| - 1] == t + q[..|q| - 1];
      assert AllWhitespace(q[..|q| - 1]);
      TrimEndSkipsPadding(t, q[..|q| - 1]);
    } else {
      assert t + q == t;
    }
  }

  /** Once a non-whitespace character is reached, the rest is kept as it is. */
  lemma {:induction false} TrimStartKeepsTail(s: string, q: string)
    requires !AllWhitespace(s)
    ensures TrimStart(s + q) == TrimStart(s) + q
  {
    assert s != [];
    assert (s + q)[0] == s[0];
    if IsWhitespace(s[0]) {
      assert (s + q)[1..] == s[1..] + q;
      assert !AllWhitespace(s[1..]) by {
        var k :| 0 <= k < |s| && !IsWhitespace(s[k]);
        assert k != 0;
        assert s[1..][k - 1] == s[k];
      }
      TrimStartKeepsTail(s[1..], q);
    }
  }

  /** Whitespace around a string does not change its trim. */
  lemma TrimIgnoresPadding(p: string, s: string, q: string)
    requires AllWhitespace(p) && AllWhitespace(q)
    ensures Trim(p + s + q) == Trim(s)
  {
    assert p + s + q == p + (s + q);
    TrimStartSkipsPadding(p, s + q);
    if AllWhitespace(s) {
      assert AllWhitespace(s + q) by {
        forall k | 0 <= k < |s + q| ensures IsWhitespace((s + q)[k]) {
          if k < |s| { assert (s + q)[k] == s[k]; } else { assert (s + q)[k] == q[k - |s|]; }
        }
      }
      assert Trim(s + q) == "";
    } else {
      TrimStartKeepsTail(s, q);
      TrimEndSkipsPadding(TrimStart(s), q);
    }
  }

  predicate IsAsciiDigit(c: char) { '0' <= c <= '9' }
  predicate IsAsciiLower(c: char) { 'a' <= c <= 'z' }
  predicate IsAsciiUpper(c: char) { 'A' <= c <= 'Z' }
  predicate IsAsciiLetter(c: char) { IsAsciiLower(c) || IsAsciiUpper(c) }

  /** `/^\d*$/`: every character is an ASCII digit (the empty string included). */
  predicate AllDigits(s: string) {
    forall k :: 0 <= k < |s| ==> IsAsciiDigit(s[k])
  }

  function UpperChar(c: char): (u: char)
    ensures IsAsciiLower(c) ==> IsAsciiUpper(u)
    ensures !IsAsciiLower(c) ==> u == c
  {
    if IsAsciiLower(c) then (c as int - 32) as char else c
  }

  function LowerChar(c: char): (l: char)
    ensures IsAsciiUpper(c) ==> IsAsciiLower(l)
    ensures !IsAsciiUpper(c) ==> l == c
  {
    if IsAsciiUpper(c) then (c as int + 32) as char else c
  }

  /** `s.toUpperCase()` on ASCII letters; every other character is kept. */
  function Upper(s: string): (r: string)
    ensures |r| == |s| && forall k :: 0 <= k < |s| ==> r[k] == UpperChar(s[k])
  {
    seq(|s|, k requires 0 <= k < |s| => UpperChar(s[k]))
  }

  /** `s.toLowerCase()` on ASCII letters; every other character is kept. */
  function Lower(s: string): (r: string)
    ensures |r| == |s| && forall k :: 0 <= k < |s| ==> r[k] == LowerChar(s[k])
  {
    seq(|s|, k requires 0 <= k < |s| => LowerChar(s[k]))
  }

  /** `q` occurs in `s` starting at index `i`. */
  predicate OccursAt(s: string, q: string, i: int) {
    0 <= i <= |s| - |q| && s[i..i + |q|] == q
  }

  /** `s.includes(q)`, searching from the front. */
  function Includes(s: string, q: string): (b: bool)
    ensures b <==> exists i :: OccursAt(s, q, i)
    decreases |s|
  {
    if |s| < |q| then false
    else if s[..|q|] == q then assert OccursAt(s, q, 0); true
    else
      var b := Includes(s[1..], q);
      assert b ==> exists i :: OccursAt(s, q, i) by {
        if b {
          var i :| OccursAt(s[1..], q, i);
          assert s[i + 1..i + 1 + |q|] == s[1..][i..i + |q|];
          assert OccursAt(s, q, i + 1);
        }
      }
      assert (exists i :: OccursAt(s, q, i)) ==> b by {
        if exists i :: OccursAt(s, q, i) {
          var i :| OccursAt(s, q, i);
          assert i != 0;
          assert s[1..][i - 1..i - 1 + |q|] == s[i..i + |q|];
          assert OccursAt(s[1..], q, i - 1);
        }
      }
      b
  }

  /** `s.slice(-1)`: the last character, or `''` for the empty string. */
  function LastChar(s: string): (r: string)
    ensures |r| == (if s == "" then 0 else 1)
    ensures s != "" ==> r[0] == s[|s| - 1]
  {
    if s == "" then "" else [s[|s| - 1]]
  }
}
