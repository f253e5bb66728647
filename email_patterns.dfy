/** The two e-mail patterns of the app: `^\S+@\S+$`, shared by the sign-up and login
    screens, and the stricter `^[^\s@]+@[^\s@]+\.[^\s@]+$` of the profile editor. */
module EmailPatterns {
  import opened JsText

  /** `^\S+@\S+$`: no whitespace anywhere, and an `@` with something on each side. */
  predicate AuthEmailAccepts(s: string) {
    NoWhitespace(s) && exists i | 0 < i < |s| - 1 :: s[i] == '@'
  }

  /** `s` reads as the regex's three pieces: `\S+`, `@`, `\S+`. */
  predicate AuthEmailSplit(s: string, a: string, b: string) {
    s == a + "@" + b && a != "" && b != "" && NoWhitespace(a) && NoWhitespace(b)
  }

  /** The pattern accepts exactly the strings made of one or more non-space
      characters, an `@`, and one or more non-space characters. */
  lemma AuthEmailShape(s: string)
    ensures AuthEmailAccepts(s) <==> exists a, b :: AuthEmailSplit(s, a, b)
  {
    if AuthEmailAccepts(s) {
      var i :| 0 < i < |s| - 1 && s[i] == '@';
      assert s == s[..i] + "@" + s[i + 1..];
      assert AuthEmailSplit(s, s[..i], s[i + 1..]);
    }
    if exists a, b :: AuthEmailSplit(s, a, b) {
      var a, b :| AuthEmailSplit(s, a, b);
      assert s[|a|] == '@';
      forall k | 0 <= k < |s| ensures !IsWhitespace(s[k]) {
        if k < |a| {
          assert s[k] == a[k];
        } else if k > |a| {
          assert s[k] == b[k - |a| - 1];
        }
      }
    }
  }

  /** A character of `[^\s@]`. */
  predicate Plain(c: char) {
    !IsWhitespace(c) && c != '@'
  }

  predicate AllPlain(s: string) {
    forall k :: 0 <= k < |s| ==> Plain(s[k])
  }

  /** The part after the `@`: `[^\s@]+\.[^\s@]+`. */
  predicate DottedDomain(d: string) {
    AllPlain(d) && exists p | 0 < p < |d| - 1 :: DotAt(d, p)
  }

  /** The host and the last label meet at index `p` of the domain. */
  predicate DotAt(d: string, p: int) {
    0 < p < |d| - 1 && d[p] == '.'
  }

  /** `^[^\s@]+@[^\s@]+\.[^\s@]+$`. */
  predicate ProfileEmailAccepts(s: string) {
    exists i | 0 < i < |s| :: AtSplit(s, i)
  }

  /** The local part and the domain meet at index `i`. */
  predicate AtSplit(s: string, i: int) {
    0 < i < |s| && s[i] == '@' && AllPlain(s[..i]) && DottedDomain(s[i + 1..])
  }

  /** `s` reads as the regex's five pieces. */
  predicate ProfileEmailSplit(s: string, local: string, host: string, top: string) {
    && s == local + "@" + host + "." + top
    && local != "" && host != "" && top != ""
    && AllPlain(local) && AllPlain(host) && AllPlain(top)
  }

  lemma AllPlainConcat(x: string, y: string)
    requires AllPlain(x) && AllPlain(y)
    ensures AllPlain(x + y)
  {
    forall k | 0 <= k < |x + y| ensures Plain((x + y)[k]) {
      if k < |x| { assert (x + y)[k] == x[k]; } else { assert (x + y)[k] == y[k - |x|]; }
    }
  }

  lemma AllPlainSlice(x: string, lo: int, hi: int)
    requires AllPlain(x) && 0 <= lo <= hi <= |x|
    ensures AllPlain(x[lo..hi])
  {
    forall k | 0 <= k < hi - lo ensures Plain(x[lo..hi][k]) {
      assert x[lo..hi][k] == x[lo + k];
    }
  }

  lemma {:induction false} AllPlainHasNoAt(x: string)
    requires AllPlain(x)
    ensures multiset(x)['@'] == 0
    ensures NoWhitespace(x)
  {
    if x != [] {
      AllPlainSlice(x, 1, |x|);
      AllPlainHasNoAt(x[1..]);
      assert x == [x[0]] + x[1..];
      assert multiset(x) == multiset([x[0]]) + multiset(x[1..]);
    }
  }

  lemma ProfileEmailSplitAccepted(s: string, l: string, h: string, t: string)
    requires ProfileEmailSplit(s, l, h, t)
    ensures ProfileEmailAccepts(s)
  {
    var i := |l|;
    var d := h + "." + t;
    assert s == l + "@" + d;
    assert s[i] == '@';
    assert s[..i] == l;
    assert s[i + 1..] == d;
    assert DotAt(d, |h|);
    AllPlainConcat(h, ".");
    AllPlainConcat(h + ".", t);
    assert AtSplit(s, i);
  }

  /** A string is the part before index `i`, the character there, and the part after. */
  lemma CutAt(s: string, i: int)
    requires 0 <= i < |s|
    ensures s == s[..i] + [s[i]] + s[i + 1..]
  {
  }

  /** The local part and `@`, then the domain as one piece or as its three pieces. */
  lemma Regroup(l: string, h: string, t: string)
    ensures l + "@" + (h + "." + t) == l + "@" + h + "." + t
  {
    assert l + "@" + (h + "." + t) == (l + "@" + h) + "." + t;
  }

  lemma ProfileEmailAcceptedSplit(s: string) returns (l: string, h: string, t: string)
    requires ProfileEmailAccepts(s)
    ensures ProfileEmailSplit(s, l, h, t)
  {
    var i :| 0 < i < |s| && AtSplit(s, i);
    var d := s[i + 1..];
    var p :| 0 < p < |d| - 1 && DotAt(d, p);
    AllPlainSlice(d, 0, p);
    AllPlainSlice(d, p + 1, |d|);
    l, h, t := s[..i], d[..p], d[p + 1..];
    assert d[0..p] == h && d[p + 1..|d|] == t;
    CutAt(d, p);
    CutAt(s, i);
    Regroup(l, h, t);
  }

  /** The profile pattern accepts exactly a non-empty local part, `@`, a non-empty
      host, `.`, and a non-empty last label, none of them holding whitespace or `@`. */
  lemma ProfileEmailShape(s: string)
    ensures ProfileEmailAccepts(s) <==> exists l, h, t :: ProfileEmailSplit(s, l, h, t)
  {
    if ProfileEmailAccepts(s) {
      var l, h, t := ProfileEmailAcceptedSplit(s);
    }
    if exists l, h, t :: ProfileEmailSplit(s, l, h, t) {
      var l, h, t :| ProfileEmailSplit(s, l, h, t);
      ProfileEmailSplitAccepted(s, l, h, t);
    }
  }

  /** Whatever the profile pattern accepts has exactly one `@` and no whitespace; in
      particular an address with leading or trailing spaces is refused. */
  lemma ProfileEmailOneAt(s: string)
    requires ProfileEmailAccepts(s)
    ensures NoWhitespace(s)
    ensures multiset(s)['@'] == 1
  {
    var l, h, t := ProfileEmailAcceptedSplit(s);
    var d := h + "." + t;
    AllPlainConcat(h, ".");
    AllPlainConcat(h + ".", t);
    Regroup(l, h, t);
    assert s == l + ['@'] + d;
    AllPlainHasNoAt(l);
    AllPlainHasNoAt(d);
    assert multiset(s) == multiset(l) + multiset(['@']) + multiset(d);
    forall k | 0 <= k < |s| ensures !IsWhitespace(s[k]) {
      if k < |l| { assert s[k] == l[k]; } else if k > |l| { assert s[k] == d[k - |l| - 1]; }
    }
  }
}
