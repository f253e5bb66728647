/** `getInitials` of src/utils/Common.js: the initials of a name split on whitespace
    runs, as written (it throws on a name made only of whitespace) and as intended. */
module Common {
  import opened JsText

  /** The argument: a string, or any other JavaScript value. */
  datatype NameArg = Text(s: string) | NotText

  /** The value of the call: a string, or the `TypeError` it throws. */
  datatype Outcome = Returns(value: string) | Throws

  /** The leading run of non-whitespace characters (`TakeWordIsLeadingRun`). */
  function TakeWord(t: string): (w: string)
    ensures |w| <= |t|
  {
    if t == "" || IsWhitespace(t[0]) then "" else [t[0]] + TakeWord(t[1..])
  }

  /** `TakeWord` is the longest prefix without whitespace: it is a prefix, holds no
      whitespace, and is followed by whitespace or the end. */
  lemma {:induction false} TakeWordIsLeadingRun(t: string)
    ensures var w := TakeWord(t);
      && w == t[..|w|] && NoWhitespace(w)
      && (|w| < |t| ==> IsWhitespace(t[|w|]))
  {
    if t != "" && !IsWhitespace(t[0]) {
      var v := TakeWord(t[1..]);
      TakeWordIsLeadingRun(t[1..]);
      var w := [t[0]] + v;
      assert t[1..][..|v|] == t[1..|w|];
      assert w == t[..|w|];
      forall k | 0 <= k < |w| ensures !IsWhitespace(w[k]) {
        if k > 0 { assert w[k] == v[k - 1]; }
      }
      if |w| < |t| { assert t[|w|] == t[1..][|v|]; }
    }
  }

  /** What follows the first word, with the whitespace after it removed. */
  function AfterWord(t: string): (u: string)
    requires |TakeWord(t)| < |t|
    ensures |u| < |t|
  {
    var rest := t[|TakeWord(t)|..];
    var u := TrimStart(rest);
    assert |u| < |t| by {
      TakeWordIsLeadingRun(t);
      TrimStartDropsWhitespace(rest);
      assert rest[0] == t[|TakeWord(t)|];
      assert rest[0..] == rest;
      assert u != rest;
    }
    u
  }

  /** `t.split(/\s+/)`: the pieces between whitespace runs, including an empty piece
      before leading and after trailing whitespace. */
  function SplitRuns(t: string): (parts: seq<string>)
    ensures |parts| >= 1
    ensures t == "" ==> parts == [""]
    decreases |t|
  {
    var w := TakeWord(t);
    if |w| == |t| then [t] else [w] + SplitRuns(AfterWord(t))
  }

  /** No piece of the split holds whitespace. */
  lemma {:induction false} SplitRunsHaveNoWhitespace(t: string)
    ensures forall k :: 0 <= k < |SplitRuns(t)| ==> NoWhitespace(SplitRuns(t)[k])
    decreases |t|
  {
    var w := TakeWord(t);
    TakeWordIsLeadingRun(t);
    if |w| < |t| {
      var u := AfterWord(t);
      SplitRunsHaveNoWhitespace(u);
      var p := SplitRuns(t);
      assert p == [w] + SplitRuns(u);
      forall k | 0 <= k < |p| ensures NoWhitespace(p[k]) {
        if k > 0 { assert p[k] == SplitRuns(u)[k - 1]; }
      }
    } else {
      assert SplitRuns(t) == [t];
    }
  }

  /** What follows the first word of a trimmed name, with its leading whitespace
      removed, is again trimmed and non-empty. */
  lemma RestAfterWord(t: string)
    requires t != "" && !IsWhitespace(t[|t| - 1])
    requires |TakeWord(t)| < |t|
    ensures var u := AfterWord(t);
      u != "" && !IsWhitespace(u[0]) && !IsWhitespace(u[|u| - 1])
  {
    var rest := t[|TakeWord(t)|..];
    var u := TrimStart(rest);
    TrimStartDropsWhitespace(rest);
    assert u == AfterWord(t);
    assert rest[|rest| - 1] == t[|t| - 1];
    assert u[|u| - 1] == rest[|rest| - 1];
  }

  /** A trimmed, non-empty name splits into non-empty words only. */
  lemma {:induction false} TrimmedSplitHasNoEmptyWord(t: string)
    requires t != "" && !IsWhitespace(t[0]) && !IsWhitespace(t[|t| - 1])
    ensures forall k :: 0 <= k < |SplitRuns(t)| ==> SplitRuns(t)[k] != ""
    decreases |t|
  {
    var w := TakeWord(t);
    assert w != "";
    if |w| < |t| {
      RestAfterWord(t);
      var u := AfterWord(t);
      TrimmedSplitHasNoEmptyWord(u);
      var p := SplitRuns(t);
      assert p == [w] + SplitRuns(u);
      forall k | 0 <= k < |p| ensures p[k] != "" {
        if k > 0 { assert p[k] == SplitRuns(u)[k - 1]; }
      }
    } else {
      assert SplitRuns(t) == [t];
    }
  }

  /** The first character of a word, upper-cased: `word[0].toUpperCase()`, which
      throws when `word[0]` is `undefined`. */
  function UpperFirst(word: string): Outcome {
    if word == "" then Throws else Returns([UpperChar(word[0])])
  }

  function Then(a: Outcome, b: Outcome): Outcome {
    if a.Throws? || b.Throws? then Throws else Returns(a.value + b.value)
  }

  /** `getInitials` as written. */
  function InitialsAsWritten(name: NameArg): Outcome {
    if name.NotText? || name.s == "" then Returns("")
    else
      var words := SplitRuns(Trim(name.s));
      if |words| == 1 then UpperFirst(words[0])
      else Then(UpperFirst(words[0]), UpperFirst(words[1]))
  }

  /** A non-empty name of only whitespace trims to `''`, which splits into `['']`, so
      `words[0][0]` is `undefined` and the call throws. */
  lemma WhitespaceNameThrows(s: string)
    requires s != "" && AllWhitespace(s)
    ensures InitialsAsWritten(Text(s)) == Throws
  {
  }

  /** The smallest such input. */
  lemma SingleSpaceThrows()
    ensures InitialsAsWritten(Text(" ")) == Throws
  {
    WhitespaceNameThrows(" ");
  }

  /** `getInitials` as intended: blank names, like empty ones and non-strings, give `''`;
      otherwise the initials of the words of the trimmed name (`InitialsMeaning`). */
  function Initials(name: NameArg): (r: string)
    ensures |r| <= 2
  {
    if name.NotText? || IsBlank(name.s) then ""
    else
      var t := Trim(name.s);
      assert t != "";
      TrimmedSplitHasNoEmptyWord(t);
      var words := SplitRuns(t);
      WordInitials(words)
  }

  /** The intended initials are `''` for a non-string or blank name, and otherwise the
      upper-cased first letter of the first word and, when there is a second word, of
      the second. */
  lemma InitialsMeaning(name: NameArg)
    ensures name.NotText? || (name.Text? && AllWhitespace(name.s)) ==> Initials(name) == ""
    ensures name.Text? && !AllWhitespace(name.s) ==>
      var words := SplitRuns(Trim(name.s));
      var r := Initials(name);
      && |r| == (if |words| == 1 then 1 else 2)
      && words[0] != "" && r[0] == UpperChar(words[0][0])
      && (|words| > 1 ==> words[1] != "" && r[1] == UpperChar(words[1][0]))
  {
    if name.Text? && !AllWhitespace(name.s) {
      TrimmedSplitHasNoEmptyWord(Trim(name.s));
    }
  }

  /** The first letters of the first one or two words, upper-cased. */
  function WordInitials(words: seq<string>): (r: string)
    requires |words| >= 1 && forall k :: 0 <= k < |words| ==> words[k] != ""
    ensures |r| == (if |words| == 1 then 1 else 2)
    ensures r[0] == UpperChar(words[0][0])
    ensures |words| > 1 ==> r[1] == UpperChar(words[1][0])
  {
    if |words| == 1 then [UpperChar(words[0][0])]
    else [UpperChar(words[0][0]), UpperChar(words[1][0])]
  }

  /** Off whitespace-only names the code as written returns the intended initials. */
  lemma AsWrittenAgreesElsewhere(name: NameArg)
    requires !(name.Text? && name.s != "" && AllWhitespace(name.s))
    ensures InitialsAsWritten(name) == Returns(Initials(name))
  {
    if name.Text? && name.s != "" {
      TrimmedSplitHasNoEmptyWord(Trim(name.s));
    }
  }

  /** Surrounding whitespace does not change the initials. */
  lemma InitialsIgnorePadding(p: string, s: string, q: string)
    requires AllWhitespace(p) && AllWhitespace(q)
    ensures Initials(Text(p + s + q)) == Initials(Text(s))
  {
    TrimIgnoresPadding(p, s, q);
  }
}
