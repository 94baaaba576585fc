/** The string built-ins the client applies to form values and to displayed
    text: `trim`, `join` and `split`. */
module Text {

  /** The characters `String.prototype.trim` removes: ECMAScript WhiteSpace
      (tab, vertical tab, form feed, space, no-break space, byte order mark,
      the Unicode space separators) and LineTerminator. */
  predicate IsWhitespace(c: char) {
    c == '\t' || c == '\n' || c == '\U{B}' || c == '\U{C}' || c == '\r'
    || c == ' ' || c == '\U{A0}' || c == '\U{1680}'
    || ('\U{2000}' <= c <= '\U{200A}')
    || c == '\U{2028}' || c == '\U{2029}' || c == '\U{202F}'
    || c == '\U{205F}' || c == '\U{3000}' || c == '\U{FEFF}'
  }

  predicate AllWhitespace(s: string) {
    forall i :: 0 <= i < |s| ==> IsWhitespace(s[i])
  }

  /** `s` without its leading whitespace. */
  function TrimStart(s: string): (r: string)
    ensures |r| <= |s| && r == s[|s| - |r|..]
    ensures AllWhitespace(s[..|s| - |r|])
    ensures r != "" ==> !IsWhitespace(r[0])
    decreases |s|
  {
    if s != "" && IsWhitespace(s[0]) then
      var r := TrimStart(s[1..]);
      assert s[..|s| - |r|] == [s[0]] + s[1..][..|s| - 1 - |r|];
      r
    else s
  }

  /** `s` without its trailing whitespace. */
  function TrimEnd(s: string): (r: string)
    ensures |r| <= |s| && r == s[..|r|]
    ensures AllWhitespace(s[|r|..])
    ensures r != "" ==> !IsWhitespace(r[|r| - 1])
    decreases |s|
  {
    if s != "" && IsWhitespace(s[|s| - 1]) then
      var r := TrimEnd(s[..|s| - 1]);
      assert s[|r|..] == s[..|s| - 1][|r|..] + [s[|s| - 1]];
      r
    else s
  }

  /** `s.trim()`: the longest infix of `s` that neither starts nor ends with
      whitespace, everything cut off being whitespace. */
  function Trim(s: string): (r: string)
    ensures |r| <= |s|
    ensures r != "" ==> !IsWhitespace(r[0]) && !IsWhitespace(r[|r| - 1])
  {
    TrimEnd(TrimStart(s))
  }

  /** Trimming only cuts whitespace off the ends: the result is a prefix of
      a suffix `t` of `s`, with nothing but whitespace before `t` and after
      the result. */
  lemma TrimCuts(s: string)
    ensures exists t :: |t| <= |s| && t == s[|s| - |t|..] && AllWhitespace(s[..|s| - |t|])
                        && |Trim(s)| <= |t| && Trim(s) == t[..|Trim(s)|] && AllWhitespace(t[|Trim(s)|..])
  {
    var t := TrimStart(s);
    var r := TrimEnd(t);
    assert Trim(s) == r;
    assert |t| <= |s| && t == s[|s| - |t|..] && AllWhitespace(s[..|s| - |t|])
           && |r| <= |t| && r == t[..|r|] && AllWhitespace(t[|r|..]);
  }

  /** A value trims to nothing exactly when it is all whitespace; this is the
      emptiness test the forms apply after `trim`. */
  lemma TrimEmptyIff(s: string)
    ensures Trim(s) == "" <==> AllWhitespace(s)
  {
    var t := TrimStart(s);
    if Trim(s) == "" {
      assert AllWhitespace(t[0..]);
      assert t == "";
      assert s[..|s|] == s;
    } else {
      var r := Trim(s);
      assert r[0] == t[0] == s[|s| - |t|];
    }
  }

  /** `parts.join(sep)`. */
  function Join(parts: seq<string>, sep: string): string
    decreases |parts|
  {
    if |parts| == 0 then ""
    else if |parts| == 1 then parts[0]
    else parts[0] + sep + Join(parts[1..], sep)
  }

  /** `s.split(sep)` for a one-character separator: the pieces between the
      separators, never fewer than one, none holding the separator. */
  function Split(s: string, sep: char): (r: seq<string>)
    ensures |r| >= 1
    ensures forall i :: 0 <= i < |r| ==> sep !in r[i]
    decreases |s|
  {
    if s == "" then [""]
    else
      var rest := Split(s[1..], sep);
      if s[0] == sep then [""] + rest
      else [[s[0]] + rest[0]] + rest[1..]
  }

  /** Splitting loses nothing: joining the pieces with the separator gives
      the text back. */
  lemma {:induction false} SplitRoundTrip(s: string, sep: char)
    ensures Join(Split(s, sep), [sep]) == s
    decreases |s|
  {
    if s != "" {
      var rest := Split(s[1..], sep);
      SplitRoundTrip(s[1..], sep);
      var r := Split(s, sep);
      assert s == [s[0]] + s[1..];
      if s[0] == sep {
        assert r[1..] == rest;
      } else {
        assert r[1..] == rest[1..];
        assert |rest| > 1 ==> Join(rest, [sep]) == rest[0] + [sep] + Join(rest[1..], [sep]);
      }
    }
  }

  /** Text free of the separator is glued onto the first piece of what
      follows it. */
  lemma {:induction false} SplitPrefix(a: string, t: string, sep: char)
    requires sep !in a
    ensures Split(a + t, sep) == [a + Split(t, sep)[0]] + Split(t, sep)[1..]
    decreases |a|
  {
    if a != "" {
      assert (a + t)[0] == a[0] != sep;
      assert (a + t)[1..] == a[1..] + t;
      SplitPrefix(a[1..], t, sep);
      var inner, whole := Split(a[1..] + t, sep), Split(t, sep);
      assert inner[0] == a[1..] + whole[0] && inner[1..] == whole[1..];
      assert Split(a + t, sep) == [[a[0]] + inner[0]] + inner[1..];
      assert [a[0]] + (a[1..] + whole[0]) == a + whole[0];
    } else {
      var whole := Split(t, sep);
      assert a + t == t && a + whole[0] == whole[0];
      assert whole == [whole[0]] + whole[1..];
    }
  }

  /** Splitting parts that were joined with the separator followed by a
      padding gives the parts back, every piece after the first carrying the
      padding in front. */
  lemma {:induction false} SplitJoined(parts: seq<string>, sep: char, pad: string)
    requires |parts| >= 1
    requires forall i :: 0 <= i < |parts| ==> sep !in parts[i]
    requires sep !in pad
    ensures |Split(Join(parts, [sep] + pad), sep)| == |parts|
    ensures Split(Join(parts, [sep] + pad), sep)[0] == parts[0]
    ensures forall i :: 1 <= i < |parts| ==> Split(Join(parts, [sep] + pad), sep)[i] == pad + parts[i]
    decreases |parts|
  {
    var glue := [sep] + pad;
    if |parts| == 1 {
      SplitPrefix(parts[0], "", sep);
      assert parts[0] + "" == parts[0];
    } else {
      var rest := parts[1..];
      var j := Join(rest, glue);
      SplitJoined(rest, sep, pad);
      SplitGlued(pad, j, sep);
      SplitPrefix(parts[0], [sep] + (pad + j), sep);
      assert Join(parts, glue) == parts[0] + ([sep] + (pad + j));
      var sj := Split(j, sep);
      var r := Split(Join(parts, glue), sep);
      assert parts[0] + "" == parts[0];
      assert r == [parts[0]] + ([pad + sj[0]] + sj[1..]);
      forall i | 1 <= i < |parts| ensures r[i] == pad + parts[i] {
        assert rest[i - 1] == parts[i];
      }
    }
  }

  /** A separator followed by padding free of it starts a new piece that
      carries the padding in front of what follows. */
  lemma SplitGlued(pad: string, t: string, sep: char)
    requires sep !in pad
    ensures Split([sep] + (pad + t), sep) == [""] + ([pad + Split(t, sep)[0]] + Split(t, sep)[1..])
  {
    SplitPrefix(pad, t, sep);
    assert ([sep] + (pad + t))[1..] == pad + t;
    assert ([sep] + (pad + t))[0] == sep;
  }
}
