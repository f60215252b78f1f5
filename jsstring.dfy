/** The three JavaScript string operations the dashboard's filter relies on:
    `String.prototype.trim`, `String.prototype.toLowerCase` and
    `String.prototype.includes`. Strings are sequences of code points. */
module JsString {

  /** The code points `trim` removes: ECMAScript's WhiteSpace (TAB, VT, FF,
      SPACE, NO-BREAK SPACE, ZERO WIDTH NO-BREAK SPACE and the Unicode
      "Space_Separator" category) and LineTerminator (LF, CR, LINE SEPARATOR,
      PARAGRAPH SEPARATOR). */
  predicate IsWhitespace(ch: char) {
    || ch == '\t' || ch == '\n' || ch == '\U{000B}' || ch == '\U{000C}' || ch == '\r'
    || ch == ' ' || ch == '\U{00A0}' || ch == '\U{1680}'
    || ('\U{2000}' <= ch <= '\U{200A}')
    || ch == '\U{2028}' || ch == '\U{2029}' || ch == '\U{202F}' || ch == '\U{205F}'
    || ch == '\U{3000}' || ch == '\U{FEFF}'
  }

  ghost predicate AllWhitespace(s: string) {
    forall i :: 0 <= i < |s| ==> IsWhitespace(s[i])
  }

  /** Drops the leading whitespace of `s`. */
  function TrimStart(s: string): (r: string)
    ensures |r| <= |s|
    ensures r == [] || !IsWhitespace(r[0])
  {
    if s != [] && IsWhitespace(s[0]) then TrimStart(s[1..]) else s
  }

  /** Drops the trailing whitespace of `s`. */
  function TrimEnd(s: string): (r: string)
    ensures |r| <= |s|
    ensures r == [] || !IsWhitespace(r[|r| - 1])
  {
    if s != [] && IsWhitespace(s[|s| - 1]) then TrimEnd(s[..|s| - 1]) else s
  }

  /** TrimStart removes a whitespace-only prefix and keeps the rest as it is. */
  lemma {:induction false} TrimStartIsSuffix(s: string)
    ensures var r := TrimStart(s); r == s[|s| - |r|..] && AllWhitespace(s[..|s| - |r|])
  {
    if s != [] && IsWhitespace(s[0]) {
      TrimStartIsSuffix(s[1..]);
    }
  }

  /** TrimEnd removes a whitespace-only suffix and keeps the rest as it is. */
  lemma {:induction false} TrimEndIsPrefix(s: string)
    ensures var r := TrimEnd(s); r == s[..|r|] && AllWhitespace(s[|r|..])
  {
    if s != [] && IsWhitespace(s[|s| - 1]) {
      TrimEndIsPrefix(s[..|s| - 1]);
    }
  }

  /** `s.trim()`: the slice of `s` left once whitespace is removed from both ends. */
  function Trim(s: string): (r: string)
    ensures |r| <= |s|
    ensures r == [] || (!IsWhitespace(r[0]) && !IsWhitespace(r[|r| - 1]))
  {
    TrimEndIsPrefix(TrimStart(s));
    TrimEnd(TrimStart(s))
  }

  /** `s.trim()` is the slice of `s` between a whitespace-only prefix and a
      whitespace-only suffix: the middle of `s` is kept as it is. */
  lemma TrimIsSlice(s: string)
    ensures var i := |s| - |TrimStart(s)|; var j := i + |Trim(s)|;
      i <= j <= |s| && Trim(s) == s[i..j] && AllWhitespace(s[..i]) && AllWhitespace(s[j..])
  {
    var t := TrimStart(s);
    var r := Trim(s);
    TrimStartIsSuffix(s);
    TrimEndIsPrefix(t);
    var i := |s| - |t|;
    var j := i + |r|;
    assert s[i..j] == t[..|r|];
    assert s[j..] == t[|r|..];
  }

  /** Lower-cases one code point: A-Z become a-z, everything else is kept. */
  function LowerChar(ch: char): (r: char)
    ensures !('A' <= r <= 'Z')
    ensures r == ch || 'A' <= ch <= 'Z'
    ensures 'a' <= ch <= 'z' ==> r == ch
    ensures 'A' <= ch <= 'Z' ==> 'a' <= r <= 'z' && r as int - 'a' as int == ch as int - 'A' as int
  {
    if 'A' <= ch <= 'Z' then (ch as int - 'A' as int + 'a' as int) as char else ch
  }

  /** `s.toLowerCase()`, code point by code point. */
  function ToLower(s: string): (r: string)
    ensures |r| == |s|
  {
    seq(|s|, i requires 0 <= i < |s| => LowerChar(s[i]))
  }

  /** Lower-casing maps each code point on its own. */
  lemma ToLowerAt(s: string)
    ensures forall i :: 0 <= i < |s| ==> ToLower(s)[i] == LowerChar(s[i])
  {
  }

  /** Lower-casing a concatenation lower-cases each part. */
  lemma {:induction false} ToLowerAppend(a: string, b: string)
    ensures ToLower(a + b) == ToLower(a) + ToLower(b)
  {
    if a == [] {
      assert a + b == b;
    } else {
      assert (a + b)[1..] == a[1..] + b;
      ToLowerAppend(a[1..], b);
    }
  }

  /** A lower-case letter that `s` holds in neither case is absent from `ToLower(s)`. */
  lemma ToLowerOmits(s: string, ch: char)
    requires 'a' <= ch <= 'z'
    requires ch !in s && (ch as int - 'a' as int + 'A' as int) as char !in s
    ensures ch !in ToLower(s)
  {
    ToLowerAt(s);
  }

  /** `q` occurs in `s` starting at index `i`. */
  ghost predicate OccursAt(s: string, q: string, i: nat) {
    i + |q| <= |s| && s[i..i + |q|] == q
  }

  /** `s.includes(q)`: `q` is a prefix of `s` or occurs in what follows its first code point. */
  function Includes(s: string, q: string): bool {
    if |q| > |s| then false
    else s[..|q|] == q || Includes(s[1..], q)
  }

  /** `s.includes(q)` holds exactly when some slice of `s` equals `q`. */
  lemma {:induction false} IncludesIff(s: string, q: string)
    ensures Includes(s, q) <==> exists i: nat :: OccursAt(s, q, i)
  {
    if |q| > |s| {
    } else if s[..|q|] == q {
      assert OccursAt(s, q, 0);
    } else {
      IncludesIff(s[1..], q);
      if Includes(s[1..], q) {
        var j: nat :| OccursAt(s[1..], q, j);
        assert s[1..][j..j + |q|] == s[j + 1..j + 1 + |q|];
        assert OccursAt(s, q, j + 1);
      }
      if exists i: nat :: OccursAt(s, q, i) {
        var i: nat :| OccursAt(s, q, i);
        assert i != 0;
        assert s[1..][i - 1..i - 1 + |q|] == s[i..i + |q|];
        assert OccursAt(s[1..], q, i - 1);
      }
    }
  }

  /** The empty string occurs in every string. */
  lemma IncludesEmpty(s: string)
    ensures Includes(s, "")
  {
    IncludesIff(s, "");
    assert OccursAt(s, "", 0);
  }

  /** A query holding a code point absent from `s` does not occur in `s`. */
  lemma NotIncludesMissingChar(s: string, q: string, k: nat)
    requires k < |q| && q[k] !in s
    ensures !Includes(s, q)
  {
    IncludesIff(s, q);
  }

  /** A word whose lower-cased form is `q` makes `q` occur in the lower-cased
      text around it. */
  lemma IncludesLoweredWord(s: string, before: string, word: string, after: string, q: string)
    requires s == before + word + after && ToLower(word) == q
    ensures Includes(ToLower(s), q)
  {
    ToLowerAppend(before + word, after);
    ToLowerAppend(before, word);
    assert OccursAt(ToLower(s), q, |before|);
    IncludesIff(ToLower(s), q);
  }

  /** Whitespace-only strings trim to the empty string. */
  lemma {:induction false} TrimAllWhitespace(s: string)
    requires AllWhitespace(s)
    ensures Trim(s) == ""
  {
    TrimStartAllWhitespace(s);
  }

  lemma {:induction false} TrimStartAllWhitespace(s: string)
    requires AllWhitespace(s)
    ensures TrimStart(s) == ""
  {
    if s != [] {
      assert IsWhitespace(s[0]);
      TrimStartAllWhitespace(s[1..]);
    }
  }

  /** Leading whitespace added to a string is removed again by TrimStart. */
  lemma {:induction false} TrimStartPadded(w: string, s: string)
    requires AllWhitespace(w)
    ensures TrimStart(w + s) == TrimStart(s)
  {
    if w != [] {
      var ws := w + s;
      assert ws != [] && IsWhitespace(ws[0]);
      assert TrimStart(ws) == TrimStart(ws[1..]);
      assert ws[1..] == w[1..] + s;
      TrimStartPadded(w[1..], s);
    } else {
      assert w + s == s;
    }
  }

  /** Trailing whitespace added to a string is removed again by TrimEnd. */
  lemma {:induction false} TrimEndPadded(s: string, w: string)
    requires AllWhitespace(w)
    ensures TrimEnd(s + w) == TrimEnd(s)
  {
    if w != [] {
      var n := |w| - 1;
      var sw := s + w;
      assert sw != [] && IsWhitespace(sw[|sw| - 1]);
      assert TrimEnd(sw) == TrimEnd(sw[..|sw| - 1]);
      assert sw[..|sw| - 1] == s + w[..n];
      TrimEndPadded(s, w[..n]);
    } else {
      assert s + w == s;
    }
  }

  /** TrimStart never removes what TrimEnd looks at unless it removes everything:
      trimming the end first or last gives the same result. */
  lemma {:induction false} TrimStartOfTrimEnd(s: string)
    ensures TrimStart(TrimEnd(s)) == TrimEnd(TrimStart(s))
  {
    var u := TrimStart(s);
    TrimStartIsSuffix(s);
    if s != [] && IsWhitespace(s[|s| - 1]) {
      var t := s[..|s| - 1];
      TrimStartOfTrimEnd(t);
      if u == [] {
        TrimStartPrefixEmpty(t, s);
      } else {
        assert u[|u| - 1] == s[|s| - 1];
        TrimStartDropLast(s);
      }
    } else if u != [] {
      assert u[|u| - 1] == s[|s| - 1];
    }
  }

  /** When TrimStart empties `s`, it empties every prefix of `s`. */
  lemma TrimStartPrefixEmpty(t: string, s: string)
    requires t <= s && TrimStart(s) == []
    ensures TrimStart(t) == []
  {
    TrimStartIsSuffix(s);
    assert AllWhitespace(t);
    TrimStartAllWhitespace(t);
  }

  /** Dropping a last code point that TrimStart keeps commutes with TrimStart. */
  lemma {:induction false} TrimStartDropLast(s: string)
    requires TrimStart(s) != []
    ensures TrimStart(s[..|s| - 1]) == TrimStart(s)[..|TrimStart(s)| - 1]
  {
    if IsWhitespace(s[0]) {
      assert s[1..][..|s| - 2] == s[..|s| - 1][1..];
      TrimStartDropLast(s[1..]);
    }
  }

  /** `s.trim()` ignores whitespace padding on either side. */
  lemma TrimPadded(w1: string, s: string, w2: string)
    requires AllWhitespace(w1) && AllWhitespace(w2)
    ensures Trim(w1 + s + w2) == Trim(s)
  {
    calc {
      Trim(w1 + s + w2);
      { assert w1 + s + w2 == w1 + (s + w2); }
      TrimEnd(TrimStart(w1 + (s + w2)));
      { TrimStartPadded(w1, s + w2); }
      TrimEnd(TrimStart(s + w2));
      { TrimStartOfTrimEnd(s + w2); }
      TrimStart(TrimEnd(s + w2));
      { TrimEndPadded(s, w2); }
      TrimStart(TrimEnd(s));
      { TrimStartOfTrimEnd(s); }
      Trim(s);
    }
  }

  /** Trimming twice is trimming once. */
  lemma TrimIdempotent(s: string)
    ensures Trim(Trim(s)) == Trim(s)
  {
    var t := Trim(s);
    if t != [] {
      assert TrimStart(t) == t;
      assert TrimEnd(t) == t;
    }
  }

  /** Lower-casing twice is lower-casing once. */
  lemma ToLowerIdempotent(s: string)
    ensures ToLower(ToLower(s)) == ToLower(s)
  {
  }

  /** Lower-casing commutes with TrimStart, since no whitespace is a letter A-Z. */
  lemma {:induction false} ToLowerTrimStart(s: string)
    ensures ToLower(TrimStart(s)) == TrimStart(ToLower(s))
  {
    if s != [] && IsWhitespace(s[0]) {
      assert ToLower(s)[1..] == ToLower(s[1..]);
      ToLowerTrimStart(s[1..]);
    }
  }

  /** Lower-casing commutes with TrimEnd. */
  lemma {:induction false} ToLowerTrimEnd(s: string)
    ensures ToLower(TrimEnd(s)) == TrimEnd(ToLower(s))
  {
    ToLowerAt(s);
    if s != [] && IsWhitespace(s[|s| - 1]) {
      ToLowerAt(s[..|s| - 1]);
      assert ToLower(s)[..|s| - 1] == ToLower(s[..|s| - 1]);
      ToLowerTrimEnd(s[..|s| - 1]);
    } else if s != [] {
      assert ToLower(s)[|s| - 1] == LowerChar(s[|s| - 1]);
    }
  }

  /** `s.trim().toLowerCase()` equals `s.toLowerCase().trim()`. */
  lemma ToLowerTrim(s: string)
    ensures ToLower(Trim(s)) == Trim(ToLower(s))
  {
    ToLowerTrimEnd(TrimStart(s));
    ToLowerTrimStart(s);
  }
}
