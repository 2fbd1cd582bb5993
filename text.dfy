/** JavaScript's `String.prototype.trim`, as the program uses it on the custom
    tone text and on the model's response text. ECMAScript removes, from both
    ends, every code point of its WhiteSpace and LineTerminator productions. */
module Text {

  /** The WhiteSpace and LineTerminator code points of ECMAScript: tab, line
      feed, vertical tab, form feed, carriage return, space, no-break space,
      the byte order mark, the line and paragraph separators, and the
      space separators of Unicode category Zs. */
  predicate IsJsWhitespace(c: char)
  {
    c == '\t' || c == '\n' || c == '\U{000B}' || c == '\U{000C}' || c == '\r'
    || c == ' ' || c == '\U{00A0}' || c == '\U{1680}'
    || ('\U{2000}' <= c <= '\U{200A}')
    || c == '\U{2028}' || c == '\U{2029}' || c == '\U{202F}' || c == '\U{205F}'
    || c == '\U{3000}' || c == '\U{FEFF}'
  }

  predicate AllWhitespace(s: string)
  {
    forall i :: 0 <= i < |s| ==> IsJsWhitespace(s[i])
  }

  /** Only white space in `s[lo..hi]`. */
  predicate WhitespaceBetween(s: string, lo: int, hi: int)
    requires 0 <= lo <= hi <= |s|
  {
    forall i :: lo <= i < hi ==> IsJsWhitespace(s[i])
  }

  /** Drops the leading white space: the result is the suffix of `s` that
      starts at its first non-white-space character. */
  function TrimStart(s: string): (r: string)
    ensures |r| <= |s| && r == s[|s| - |r|..]
    ensures WhitespaceBetween(s, 0, |s| - |r|)
    ensures r == [] || !IsJsWhitespace(r[0])
  {
    if s != [] && IsJsWhitespace(s[0]) then
      var r := TrimStart(s[1..]);
      assert s[1..][|s| - 1 - |r|..] == s[|s| - |r|..];
      assert forall i :: 1 <= i < |s| - |r| ==> s[i] == s[1..][i - 1];
      r
    else s
  }

  /** Drops the trailing white space: the result is the prefix of `s` that
      ends at its last non-white-space character. */
  function TrimEnd(s: string): (r: string)
    ensures |r| <= |s| && r == s[..|r|]
    ensures WhitespaceBetween(s, |r|, |s|)
    ensures r == [] || !IsJsWhitespace(r[|r| - 1])
  {
    if s != [] && IsJsWhitespace(s[|s| - 1]) then
      var r := TrimEnd(s[..|s| - 1]);
      assert s[..|s| - 1][..|r|] == s[..|r|];
      assert forall i :: |r| <= i < |s| - 1 ==> s[i] == s[..|s| - 1][i];
      r
    else s
  }

  function Trim(s: string): string
  {
    TrimEnd(TrimStart(s))
  }

  /** The trimmed text is a contiguous piece of the input, `s[i..j]`, with
      only white space before `i` and after `j`. */
  lemma TrimIsInnerSlice(s: string) returns (i: nat, j: nat)
    ensures i <= j <= |s| && Trim(s) == s[i..j]
    ensures WhitespaceBetween(s, 0, i) && WhitespaceBetween(s, j, |s|)
  {
    var t := TrimStart(s);
    var r := TrimEnd(t);
    i := |s| - |t|;
    j := i + |r|;
    assert r == s[i..][..|r|];
    forall k | j <= k < |s|
      ensures IsJsWhitespace(s[k])
    {
      assert s[k] == t[k - i];
    }
  }

  /** The trimmed text neither starts nor ends with white space. */
  lemma TrimEndsOnNonWhitespace(s: string)
    ensures Trim(s) == [] || (!IsJsWhitespace(Trim(s)[0]) && !IsJsWhitespace(Trim(s)[|Trim(s)| - 1]))
  {
    var t := TrimStart(s);
    if Trim(s) != [] {
      assert Trim(s)[0] == t[0];
    }
  }

  /** A text trims to the empty string exactly when it is all white space;
      this is what makes a blank custom tone count as missing. */
  lemma TrimEmptyIff(s: string)
    ensures Trim(s) == [] <==> AllWhitespace(s)
  {
    var t := TrimStart(s);
    if Trim(s) == [] {
      assert WhitespaceBetween(t, 0, |t|);
      assert t == [];
    }
  }

  /** Text without white space at either end is left as it is. */
  lemma TrimKeepsTrimmed(s: string)
    requires s == [] || (!IsJsWhitespace(s[0]) && !IsJsWhitespace(s[|s| - 1]))
    ensures Trim(s) == s
  {
  }

  /** Trimming twice is trimming once. */
  lemma TrimIdempotent(s: string)
    ensures Trim(Trim(s)) == Trim(s)
  {
    TrimEndsOnNonWhitespace(s);
    TrimKeepsTrimmed(Trim(s));
  }

  lemma {:induction false} TrimStartSkipsWhitespace(w: string, t: string)
    requires AllWhitespace(w)
    ensures TrimStart(w + t) == TrimStart(t)
  {
    if w == [] {
      assert w + t == t;
    } else {
      assert (w + t)[0] == w[0];
      assert (w + t)[1..] == w[1..] + t;
      assert AllWhitespace(w[1..]) by {
        forall k | 0 <= k < |w[1..]| ensures IsJsWhitespace(w[1..][k]) {
          assert w[1..][k] == w[k + 1];
        }
      }
      TrimStartSkipsWhitespace(w[1..], t);
    }
  }

  lemma {:induction false} TrimEndSkipsWhitespace(t: string, w: string)
    requires AllWhitespace(w)
    ensures TrimEnd(t + w) == TrimEnd(t)
  {
    if w == [] {
      assert t + w == t;
    } else {
      var w' := w[..|w| - 1];
      assert (t + w)[|t + w| - 1] == w[|w| - 1];
      assert (t + w)[..|t + w| - 1] == t + w';
      assert AllWhitespace(w') by {
        forall k | 0 <= k < |w'| ensures IsJsWhitespace(w'[k]) {
          assert w'[k] == w[k];
        }
      }
      TrimEndSkipsWhitespace(t, w');
    }
  }

  /** Once the first character that is not white space is reached, what
      follows it is kept whole. */
  lemma {:induction false} TrimStartAppend(s: string, x: string)
    requires !AllWhitespace(s)
    ensures TrimStart(s + x) == TrimStart(s) + x
  {
    assert s != [];
    assert (s + x)[0] == s[0];
    if IsJsWhitespace(s[0]) {
      assert (s + x)[1..] == s[1..] + x;
      assert !AllWhitespace(s[1..]) by {
        var k :| 0 <= k < |s| && !IsJsWhitespace(s[k]);
        assert k > 0 && s[1..][k - 1] == s[k];
      }
      TrimStartAppend(s[1..], x);
    }
  }

  lemma AllWhitespaceAppend(s: string, x: string)
    requires AllWhitespace(s) && AllWhitespace(x)
    ensures AllWhitespace(s + x)
  {
    forall k | 0 <= k < |s + x| ensures IsJsWhitespace((s + x)[k]) {
      if k < |s| { assert (s + x)[k] == s[k]; } else { assert (s + x)[k] == x[k - |s|]; }
    }
  }

  /** White space wrapped around a text does not change what it trims to:
      trimming the model's response ignores leading and trailing blank
      lines. */
  lemma TrimIgnoresPadding(before: string, s: string, after: string)
    requires AllWhitespace(before) && AllWhitespace(after)
    ensures Trim(before + s + after) == Trim(s)
  {
    assert before + s + after == before + (s + after);
    TrimStartSkipsWhitespace(before, s + after);
    if AllWhitespace(s) {
      AllWhitespaceAppend(s, after);
      TrimEmptyIff(s + after);
      TrimEmptyIff(s);
    } else {
      TrimStartAppend(s, after);
      TrimEndSkipsWhitespace(TrimStart(s), after);
    }
  }
}
