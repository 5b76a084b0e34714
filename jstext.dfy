/**
 * JavaScript strings as the language sees them: sequences of UTF-16 code units.
 * `length`, indexing, `charCodeAt`, `startsWith` and `trim` all work on code units.
 */
module JsText {

  type CodeUnit = x: int | 0 <= x < 0x1_0000

  /** String constants are written as displays of their code units, with the text in a comment. */
  type JsString = seq<CodeUnit>

  /**
   * The code units `String.prototype.trim` removes: ECMAScript's WhiteSpace
   * (TAB, VT, FF, ZWNBSP and every space separator of category Zs) and
   * LineTerminator (LF, CR, LS, PS).
   */
  predicate IsWhitespace(c: CodeUnit) {
    c == 0x09 || c == 0x0A || c == 0x0B || c == 0x0C || c == 0x0D || c == 0x20 ||
    c == 0xA0 || c == 0x1680 || (0x2000 <= c <= 0x200A) || c == 0x2028 || c == 0x2029 ||
    c == 0x202F || c == 0x205F || c == 0x3000 || c == 0xFEFF
  }

  predicate AllWhitespace(s: JsString) {
    forall i | 0 <= i < |s| :: IsWhitespace(s[i])
  }

  /** Drops leading whitespace: the result starts with non-whitespace, and is empty only for all-whitespace input. */
  function TrimStart(s: JsString): (r: JsString)
    ensures |r| <= |s|
    ensures r == [] || !IsWhitespace(r[0])
    ensures r == [] ==> AllWhitespace(s)
    decreases |s|
  {
    if |s| > 0 && IsWhitespace(s[0]) then TrimStart(s[1..]) else s
  }

  /** Drops trailing whitespace: the result ends with non-whitespace and keeps the first code unit of `s`. */
  function TrimEnd(s: JsString): (r: JsString)
    ensures |r| <= |s|
    ensures r == [] || !IsWhitespace(r[|r| - 1])
    ensures r != [] ==> r[0] == s[0]
    ensures r == [] <==> AllWhitespace(s)
    decreases |s|
  {
    if |s| > 0 && IsWhitespace(s[|s| - 1]) then TrimEnd(s[..|s| - 1]) else s
  }

  /** `String.prototype.trim`: remove whitespace from both ends. */
  function Trim(s: JsString): (r: JsString)
    ensures |r| <= |s|
    ensures r == [] || (!IsWhitespace(r[0]) && !IsWhitespace(r[|r| - 1]))
  {
    TrimEnd(TrimStart(s))
  }

  /** `s.startsWith(p)`: a raw code-unit prefix test. */
  predicate StartsWith(s: JsString, p: JsString) {
    p <= s
  }

  lemma {:induction false} TrimStartOfWhitespace(s: JsString)
    requires AllWhitespace(s)
    ensures TrimStart(s) == []
    decreases |s|
  {
    if |s| > 0 {
      assert AllWhitespace(s[1..]) by {
        forall i | 0 <= i < |s| - 1 ensures IsWhitespace(s[1..][i]) { assert s[1..][i] == s[i + 1]; }
      }
      TrimStartOfWhitespace(s[1..]);
    }
  }

  /** Trimming leaves nothing exactly when the string is all whitespace. */
  lemma TrimEmptyIff(s: JsString)
    ensures Trim(s) == [] <==> AllWhitespace(s)
  {
    if AllWhitespace(s) {
      TrimStartOfWhitespace(s);
    }
  }

  lemma {:induction false} TrimStartPadded(w: JsString, x: JsString)
    requires AllWhitespace(w)
    ensures TrimStart(w + x) == TrimStart(x)
    decreases |w|
  {
    if |w| > 0 {
      var v := w[1..];
      assert (w + x)[0] == w[0];
      assert (w + x)[1..] == v + x;
      assert AllWhitespace(v) by {
        forall i | 0 <= i < |v| ensures IsWhitespace(v[i]) { assert v[i] == w[i + 1]; }
      }
      TrimStartPadded(v, x);
    } else {
      assert w + x == x;
    }
  }

  lemma {:induction false} TrimEndPadded(x: JsString, w: JsString)
    requires AllWhitespace(w)
    ensures TrimEnd(x + w) == TrimEnd(x)
    decreases |w|
  {
    if |w| > 0 {
      var n := |x + w|;
      assert (x + w)[n - 1] == w[|w| - 1];
      assert (x + w)[..n - 1] == x + w[..|w| - 1];
      var v := w[..|w| - 1];
      assert AllWhitespace(v) by {
        forall i | 0 <= i < |v| ensures IsWhitespace(v[i]) { assert v[i] == w[i]; }
      }
      TrimEndPadded(x, v);
    } else {
      assert x + w == x;
    }
  }

  lemma {:induction false} TrimStartConcat(s: JsString, w: JsString)
    ensures TrimStart(s + w) == if AllWhitespace(s) then TrimStart(w) else TrimStart(s) + w
    decreases |s|
  {
    if AllWhitespace(s) {
      TrimStartPadded(s, w);
    } else {
      assert |s| > 0;
      assert (s + w)[0] == s[0];
      if IsWhitespace(s[0]) {
        assert (s + w)[1..] == s[1..] + w;
        assert !AllWhitespace(s[1..]) by {
          if AllWhitespace(s[1..]) {
            forall i | 0 <= i < |s| ensures IsWhitespace(s[i]) {
              if i > 0 { assert s[i] == s[1..][i - 1]; }
            }
          }
        }
        TrimStartConcat(s[1..], w);
      }
    }
  }

  /** Whitespace added before or after a string never changes what `trim` returns. */
  lemma TrimIgnoresPadding(w1: JsString, s: JsString, w2: JsString)
    requires AllWhitespace(w1) && AllWhitespace(w2)
    ensures Trim(w1 + s + w2) == Trim(s)
  {
    assert w1 + s + w2 == w1 + (s + w2);
    TrimStartPadded(w1, s + w2);
    TrimStartConcat(s, w2);
    if AllWhitespace(s) {
      TrimStartOfWhitespace(s);
      TrimStartOfWhitespace(w2);
    } else {
      TrimEndPadded(TrimStart(s), w2);
    }
  }

  /** A string with no whitespace at either end is its own trim. */
  lemma TrimUnpadded(s: JsString)
    requires s == [] || (!IsWhitespace(s[0]) && !IsWhitespace(s[|s| - 1]))
    ensures Trim(s) == s
  {
    if s != [] {
      assert TrimStart(s) == s;
      assert TrimEnd(s) == s;
    }
  }

  /** Trimming twice is trimming once. */
  lemma TrimIdempotent(s: JsString)
    ensures Trim(Trim(s)) == Trim(s)
  {
    TrimUnpadded(Trim(s));
  }

  /** `TrimStart` removes a run of leading whitespace and nothing else. */
  lemma {:induction false} TrimStartIsSuffix(s: JsString)
    ensures var r := TrimStart(s);
      r == s[|s| - |r|..] && AllWhitespace(s[..|s| - |r|])
    decreases |s|
  {
    if |s| > 0 && IsWhitespace(s[0]) {
      TrimStartIsSuffix(s[1..]);
      var r := TrimStart(s[1..]);
      var k := |s| - |r|;
      assert s[1..][|s| - 1 - |r|..] == s[k..];
      forall i | 0 <= i < k ensures IsWhitespace(s[..k][i]) {
        if i > 0 {
          assert s[..k][i] == s[1..][..k - 1][i - 1];
        }
      }
    }
  }

  /** `TrimEnd` removes a run of trailing whitespace and nothing else. */
  lemma {:induction false} TrimEndIsPrefix(s: JsString)
    ensures var r := TrimEnd(s);
      r == s[..|r|] && AllWhitespace(s[|r|..])
    decreases |s|
  {
    if |s| > 0 && IsWhitespace(s[|s| - 1]) {
      var p := s[..|s| - 1];
      TrimEndIsPrefix(p);
      var r := TrimEnd(p);
      assert p[..|r|] == s[..|r|];
      forall i | 0 <= i < |s| - |r| ensures IsWhitespace(s[|r|..][i]) {
        if i < |p| - |r| {
          assert s[|r|..][i] == p[|r|..][i];
        }
      }
    }
  }
}
