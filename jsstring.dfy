/**
 * The JavaScript string built-ins the gallery relies on: `String.prototype.trim`,
 * `String.prototype.toLowerCase`, `length`, and the truthiness of an optional string
 * (`!s`, `!!s`). Strings are sequences of characters.
 *
 * `trim` removes exactly the ECMAScript WhiteSpace and LineTerminator characters.
 * `toLowerCase` is modelled on ASCII letters only: every other character is left as it is.
 */
module JsString {
  import opened Optional

  /** ECMAScript WhiteSpace (TAB, VT, FF, ZWNBSP and the space separators) and LineTerminator (LF, CR, LS, PS). */
  predicate IsWhitespace(c: char) {
    if c <= ' ' then
      c == ' ' || ('\t' <= c <= '\r')
    else
      || c == '\U{00A0}' || c == '\U{1680}' || ('\U{2000}' <= c <= '\U{200A}')
      || c == '\U{2028}' || c == '\U{2029}' || c == '\U{202F}' || c == '\U{205F}'
      || c == '\U{3000}' || c == '\U{FEFF}'
  }

  predicate AllWhitespace(s: string) {
    forall k :: 0 <= k < |s| ==> IsWhitespace(s[k])
  }

  /** Neither end of `s` is whitespace: what `trim` leaves behind. */
  predicate IsTrimmed(s: string) {
    s == [] || (!IsWhitespace(s[0]) && !IsWhitespace(s[|s| - 1]))
  }

  /** Drops the leading whitespace: the result is a suffix of `s` whose first character is not whitespace. */
  function TrimStart(s: string): (r: string)
    ensures |r| <= |s| && r == s[|s| - |r|..]
    ensures AllWhitespace(s[..|s| - |r|])
    ensures r != [] ==> !IsWhitespace(r[0])
    decreases |s|
  {
    if |s| > 0 && IsWhitespace(s[0]) then
      var r := TrimStart(s[1..]);
      WhitespacePrefixStep(s, |s| - |r|);
      r
    else
      s
  }

  /** Drops the trailing whitespace: the result is a prefix of `s` whose last character is not whitespace. */
  function TrimEnd(s: string): (r: string)
    ensures |r| <= |s| && r == s[..|r|]
    ensures AllWhitespace(s[|r|..])
    ensures r != [] ==> !IsWhitespace(r[|r| - 1])
    decreases |s|
  {
    if |s| > 0 && IsWhitespace(s[|s| - 1]) then
      var r := TrimEnd(s[..|s| - 1]);
      WhitespaceSuffixStep(s, |r|);
      r
    else
      s
  }

  /** A whitespace character followed by whitespace is a whitespace prefix. */
  lemma WhitespacePrefixStep(s: string, n: int)
    requires 0 < n <= |s| && IsWhitespace(s[0]) && AllWhitespace(s[1..][..n - 1])
    ensures AllWhitespace(s[..n])
  {
    forall k | 0 <= k < n ensures IsWhitespace(s[..n][k]) {
      if k > 0 {
        assert s[..n][k] == s[1..][..n - 1][k - 1];
      }
    }
  }

  /** Whitespace followed by a whitespace character is a whitespace suffix. */
  lemma WhitespaceSuffixStep(s: string, m: int)
    requires 0 <= m < |s| && IsWhitespace(s[|s| - 1]) && AllWhitespace(s[..|s| - 1][m..])
    ensures AllWhitespace(s[m..])
  {
    forall k | 0 <= k < |s| - m ensures IsWhitespace(s[m..][k]) {
      if k < |s| - 1 - m {
        assert s[m..][k] == s[..|s| - 1][m..][k];
      }
    }
  }

  /** `s.trim()`: the result has no whitespace at either end (see `TrimSplit` for what was removed). */
  function Trim(s: string): (r: string)
    ensures IsTrimmed(r)
  {
    TrimEnd(TrimStart(s))
  }

  /** Concatenation is associative (stated once, so that proofs need not rediscover it). */
  lemma ConcatAssoc(x: string, y: string, z: string)
    ensures x + (y + z) == x + y + z
  {
  }

  lemma TrimStartSplit(s: string) returns (a: string)
    ensures s == a + TrimStart(s) && AllWhitespace(a)
  {
    a := s[..|s| - |TrimStart(s)|];
  }

  lemma TrimEndSplit(s: string) returns (b: string)
    ensures s == TrimEnd(s) + b && AllWhitespace(b)
  {
    b := s[|TrimEnd(s)|..];
  }

  /** `s` is its trimmed form padded on both sides by whitespace only. */
  lemma TrimSplit(s: string) returns (a: string, b: string)
    ensures s == a + Trim(s) + b
    ensures AllWhitespace(a) && AllWhitespace(b)
  {
    a := TrimStartSplit(s);
    b := TrimEndSplit(TrimStart(s));
    ConcatAssoc(a, Trim(s), b);
  }

  predicate IsAsciiUpper(c: char) {
    'A' <= c <= 'Z'
  }

  /** ASCII lower-casing of one character. */
  function LowerChar(c: char): char {
    if IsAsciiUpper(c) then (c as int + 32) as char else c
  }

  /** `s.toLowerCase()`, on ASCII letters. */
  function ToLower(s: string): (r: string)
    ensures |r| == |s|
    ensures forall k :: 0 <= k < |s| ==> r[k] == LowerChar(s[k])
  {
    seq(|s|, k requires 0 <= k < |s| => LowerChar(s[k]))
  }

  /** Two strings of the same length whose characters agree once lower-cased. */
  predicate EqualIgnoringCase(a: string, b: string) {
    |a| == |b| && forall k :: 0 <= k < |a| ==> LowerChar(a[k]) == LowerChar(b[k])
  }

  /** JavaScript truthiness of a `string | null`: `null` and the empty string are falsy, every other string is truthy. */
  predicate Truthy(s: Option<string>)
    ensures s.None? ==> !Truthy(s)
    ensures s == Some("") ==> !Truthy(s)
    ensures s.Some? && |s.value| > 0 ==> Truthy(s)
  {
    s.Some? && s.value != ""
  }

  // ---------------------------------------------------------------------------
  // Lemmas about trim

  /** Leading whitespace before a string that starts with a non-whitespace character is all that `TrimStart` drops. */
  lemma {:induction false} TrimStartSkips(a: string, x: string)
    requires AllWhitespace(a)
    requires x == [] || !IsWhitespace(x[0])
    ensures TrimStart(a + x) == x
    decreases |a|
  {
    if a != [] {
      assert (a + x)[0] == a[0];
      assert (a + x)[1..] == a[1..] + x;
      TrimStartSkips(a[1..], x);
    }
  }

  /** Trailing whitespace after a string that ends with a non-whitespace character is all that `TrimEnd` drops. */
  lemma {:induction false} TrimEndSkips(x: string, b: string)
    requires AllWhitespace(b)
    requires x == [] || !IsWhitespace(x[|x| - 1])
    ensures TrimEnd(x + b) == x
    decreases |b|
  {
    if b != [] {
      assert (x + b)[|x + b| - 1] == b[|b| - 1];
      assert (x + b)[..|x + b| - 1] == x + b[..|b| - 1];
      TrimEndSkips(x, b[..|b| - 1]);
    }
  }

  /** Trimming a trimmed string padded with whitespace gives back that string. */
  lemma TrimOfPadded(a: string, t: string, b: string)
    requires AllWhitespace(a) && AllWhitespace(b) && IsTrimmed(t)
    ensures Trim(a + t + b) == t
  {
    ConcatAssoc(a, t, b);
    if t == [] {
      assert a + (t + b) == (a + b) + [];
      TrimStartSkips(a + b, []);
    } else {
      TrimStartSkips(a, t + b);
      TrimEndSkips(t, b);
    }
  }

  /** A string with no whitespace at either end is its own trim. */
  lemma TrimOfTrimmed(t: string)
    requires IsTrimmed(t)
    ensures Trim(t) == t
  {
    assert TrimStart(t) == t;
  }

  /** `trim` is idempotent. */
  lemma TrimIdempotent(s: string)
    ensures Trim(Trim(s)) == Trim(s)
  {
    TrimOfTrimmed(Trim(s));
  }

  /** Surrounding whitespace does not change what `trim` returns. */
  lemma TrimIgnoresPadding(w1: string, s: string, w2: string)
    requires AllWhitespace(w1) && AllWhitespace(w2)
    ensures Trim(w1 + s + w2) == Trim(s)
  {
    var t := Trim(s);
    var l, r := TrimSplit(s);
    var a, b := w1 + l, r + w2;
    calc {
      w1 + s + w2;
      w1 + (l + t + r) + w2;
      { ConcatAssoc(w1, l + t, r); ConcatAssoc(w1, l, t); }
      w1 + l + t + r + w2;
      { ConcatAssoc(w1 + l + t, r, w2); }
      a + t + b;
    }
    TrimOfPadded(a, t, b);
  }

  // ---------------------------------------------------------------------------
  // Lemmas about lower-casing

  /** Lower-casing never turns a character into whitespace or whitespace into something else. */
  lemma LowerCharKeepsWhitespace(c: char)
    ensures IsWhitespace(LowerChar(c)) == IsWhitespace(c)
  {
  }

  lemma LowerOfConcat(a: string, b: string)
    ensures ToLower(a + b) == ToLower(a) + ToLower(b)
  {
    assert forall k :: 0 <= k < |a + b| ==> ToLower(a + b)[k] == (ToLower(a) + ToLower(b))[k];
  }

  lemma LowerKeepsAllWhitespace(s: string)
    requires AllWhitespace(s)
    ensures AllWhitespace(ToLower(s))
  {
    forall k | 0 <= k < |s| ensures IsWhitespace(ToLower(s)[k]) {
      LowerCharKeepsWhitespace(s[k]);
    }
  }

  /** Lower-casing is idempotent and leaves no ASCII upper-case letter. */
  lemma LowerIdempotent(s: string)
    ensures ToLower(ToLower(s)) == ToLower(s)
    ensures forall k :: 0 <= k < |s| ==> !IsAsciiUpper(ToLower(s)[k])
  {
  }

  lemma LowerKeepsTrimmed(t: string)
    requires IsTrimmed(t)
    ensures IsTrimmed(ToLower(t))
  {
    if t != [] {
      LowerCharKeepsWhitespace(t[0]);
      LowerCharKeepsWhitespace(t[|t| - 1]);
    }
  }

  /** Trimming and lower-casing commute, so `s.trim().toLowerCase()` equals `s.toLowerCase().trim()`. */
  lemma TrimLowerCommute(s: string)
    ensures Trim(ToLower(s)) == ToLower(Trim(s))
  {
    var t := Trim(s);
    var a, b := TrimSplit(s);
    var la, lt, lb := ToLower(a), ToLower(t), ToLower(b);
    assert ToLower(s) == la + lt + lb by {
      LowerOfConcat(a + t, b);
      LowerOfConcat(a, t);
    }
    LowerKeepsAllWhitespace(a);
    LowerKeepsAllWhitespace(b);
    LowerKeepsTrimmed(t);
    TrimOfPadded(la, lt, lb);
  }

  /** Case-insensitive equality is exactly equality after lower-casing. */
  lemma EqualIgnoringCaseIff(a: string, b: string)
    ensures EqualIgnoringCase(a, b) <==> ToLower(a) == ToLower(b)
  {
    if ToLower(a) == ToLower(b) {
      assert forall k :: 0 <= k < |a| ==> LowerChar(a[k]) == ToLower(b)[k];
    }
  }
}
