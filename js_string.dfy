/** The two pieces of JavaScript string semantics the application leans on:
    `String.prototype.trim` and the `a || b` default on strings. */
module JsString {

  /** A code point that `trim` strips: ECMAScript WhiteSpace (TAB, VT, FF, ZWNBSP and
      every Unicode "Zs" space separator) and LineTerminator (LF, CR, LS, PS). */
  predicate IsWhitespace(c: char) {
    c == '\t' || c == '\n' || c == '\U{000B}' || c == '\U{000C}' || c == '\r' ||
    c == ' ' || c == '\U{00A0}' || c == '\U{1680}' ||
    ('\U{2000}' <= c <= '\U{200A}') ||
    c == '\U{2028}' || c == '\U{2029}' || c == '\U{202F}' || c == '\U{205F}' ||
    c == '\U{3000}' || c == '\U{FEFF}'
  }

  ghost predicate AllWhitespace(s: string) {
    forall k :: 0 <= k < |s| ==> IsWhitespace(s[k])
  }

  /** Neither the first nor the last character is whitespace: what `trim` leaves. */
  predicate Trimmed(s: string) {
    s == "" || (!IsWhitespace(s[0]) && !IsWhitespace(s[|s| - 1]))
  }

  /** Drops leading whitespace: the result does not start with whitespace. */
  function TrimStart(s: string): (r: string)
    ensures |r| <= |s|
    ensures r == "" || !IsWhitespace(r[0])
  {
    if |s| > 0 && IsWhitespace(s[0]) then TrimStart(s[1..]) else s
  }

  /** Drops trailing whitespace: the result does not end with whitespace. */
  function TrimEnd(s: string): (r: string)
    ensures |r| <= |s|
    ensures r == "" || !IsWhitespace(r[|r| - 1])
  {
    if |s| > 0 && IsWhitespace(s[|s| - 1]) then TrimEnd(s[..|s| - 1]) else s
  }

  /** What `TrimStart` drops is a whitespace prefix: the result is the rest of `s`. */
  lemma {:induction false} TrimStartDrops(s: string)
    ensures TrimStart(s) == s[|s| - |TrimStart(s)|..]
    ensures forall k :: 0 <= k < |s| - |TrimStart(s)| ==> IsWhitespace(s[k])
    decreases |s|
  {
    if |s| > 0 && IsWhitespace(s[0]) {
      TrimStartDrops(s[1..]);
    }
  }

  /** What `TrimEnd` drops is a whitespace suffix: the result is the beginning of `s`. */
  lemma {:induction false} TrimEndDrops(s: string)
    ensures TrimEnd(s) == s[..|TrimEnd(s)|]
    ensures forall k :: |TrimEnd(s)| <= k < |s| ==> IsWhitespace(s[k])
    decreases |s|
  {
    if |s| > 0 && IsWhitespace(s[|s| - 1]) {
      TrimEndDrops(s[..|s| - 1]);
    }
  }

  /** JavaScript's `s.trim()`. */
  function Trim(s: string): (r: string)
    ensures Trimmed(r) && |r| <= |s|
  {
    TrimIsTrimmed(s);
    TrimEnd(TrimStart(s))
  }

  lemma TrimIsTrimmed(s: string)
    ensures Trimmed(TrimEnd(TrimStart(s)))
  {
    var t := TrimStart(s);
    var r := TrimEnd(t);
    if r != "" {
      TrimEndDrops(t);
      assert r[0] == t[0];
    }
  }

  /** Trimming yields `""` exactly for a string of whitespace only. */
  lemma TrimEmpty(s: string)
    ensures Trim(s) == "" <==> AllWhitespace(s)
  {
    var t := TrimStart(s);
    var r := TrimEnd(t);
    TrimStartDrops(s);
    TrimEndDrops(t);
    if r == "" {
      assert t == "";
    } else {
      assert s[|s| - |t|] == t[0] == r[0];
    }
  }

  /** Trimming drops whitespace at both ends and nothing else. */
  lemma TrimDropsEdges(s: string)
    ensures exists p, q :: s == p + Trim(s) + q && AllWhitespace(p) && AllWhitespace(q)
  {
    TrimStartDrops(s);
    TrimEndDrops(TrimStart(s));
    PaddedBy(s, TrimStart(s), TrimEnd(TrimStart(s)));
  }

  /** If `t` is `s` minus a whitespace prefix and `r` is `t` minus a whitespace suffix, then
      `s` is `r` padded with whitespace on both sides. */
  lemma PaddedBy(s: string, t: string, r: string)
    requires |t| <= |s| && t == s[|s| - |t|..]
    requires forall k :: 0 <= k < |s| - |t| ==> IsWhitespace(s[k])
    requires |r| <= |t| && r == t[..|r|]
    requires forall k :: |r| <= k < |t| ==> IsWhitespace(t[k])
    ensures exists p, q :: s == p + r + q && AllWhitespace(p) && AllWhitespace(q)
  {
    var p, q := s[..|s| - |t|], t[|r|..];
    assert s == p + r + q by {
      assert s == p + t;
      assert t == r + q;
    }
    assert AllWhitespace(p) by {
      forall k | 0 <= k < |p| ensures IsWhitespace(p[k]) { assert p[k] == s[k]; }
    }
    assert AllWhitespace(q) by {
      forall k | 0 <= k < |q| ensures IsWhitespace(q[k]) { assert q[k] == t[|r| + k]; }
    }
  }

  lemma AllWhitespaceAppend(p: string, q: string)
    requires AllWhitespace(p) && AllWhitespace(q)
    ensures AllWhitespace(p + q)
  {
    forall k | 0 <= k < |p + q| ensures IsWhitespace((p + q)[k]) {
      if k >= |p| { assert (p + q)[k] == q[k - |p|]; }
    }
  }

  /** JavaScript's `s || fallback` where `s` is a string: only the empty string is falsy. */
  function Or(s: string, fallback: string): (r: string)
    ensures s != "" ==> r == s
    ensures s == "" ==> r == fallback
    ensures r == "" <==> s == "" && fallback == ""
  {
    if s == "" then fallback else s
  }

  lemma {:induction false} TrimStartOfPadded(p: string, m: string)
    requires AllWhitespace(p)
    requires m == "" || !IsWhitespace(m[0])
    ensures TrimStart(p + m) == m
    decreases |p|
  {
    if p == "" {
      assert p + m == m;
    } else {
      assert (p + m)[1..] == p[1..] + m;
      TrimStartOfPadded(p[1..], m);
    }
  }

  lemma {:induction false} TrimEndOfPadded(m: string, q: string)
    requires AllWhitespace(q)
    requires m == "" || !IsWhitespace(m[|m| - 1])
    ensures TrimEnd(m + q) == m
    decreases |q|
  {
    if q == "" {
      assert m + q == m;
    } else {
      assert (m + q)[..|m + q| - 1] == m + q[..|q| - 1];
      TrimEndOfPadded(m, q[..|q| - 1]);
    }
  }

  /** `trim` is characterised by what it keeps: whenever `s` is whitespace, then a string
      with no whitespace at either end, then whitespace, `trim` returns exactly the middle. */
  lemma TrimOfPadded(p: string, m: string, q: string)
    requires AllWhitespace(p) && AllWhitespace(q) && Trimmed(m)
    ensures Trim(p + m + q) == m
  {
    if m == "" {
      assert p + m + q == p + q;
      AllWhitespaceAppend(p, q);
      TrimEmpty(p + q);
    } else {
      assert p + m + q == p + (m + q);
      TrimStartOfPadded(p, m + q);
      TrimEndOfPadded(m, q);
    }
  }

  /** Trimming a string with no whitespace at either end changes nothing. */
  lemma TrimmedIsFixed(s: string)
    requires Trimmed(s)
    ensures Trim(s) == s
  {
    assert "" + s + "" == s;
    TrimOfPadded("", s, "");
  }

  /** Trimming twice is trimming once. */
  lemma TrimIdempotent(s: string)
    ensures Trim(Trim(s)) == Trim(s)
  {
    TrimmedIsFixed(Trim(s));
  }
}
