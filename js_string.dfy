/**
 * The JavaScript string operations the core relies on: the white-space class
 * shared by `\s` and `String.prototype.trim`, `replace(/\s+/g, '')`, `trim()`,
 * ASCII case mapping, and the `message || fallback` idiom for error text.
 */
module JsString {
  import opened Wrappers

  /** ECMAScript WhiteSpace and LineTerminator: what `\s` matches and `trim` removes. */
  predicate IsWhitespace(c: char) {
    || c == '\t' || c == '\n' || c == '\U{000B}' || c == '\U{000C}' || c == '\r' || c == ' '
    || c == '\U{00A0}' || c == '\U{1680}' || ('\U{2000}' <= c <= '\U{200A}')
    || c == '\U{2028}' || c == '\U{2029}' || c == '\U{202F}' || c == '\U{205F}'
    || c == '\U{3000}' || c == '\U{FEFF}'
  }

  predicate AllWhitespace(s: string) {
    forall i :: 0 <= i < |s| ==> IsWhitespace(s[i])
  }

  predicate NoWhitespace(s: string) {
    forall i :: 0 <= i < |s| ==> !IsWhitespace(s[i])
  }

  /** Neither end of `s` is white space: what `trim` leaves behind. */
  predicate Trimmed(s: string) {
    s == [] || (!IsWhitespace(s[0]) && !IsWhitespace(s[|s| - 1]))
  }

  /** `s.replace(/\s+/g, '')`: every white-space character removed. */
  function StripWhitespace(s: string): (r: string)
    ensures NoWhitespace(r)
    ensures |r| <= |s|
  {
    if s == [] then []
    else if IsWhitespace(s[0]) then StripWhitespace(s[1..])
    else [s[0]] + StripWhitespace(s[1..])
  }

  /** A string without white space is left as it is. */
  lemma {:induction false} StripWhitespaceKeeps(s: string)
    requires NoWhitespace(s)
    ensures StripWhitespace(s) == s
  {
    if s != [] {
      StripWhitespaceKeeps(s[1..]);
      assert s == [s[0]] + s[1..];
    }
  }

  /** The result is empty exactly when the input is all white space. */
  lemma {:induction false} StripWhitespaceEmptyIff(s: string)
    ensures StripWhitespace(s) == [] <==> AllWhitespace(s)
  {
    if s != [] {
      StripWhitespaceEmptyIff(s[1..]);
      assert s == [s[0]] + s[1..];
    }
  }

  /** Only characters of the input are kept. */
  lemma {:induction false} StripWhitespaceSubMultiset(s: string)
    ensures multiset(StripWhitespace(s)) <= multiset(s)
  {
    if s != [] {
      StripWhitespaceSubMultiset(s[1..]);
      assert s == [s[0]] + s[1..];
      assert multiset(s) == multiset{s[0]} + multiset(s[1..]);
      if !IsWhitespace(s[0]) {
        assert multiset([s[0]] + StripWhitespace(s[1..])) == multiset{s[0]} + multiset(StripWhitespace(s[1..]));
      }
    }
  }

  /** Removing white space from two pieces is removing it from their concatenation. */
  lemma {:induction false} StripWhitespaceConcat(a: string, b: string)
    ensures StripWhitespace(a + b) == StripWhitespace(a) + StripWhitespace(b)
  {
    if a == [] {
      assert a + b == b;
    } else {
      assert (a + b)[0] == a[0];
      assert (a + b)[1..] == a[1..] + b;
      StripWhitespaceConcat(a[1..], b);
    }
  }

  /** Stripping twice is stripping once. */
  lemma StripWhitespaceIdempotent(s: string)
    ensures StripWhitespace(StripWhitespace(s)) == StripWhitespace(s)
  {
    StripWhitespaceKeeps(StripWhitespace(s));
  }

  /** Leading white space removed. */
  function TrimStart(s: string): (r: string)
    ensures |r| <= |s|
    ensures r != [] ==> !IsWhitespace(r[0])
  {
    if s != [] && IsWhitespace(s[0]) then TrimStart(s[1..]) else s
  }

  /** What `TrimStart` cuts is a white-space prefix. */
  lemma {:induction false} TrimStartShape(s: string)
    ensures s == s[..|s| - |TrimStart(s)|] + TrimStart(s)
    ensures AllWhitespace(s[..|s| - |TrimStart(s)|])
  {
    if s != [] && IsWhitespace(s[0]) {
      TrimStartShape(s[1..]);
      var k := |s| - |TrimStart(s)|;
      assert s[1..][..k - 1] == s[1..k];
      assert s[..k] == [s[0]] + s[1..k];
    }
  }

  /** Trailing white space removed. */
  function TrimEnd(s: string): (r: string)
    ensures |r| <= |s|
    ensures r != [] ==> !IsWhitespace(r[|r| - 1]) && r[0] == s[0]
  {
    if s != [] && IsWhitespace(s[|s| - 1]) then TrimEnd(s[..|s| - 1]) else s
  }

  /** What `TrimEnd` cuts is a white-space suffix. */
  lemma {:induction false} TrimEndShape(s: string)
    ensures s == TrimEnd(s) + s[|TrimEnd(s)|..]
    ensures AllWhitespace(s[|TrimEnd(s)|..])
  {
    if s != [] && IsWhitespace(s[|s| - 1]) {
      var init := s[..|s| - 1];
      TrimEndShape(init);
      var k := |TrimEnd(s)|;
      assert init[k..] + [s[|s| - 1]] == s[k..];
    }
  }

  /** `s.trim()`. */
  function Trim(s: string): (r: string)
    ensures Trimmed(r)
    ensures |r| <= |s|
  {
    TrimEnd(TrimStart(s))
  }

  /** `trim` only cuts white space: `s` is the result padded by white space on both sides. */
  lemma TrimSplits(s: string) returns (pre: string, post: string)
    ensures s == pre + Trim(s) + post
    ensures AllWhitespace(pre) && AllWhitespace(post)
  {
    var t := TrimStart(s);
    TrimStartShape(s);
    TrimEndShape(t);
    pre := s[..|s| - |t|];
    post := t[|Trim(s)|..];
  }

  lemma {:induction false} TrimStartPadded(pre: string, w: string)
    requires AllWhitespace(pre)
    requires w == [] || !IsWhitespace(w[0])
    ensures TrimStart(pre + w) == w
  {
    if pre != [] {
      assert (pre + w)[1..] == pre[1..] + w;
      TrimStartPadded(pre[1..], w);
    }
  }

  lemma {:induction false} TrimEndPadded(w: string, post: string)
    requires AllWhitespace(post)
    requires w == [] || !IsWhitespace(w[|w| - 1])
    ensures TrimEnd(w + post) == w
  {
    if post != [] {
      var s := w + post;
      assert s[..|s| - 1] == w + post[..|post| - 1];
      TrimEndPadded(w, post[..|post| - 1]);
    }
  }

  /** A trimmed word padded with white space trims back to that word. */
  lemma {:induction false} TrimOfPadded(pre: string, w: string, post: string)
    requires AllWhitespace(pre) && AllWhitespace(post)
    requires Trimmed(w)
    ensures Trim(pre + w + post) == w
  {
    if w == [] {
      assert pre + w + post == pre + post;
      assert AllWhitespace(pre + post);
      TrimStartPadded(pre + post, []);
      assert pre + post + [] == pre + post;
      assert TrimStart(pre + post) == [];
    } else {
      assert pre + w + post == pre + (w + post);
      TrimStartPadded(pre, w + post);
      TrimEndPadded(w, post);
    }
  }

  /** A string without white space is its own trim. */
  lemma TrimNoWhitespace(s: string)
    requires NoWhitespace(s)
    ensures Trim(s) == s
  {
    assert [] + s + [] == s;
    TrimOfPadded([], s, []);
  }

  function LowerChar(c: char): (l: char)
    ensures !('A' <= l <= 'Z')
    ensures !('A' <= c <= 'Z') ==> l == c
  {
    if 'A' <= c <= 'Z' then (c as int + 32) as char else c
  }

  function UpperChar(c: char): (u: char)
    ensures !('a' <= u <= 'z')
    ensures !('a' <= c <= 'z') ==> u == c
  {
    if 'a' <= c <= 'z' then (c as int - 32) as char else c
  }

  /** `toLowerCase()` restricted to the ASCII letters. */
  function ToLowerAscii(s: string): (r: string)
    ensures |r| == |s|
  {
    seq(|s|, i requires 0 <= i < |s| => LowerChar(s[i]))
  }

  /** `toUpperCase()` restricted to the ASCII letters. */
  function ToUpperAscii(s: string): (r: string)
    ensures |r| == |s|
  {
    seq(|s|, i requires 0 <= i < |s| => UpperChar(s[i]))
  }

  /** `message || fallback`: an absent or empty message gives way to the fallback. */
  function MessageOr(message: Option<string>, fallback: string): (r: string)
    ensures message.Some? && message.value != "" ==> r == message.value
    ensures message.None? || message.value == "" ==> r == fallback
    ensures fallback != "" ==> r != ""
  {
    if message.Some? && message.value != "" then message.value else fallback
  }
}
