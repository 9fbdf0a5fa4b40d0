/**
 * The few pieces of Java and Jenkins string handling the build step relies on:
 * `String.trim`, `Util.fixEmptyAndTrim`, `StringUtils.isBlank` (over
 * `Character.isWhitespace`) and the token stream of a `StringTokenizer`
 * whose delimiters are space, tab, carriage return and line feed.
 */
module JavaText {
  import opened Wrappers

  /** `String.trim` removes every code point up to U+0020 from both ends. */
  predicate IsTrimmable(c: char) { c <= ' ' }

  /** `Character.isWhitespace`: the Unicode space separators other than the no-break ones,
      the line and paragraph separators, and the ASCII controls \t \n \u000B \f \r \u001C-\u001F. */
  predicate IsWhitespace(c: char): (b: bool)
    ensures IsTokenDelimiter(c) ==> b
    ensures b && c < '\U{0080}' ==> IsTrimmable(c)
  {
    c == '\t' || c == '\n' || c == '\U{000B}' || c == '\U{000C}' || c == '\r'
    || ('\U{001C}' <= c <= '\U{001F}') || c == ' ' || c == '\U{1680}'
    || ('\U{2000}' <= c <= '\U{2006}') || ('\U{2008}' <= c <= '\U{200A}')
    || c == '\U{2028}' || c == '\U{2029}' || c == '\U{205F}' || c == '\U{3000}'
  }

  /** `StringUtils.isBlank` on a non-null string: empty or whitespace only. */
  predicate IsBlank(s: string)
  {
    forall i :: 0 <= i < |s| ==> IsWhitespace(s[i])
  }

  /** `StringUtils.isBlank` on a possibly-null string. */
  predicate IsBlankOrNull(s: Option<string>) {
    s.None? || IsBlank(s.value)
  }

  /** Number of trimmable characters at the front of `s`. */
  function LeadingTrimmable(s: string): (n: nat)
    ensures n <= |s|
    ensures forall k :: 0 <= k < n ==> IsTrimmable(s[k])
    ensures n < |s| ==> !IsTrimmable(s[n])
  {
    if s != [] && IsTrimmable(s[0]) then 1 + LeadingTrimmable(s[1..]) else 0
  }

  /** Number of trimmable characters at the back of `s`. */
  function TrailingTrimmable(s: string): (n: nat)
    ensures n <= |s|
    ensures forall k :: |s| - n <= k < |s| ==> IsTrimmable(s[k])
    ensures n < |s| ==> !IsTrimmable(s[|s| - n - 1])
  {
    if s != [] && IsTrimmable(s[|s| - 1]) then 1 + TrailingTrimmable(s[..|s| - 1]) else 0
  }

  /**
   * `String.trim`: drops the trimmable characters at both ends. The result is empty exactly for
   * an all-trimmable input; otherwise it neither starts nor ends with a trimmable character, and
   * it is the infix that starts after the leading trimmable characters and is followed by
   * trimmable characters only.
   */
  function Trim(s: string): (t: string)
    ensures t == [] <==> forall k :: 0 <= k < |s| ==> IsTrimmable(s[k])
    ensures t != [] ==> !IsTrimmable(t[0]) && !IsTrimmable(t[|t| - 1])
    ensures var i := LeadingTrimmable(s);
            i + |t| <= |s| && t == s[i..i + |t|]
            && forall k :: i + |t| <= k < |s| ==> IsTrimmable(s[k])
  {
    var i := LeadingTrimmable(s);
    var rest := s[i..];
    var n := TrailingTrimmable(rest);
    var j := |rest| - n;
    var r := rest[..j];
    assert r == s[i..i + j];
    assert forall k :: i + j <= k < |s| ==> IsTrimmable(s[k]) by {
      forall k | i + j <= k < |s| ensures IsTrimmable(s[k]) {
        assert s[k] == rest[k - i];
      }
    }
    assert r == [] <==> forall k :: 0 <= k < |s| ==> IsTrimmable(s[k]) by {
      assert i < |s| ==> rest[0] == s[i] && !IsTrimmable(rest[0]);
      assert j == 0 ==> i == |s|;
    }
    assert r != [] ==> !IsTrimmable(r[0]) && !IsTrimmable(r[j - 1]) by {
      assert r != [] ==> r[0] == s[i] && r[j - 1] == rest[|rest| - n - 1];
    }
    r
  }

  /** `Util.fixEmptyAndTrim`: null stays null, otherwise the trimmed string, or null when that is empty. */
  function FixEmptyAndTrim(s: Option<string>): (r: Option<string>)
    ensures r.None? <==> s.None? || forall k :: 0 <= k < |s.value| ==> IsTrimmable(s.value[k])
    ensures r.Some? ==> r.value == Trim(s.value) && r.value != []
    ensures r.Some? ==> !IsTrimmable(r.value[0]) && !IsTrimmable(r.value[|r.value| - 1])
  {
    if s.None? then None
    else
      var t := Trim(s.value);
      if t == [] then None else Some(t)
  }

  /** A field stored by a setter passes the `isBlank` guards when its first character is ASCII:
      it starts with a character above U+0020, and no such ASCII character is whitespace. (A
      value that starts with a wider space, such as U+2000, survives the trim and is blank.) */
  lemma StoredFieldNotBlank(s: Option<string>)
    ensures var r := FixEmptyAndTrim(s);
            r.Some? && r.value[0] < '\U{0080}' ==> !IsBlankOrNull(r)
  {
    var r := FixEmptyAndTrim(s);
    if r.Some? && r.value[0] < '\U{0080}' {
      assert !IsWhitespace(r.value[0]);
    }
  }

  /** A string that is already trimmed is its own trim. */
  lemma TrimOfTrimmed(s: string)
    requires s != [] ==> !IsTrimmable(s[0]) && !IsTrimmable(s[|s| - 1])
    ensures Trim(s) == s
  {
    assert LeadingTrimmable(s) == 0;
    assert s[0..] == s;
    assert TrailingTrimmable(s) == 0;
  }

  /** Storing a value that a setter has already normalised leaves it as it is. */
  lemma FixEmptyAndTrimIdempotent(s: Option<string>)
    ensures FixEmptyAndTrim(FixEmptyAndTrim(s)) == FixEmptyAndTrim(s)
  {
    var r := FixEmptyAndTrim(s);
    if r.Some? {
      TrimOfTrimmed(r.value);
    }
  }

  /** The delimiters handed to `StringTokenizer` for the test-file pattern. */
  predicate IsTokenDelimiter(c: char) {
    c == ' ' || c == '\t' || c == '\r' || c == '\n'
  }

  predicate DelimiterFree(s: string) {
    forall k :: 0 <= k < |s| ==> !IsTokenDelimiter(s[k])
  }

  /** Tokens of `s` when the characters in `current` have already been read into a pending token. */
  function TokensFrom(s: string, current: string): (r: seq<string>)
    requires DelimiterFree(current)
    ensures forall k :: 0 <= k < |r| ==> r[k] != [] && DelimiterFree(r[k])
    decreases |s|
  {
    if s == [] then
      (if current == [] then [] else [current])
    else if IsTokenDelimiter(s[0]) then
      (if current == [] then TokensFrom(s[1..], []) else [current] + TokensFrom(s[1..], []))
    else
      TokensFrom(s[1..], current + [s[0]])
  }

  /** The tokens a `StringTokenizer` over " \t\r\n" returns, in order: maximal delimiter-free runs. */
  function Tokens(s: string): (r: seq<string>)
    ensures forall k :: 0 <= k < |r| ==> r[k] != [] && DelimiterFree(r[k])
  {
    TokensFrom(s, [])
  }

  function Flatten(ss: seq<string>): string {
    if ss == [] then [] else ss[0] + Flatten(ss[1..])
  }

  function WithoutDelimiters(s: string): (r: string)
    ensures DelimiterFree(r)
  {
    if s == [] then []
    else if IsTokenDelimiter(s[0]) then WithoutDelimiters(s[1..])
    else [s[0]] + WithoutDelimiters(s[1..])
  }

  lemma FlattenAppend(a: seq<string>, b: seq<string>)
    ensures Flatten(a + b) == Flatten(a) + Flatten(b)
  {
    if a == [] {
      assert a + b == b;
    } else {
      assert (a + b)[1..] == a[1..] + b;
      FlattenAppend(a[1..], b);
    }
  }

  lemma {:induction false} TokensFromFlatten(s: string, current: string)
    requires DelimiterFree(current)
    ensures Flatten(TokensFrom(s, current)) == current + WithoutDelimiters(s)
    decreases |s|
  {
    if s == [] {
    } else if IsTokenDelimiter(s[0]) {
      TokensFromFlatten(s[1..], []);
      if current != [] {
        FlattenAppend([current], TokensFrom(s[1..], []));
      }
    } else {
      TokensFromFlatten(s[1..], current + [s[0]]);
    }
  }

  /** No character is lost or reordered by tokenising: the tokens spell the input with its delimiters removed. */
  lemma TokensSpellInput(s: string)
    ensures Flatten(Tokens(s)) == WithoutDelimiters(s)
  {
    TokensFromFlatten(s, []);
  }

  lemma {:induction false} TokensFromSplit(a: string, d: char, b: string, current: string)
    requires IsTokenDelimiter(d) && DelimiterFree(current)
    ensures TokensFrom(a + [d] + b, current) == TokensFrom(a, current) + TokensFrom(b, [])
    decreases |a|
  {
    if a == [] {
      assert a + [d] + b == [d] + b;
      assert ([d] + b)[1..] == b;
    } else {
      assert (a + [d] + b)[0] == a[0];
      assert (a + [d] + b)[1..] == a[1..] + [d] + b;
      if IsTokenDelimiter(a[0]) {
        TokensFromSplit(a[1..], d, b, []);
      } else {
        TokensFromSplit(a[1..], d, b, current + [a[0]]);
      }
    }
  }

  /** Every delimiter separates: the tokens of `a d b` are the tokens of `a` followed by those of `b`. */
  lemma TokensSplitAtDelimiter(a: string, d: char, b: string)
    requires IsTokenDelimiter(d)
    ensures Tokens(a + [d] + b) == Tokens(a) + Tokens(b)
  {
    TokensFromSplit(a, d, b, []);
  }

  lemma {:induction false} TokensFromWord(s: string, current: string)
    requires DelimiterFree(s) && DelimiterFree(current) && current + s != []
    ensures TokensFrom(s, current) == [current + s]
    decreases |s|
  {
    if s == [] {
      assert current + s == current;
    } else {
      assert current + s == (current + [s[0]]) + s[1..];
      TokensFromWord(s[1..], current + [s[0]]);
    }
  }

  /** A non-empty delimiter-free string is a single token. */
  lemma TokensOfWord(s: string)
    requires s != [] && DelimiterFree(s)
    ensures Tokens(s) == [s]
  {
    TokensFromWord(s, []);
    assert [] + s == s;
  }
}
