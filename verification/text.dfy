/** The string primitives the referrer heuristic relies on: splitting a query on
    '?', '&' and '/' with empty entries removed, ASCII case folding, and the
    white-space test of string.IsNullOrWhiteSpace. */
module Text {
  import opened Wrappers

  predicate IsSeparator(c: char) {
    c == '?' || c == '&' || c == '/'
  }

  predicate SeparatorFree(s: string) {
    forall i :: 0 <= i < |s| ==> !IsSeparator(s[i])
  }

  /** Length of the run of non-separator characters that starts `s`. */
  function TokenLength(s: string): (n: nat)
    ensures n <= |s|
    ensures forall i :: 0 <= i < n ==> !IsSeparator(s[i])
    ensures n < |s| ==> IsSeparator(s[n])
  {
    if s == [] || IsSeparator(s[0]) then 0 else 1 + TokenLength(s[1..])
  }

  /** string.Split(new[] {'?', '&', '/'}, StringSplitOptions.RemoveEmptyEntries) */
  function Split(s: string): seq<string>
    decreases |s|
  {
    if s == [] then []
    else if IsSeparator(s[0]) then Split(s[1..])
    else
      var n := TokenLength(s);
      [s[..n]] + Split(s[n..])
  }

  /** Every token is non-empty and holds no separator. */
  lemma {:induction false} SplitTokensWellFormed(s: string)
    ensures forall k :: 0 <= k < |Split(s)| ==> Split(s)[k] != [] && SeparatorFree(Split(s)[k])
    decreases |s|
  {
    if s != [] {
      if IsSeparator(s[0]) {
        SplitTokensWellFormed(s[1..]);
      } else {
        var n := TokenLength(s);
        SplitTokensWellFormed(s[n..]);
        assert Split(s) == [s[..n]] + Split(s[n..]);
        assert s[..n] != [] && SeparatorFree(s[..n]);
      }
    }
  }

  /** TokenLength is the length of the leading separator-free run, exactly. */
  lemma TokenLengthIs(s: string, n: nat)
    requires n <= |s| && (forall i :: 0 <= i < n ==> !IsSeparator(s[i])) && (n < |s| ==> IsSeparator(s[n]))
    ensures TokenLength(s) == n
  {
  }

  /** A separator-free token followed by a separator and the rest. */
  lemma SplitToken(token: string, sep: char, rest: string)
    requires token != [] && SeparatorFree(token) && IsSeparator(sep)
    ensures Split(token + [sep] + rest) == [token] + Split(rest)
  {
    var s := token + [sep] + rest;
    var n := |token|;
    assert s[..n] == token;
    TokenLengthIs(s, n);
    assert s[n..] == [sep] + rest;
    assert ([sep] + rest)[1..] == rest;
  }

  /** A leading separator is dropped. */
  lemma SplitSeparator(sep: char, rest: string)
    requires IsSeparator(sep)
    ensures Split([sep] + rest) == Split(rest)
  {
    assert ([sep] + rest)[1..] == rest;
  }

  /** The last token of a query. */
  lemma SplitLastToken(token: string)
    requires token != [] && SeparatorFree(token)
    ensures Split(token) == [token]
  {
    assert token[..|token|] == token;
    TokenLengthIs(token, |token|);
    assert token[|token|..] == [];
  }

  /** A query made of one separator and one token. */
  lemma SplitSingle(sep: char, token: string)
    requires IsSeparator(sep) && token != [] && SeparatorFree(token)
    ensures Split([sep] + token) == [token]
  {
    SplitLastToken(token);
    SplitSeparator(sep, token);
  }

  /** The characters of `s` that are not separators, in order. */
  function WithoutSeparators(s: string): string {
    if s == [] then []
    else (if IsSeparator(s[0]) then [] else [s[0]]) + WithoutSeparators(s[1..])
  }

  function Concat(parts: seq<string>): string {
    if parts == [] then [] else parts[0] + Concat(parts[1..])
  }

  lemma {:induction false} PrefixWithoutSeparators(s: string, n: nat)
    requires n <= |s| && forall i :: 0 <= i < n ==> !IsSeparator(s[i])
    ensures WithoutSeparators(s) == s[..n] + WithoutSeparators(s[n..])
    decreases n
  {
    if n > 0 {
      var rest := s[1..];
      assert forall i :: 0 <= i < n - 1 ==> !IsSeparator(rest[i]) by {
        forall i | 0 <= i < n - 1 ensures !IsSeparator(rest[i]) {
          assert rest[i] == s[i + 1];
        }
      }
      PrefixWithoutSeparators(rest, n - 1);
      calc {
        WithoutSeparators(s);
        [s[0]] + WithoutSeparators(rest);
        [s[0]] + (rest[..n - 1] + WithoutSeparators(rest[n - 1..]));
        { assert rest[n - 1..] == s[n..]; }
        ([s[0]] + rest[..n - 1]) + WithoutSeparators(s[n..]);
        { assert [s[0]] + rest[..n - 1] == s[..n]; }
        s[..n] + WithoutSeparators(s[n..]);
      }
    }
  }

  /** Splitting loses nothing but the separators: the tokens, put back
      together, are the query with every separator removed. */
  lemma {:induction false} SplitKeepsEverythingButSeparators(s: string)
    ensures Concat(Split(s)) == WithoutSeparators(s)
    decreases |s|
  {
    if s != [] {
      if IsSeparator(s[0]) {
        SplitKeepsEverythingButSeparators(s[1..]);
      } else {
        var n := TokenLength(s);
        SplitKeepsEverythingButSeparators(s[n..]);
        PrefixWithoutSeparators(s, n);
        assert Split(s) == [s[..n]] + Split(s[n..]);
        assert ([s[..n]] + Split(s[n..]))[1..] == Split(s[n..]);
      }
    }
  }

  /** ASCII lower-casing (culture-specific folding is not modelled). */
  function ToLowerAscii(c: char): char {
    if 'A' <= c <= 'Z' then (c as int + 32) as char else c
  }

  function LowerAscii(s: string): string {
    seq(|s|, i requires 0 <= i < |s| => ToLowerAscii(s[i]))
  }

  predicate EqualsIgnoreCase(a: string, b: string) {
    LowerAscii(a) == LowerAscii(b)
  }

  predicate StartsWithIgnoreCase(s: string, prefix: string) {
    |prefix| <= |s| && EqualsIgnoreCase(s[..|prefix|], prefix)
  }

  /** char.IsWhiteSpace: the Unicode space, line and paragraph separators,
      U+0009 to U+000D, and U+0085. */
  predicate IsWhiteSpace(c: char) {
    c == ' ' || ('\t' <= c <= '\r') || c == '\U{0085}' || c == '\U{00A0}' || c == '\U{1680}'
    || ('\U{2000}' <= c <= '\U{200A}') || c == '\U{2028}' || c == '\U{2029}'
    || c == '\U{202F}' || c == '\U{205F}' || c == '\U{3000}'
  }

  /** string.IsNullOrWhiteSpace, with `None` for null. */
  predicate IsNullOrWhiteSpace(s: Option<string>) {
    s.None? || forall i :: 0 <= i < |s.value| ==> IsWhiteSpace(s.value[i])
  }
}
