/** Worked examples of the referrer heuristic. Each query is written as its
    tokens joined by separators; the tokens are parameters fixed by the
    requires clause. Passing the literals as parameters keeps the verifier
    from unfolding `Split` over literal strings character by character,
    which costs far more than the lemmas about one token and one separator
    (`SplitToken`, `SplitSingle`) used here instead. */
module ReferrerExamples {
  import opened Wrappers
  import opened Text
  import opened ApprovalGate

  function Identity(s: string): string { s }

  /** A request whose referrer has the given query and whose decoder is `decode`. */
  function Referrer(query: string, decode: string -> string): Ambient {
    Ambient(Default, true, Some(query), decode)
  }

  /** A top-level token that decodes to "mode=edit" (up to case) turns edit mode on. */
  lemma EditModeByTopToken(env: Ambient, i: nat)
    requires env.referrerQuery.Some? && !IsNullOrWhiteSpace(env.referrerQuery)
    requires i < |Split(env.referrerQuery.value)|
    requires EqualsIgnoreCase(EditModePattern, env.urlDecode(Split(env.referrerQuery.value)[i]))
    ensures IsReferrerInEditMode(env)
  {
    assert HasToken(EditModePattern, env.referrerQuery.value, env.urlDecode);
  }

  /** A query of a single token that decodes to neither pattern nor a "url=" token. */
  lemma NoEditModeBySingleToken(env: Ambient, t: string)
    requires env.referrerQuery.Some? && Split(env.referrerQuery.value) == [t]
    requires !EqualsIgnoreCase(EditModePattern, env.urlDecode(t))
    requires !StartsWithIgnoreCase(env.urlDecode(t), UrlPrefix)
    ensures !IsReferrerInEditMode(env)
  {
    var d := DecodeAll(Split(env.referrerQuery.value), env.urlDecode);
    assert d == [env.urlDecode(t)];
    assert LastUrlToken(d).None?;
  }

  /** A single "url=" token whose decoded, re-split content holds a token that
      decodes to "sc_mode=edit" turns edit mode on. */
  lemma EditModeByInnerToken(env: Ambient, t: string, u: string, i: nat)
    requires env.referrerQuery.Some? && !IsNullOrWhiteSpace(env.referrerQuery)
    requires Split(env.referrerQuery.value) == [t] && env.urlDecode(t) == u
    requires StartsWithIgnoreCase(u, UrlPrefix)
    requires i < |Split(u)| && EqualsIgnoreCase(UrlEditModePattern, env.urlDecode(Split(u)[i]))
    ensures IsReferrerInEditMode(env)
  {
    var d := DecodeAll(Split(env.referrerQuery.value), env.urlDecode);
    assert d == [u];
    assert LastUrlToken(d) == Some(u);
    assert HasToken(UrlEditModePattern, u, env.urlDecode);
  }

  /** "?mode=edit" turns edit mode on. */
  lemma TopLevelEditMode(t: string)
    requires t == "mode=edit"
    ensures IsReferrerInEditMode(Referrer(['?'] + t, Identity))
  {
    var q := ['?'] + t;
    assert Split(q) == [t] by { SplitSingle('?', t); }
    assert !IsNullOrWhiteSpace(Some(q)) by { assert !IsWhiteSpace(q[0]); }
    assert EqualsIgnoreCase(EditModePattern, Identity(t));
    EditModeByTopToken(Referrer(q, Identity), 0);
  }

  lemma SplitThreeTokens(a: string, b: string, c: string)
    requires a != [] && b != [] && c != []
    requires SeparatorFree(a) && SeparatorFree(b) && SeparatorFree(c)
    ensures Split(['/'] + (a + ['?'] + (b + ['&'] + c))) == [a, b, c]
  {
    SplitLastToken(c);
    SplitToken(b, '&', c);
    SplitToken(a, '?', b + ['&'] + c);
    SplitSeparator('/', a + ['?'] + (b + ['&'] + c));
  }

  /** "/page?id=3&Mode=Edit": the pattern matches in any letter case, after other tokens. */
  lemma TopLevelEditModeAnyCase(page: string, id: string, mode: string)
    requires page == "page" && id == "id=3" && mode == "Mode=Edit"
    ensures IsReferrerInEditMode(Referrer(['/'] + (page + ['?'] + (id + ['&'] + mode)), Identity))
  {
    SplitThreeTokens(page, id, mode);
    assert EqualsIgnoreCase(EditModePattern, mode) by {
      assert LowerAscii(mode) == EditModePattern;
    }
    EditModeByTopToken(Referrer(['/'] + (page + ['?'] + (id + ['&'] + mode)), Identity), 2);
  }

  /** "mode=view" is neither the edit-mode pattern nor a "url=" token. */
  lemma ModeViewFacts(t: string)
    requires t == "mode=view"
    ensures !EqualsIgnoreCase(EditModePattern, t) && !StartsWithIgnoreCase(t, UrlPrefix)
  {
    assert LowerAscii(EditModePattern)[5] != LowerAscii(t)[5];
    assert LowerAscii(t[..4])[0] != LowerAscii(UrlPrefix)[0];
  }

  /** "?mode=view" does not turn edit mode on, and neither does a missing referrer. */
  lemma NoEditMode(t: string)
    requires t == "mode=view"
    ensures !IsReferrerInEditMode(Referrer(['?'] + t, Identity))
    ensures !IsReferrerInEditMode(Ambient(Default, true, None, Identity))
  {
    SplitSingle('?', t);
    ModeViewFacts(t);
    NoEditModeBySingleToken(Referrer(['?'] + t, Identity), t);
  }

  /** "sc_mode=edit" is neither the edit-mode pattern nor a "url=" token. */
  lemma ScModeEditFacts(t: string)
    requires t == "sc_mode=edit"
    ensures !EqualsIgnoreCase(EditModePattern, t) && !StartsWithIgnoreCase(t, UrlPrefix)
  {
    assert |LowerAscii(EditModePattern)| != |LowerAscii(t)|;
    assert LowerAscii(t[..4])[0] != LowerAscii(UrlPrefix)[0];
  }

  /** "?sc_mode=edit": the nested pattern alone at top level does not match. */
  lemma TopLevelUrlPatternIgnored(t: string)
    requires t == "sc_mode=edit"
    ensures !IsReferrerInEditMode(Referrer(['?'] + t, Identity))
  {
    SplitSingle('?', t);
    ScModeEditFacts(t);
    NoEditModeBySingleToken(Referrer(['?'] + t, Identity), t);
  }

  /** A decoder that knows one encoded "url=" token, which it decodes to
      "url=/page?sc_mode=edit". */
  function PageDecode(s: string): string {
    if s == "url=%2Fpage%3Fsc_mode%3Dedit" then "url=" + ['/'] + ("page" + ['?'] + "sc_mode=edit") else s
  }

  lemma SplitDecodedUrl(url: string, page: string, mode: string)
    requires url != [] && page != [] && mode != []
    requires SeparatorFree(url) && SeparatorFree(page) && SeparatorFree(mode)
    ensures Split(url + ['/'] + (page + ['?'] + mode)) == [url, page, mode]
  {
    SplitLastToken(mode);
    SplitToken(page, '?', mode);
    SplitToken(url, '/', page + ['?'] + mode);
  }

  /** The facts about the outer query behind NestedEditMode. As elsewhere in
      this module, each literal is a parameter so that `Split` is reasoned
      about token by token. */
  lemma NestedOuterFacts(t: string)
    requires t == "url=%2Fpage%3Fsc_mode%3Dedit"
    ensures Split(['?'] + t) == [t] && !IsNullOrWhiteSpace(Some(['?'] + t))
    ensures PageDecode(t) == "url=" + ['/'] + ("page" + ['?'] + "sc_mode=edit")
  {
    SplitSingle('?', t);
    assert !IsWhiteSpace((['?'] + t)[0]);
  }

  /** The facts about the decoded "url=" token behind NestedEditMode. */
  lemma NestedInnerFacts(url: string, page: string, mode: string)
    requires url == "url=" && page == "page" && mode == "sc_mode=edit"
    ensures StartsWithIgnoreCase(url + ['/'] + (page + ['?'] + mode), UrlPrefix)
    ensures Split(url + ['/'] + (page + ['?'] + mode)) == [url, page, mode]
    ensures EqualsIgnoreCase(UrlEditModePattern, PageDecode(mode))
  {
    assert (url + ['/'] + (page + ['?'] + mode))[..4] == url;
    SplitDecodedUrl(url, page, mode);
  }

  /** "?url=%2Fpage%3Fsc_mode%3Dedit": an encoded "sc_mode=edit" inside a
      "url=" token is found once that token is decoded, split and decoded again. */
  lemma NestedEditMode(t: string, url: string, page: string, mode: string)
    requires t == "url=%2Fpage%3Fsc_mode%3Dedit"
    requires url == "url=" && page == "page" && mode == "sc_mode=edit"
    ensures IsReferrerInEditMode(Referrer(['?'] + t, PageDecode))
  {
    NestedOuterFacts(t);
    NestedInnerFacts(url, page, mode);
    EditModeByInnerToken(Referrer(['?'] + t, PageDecode), t, url + ['/'] + (page + ['?'] + mode), 2);
  }
}
