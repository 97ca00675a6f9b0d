/** The token extraction of the JWT filter (`AuthTokenFilter.parseJwt`):
    the `Authorization` header's value after `"Bearer "`, trimmed. */
module AuthToken {
  import opened Wrappers
  import opened JavaStrings

  const BearerPrefix: string := "Bearer "

  /** `parseJwt`, with the header value as the input (`None` for a missing
      header). The result is present exactly when the header has text and
      starts with `"Bearer "`, and it is then what follows the prefix,
      trimmed. */
  function ParseJwt(header: Option<string>): (r: Option<string>)
    ensures r.Some? <==> HasText(header) && StartsWith(header.value, BearerPrefix)
    ensures r.Some? ==> |r.value| <= |header.value| - |BearerPrefix|
    ensures r.Some? ==> r.value == [] || (!TrimmedAway(r.value[0]) && !TrimmedAway(r.value[|r.value| - 1]))
  {
    if HasText(header) && StartsWith(header.value, BearerPrefix) then
      Some(Trim(header.value[|BearerPrefix|..]))
    else
      None
  }

  /** The token a client sends round-trips: a token that neither starts
      nor ends with a char `trim` removes comes back unchanged from
      `"Bearer " + pre + token + post`, whatever such chars pad it. */
  lemma ParseJwtRoundTrip(pre: string, token: string, post: string)
    requires forall k :: 0 <= k < |pre| ==> TrimmedAway(pre[k])
    requires forall k :: 0 <= k < |post| ==> TrimmedAway(post[k])
    requires token == [] || (!TrimmedAway(token[0]) && !TrimmedAway(token[|token| - 1]))
    ensures ParseJwt(Some(BearerPrefix + pre + token + post)) == Some(token)
  {
    var h := BearerPrefix + pre + token + post;
    assert !IsWhitespace(h[0]);
    assert h[..|BearerPrefix|] == BearerPrefix;
    assert h[|BearerPrefix|..] == pre + token + post;
    TrimIgnoresPadding(pre, token, post);
  }

  /** A header of `"Bearer "` and blanks yields an empty token, not null:
      the prefix itself is text, so the `hasText` test does not reject it. */
  lemma BearerOnlySpacesGivesEmptyToken(spaces: string)
    requires forall k :: 0 <= k < |spaces| ==> spaces[k] == ' '
    ensures ParseJwt(Some(BearerPrefix + spaces)) == Some("")
  {
    var h := BearerPrefix + spaces;
    assert !IsWhitespace(h[0]);
    assert h[..|BearerPrefix|] == BearerPrefix;
    assert h[|BearerPrefix|..] == spaces + "" + "";
    TrimIgnoresPadding(spaces, "", "");
  }

  /** The prefix test is case-sensitive and needs the space. */
  lemma OtherSchemesRejected(token: string)
    ensures ParseJwt(Some("bearer " + token)) == None
    ensures ParseJwt(Some("Bearer")) == None
  {
    assert ("bearer " + token)[0] != BearerPrefix[0];
  }

  /** A trimmed token can still be nothing but whitespace: `trim` only
      removes chars up to U+0020, so an ideographic space survives. */
  lemma WideSpaceSurvivesTrim()
    ensures ParseJwt(Some(BearerPrefix + "\U{3000}")) == Some("\U{3000}")
  {
    assert BearerPrefix + "" + "\U{3000}" + "" == BearerPrefix + "\U{3000}";
    ParseJwtRoundTrip("", "\U{3000}", "");
  }
}
