/** `_extract_bearer_token` of backend/app/supabase_client.py: reading the
    access token out of an HTTP Authorization header. */
module Auth {
  import opened Wrappers
  import opened PyStr

  /** FastAPI's `HTTPException`. */
  datatype HttpError = HttpError(statusCode: int, detail: string)

  const Unauthorized: int := 401

  const BearerPrefix: string := "Bearer "

  /** `_extract_bearer_token`: a missing or empty header and a header without
      the case-sensitive "Bearer " prefix are 401 errors; otherwise the token
      is the text after the first space, stripped of surrounding whitespace. */
  function ExtractBearerToken(authorization: Option<string>): (r: Result<string, HttpError>)
    ensures (authorization == None || authorization == Some("")) <==>
      r == Err(HttpError(Unauthorized, "Missing Authorization header"))
    ensures authorization.Some? && authorization.value != "" && !StartsWith(authorization.value, BearerPrefix) <==>
      r == Err(HttpError(Unauthorized, "Invalid Authorization header"))
    ensures r.Ok? ==> StartsWith(authorization.value, BearerPrefix)
    ensures r.Ok? ==> r.value == Strip(authorization.value[|BearerPrefix|..])
  {
    if authorization == None || authorization.value == "" then
      Err(HttpError(Unauthorized, "Missing Authorization header"))
    else if !StartsWith(authorization.value, BearerPrefix) then
      Err(HttpError(Unauthorized, "Invalid Authorization header"))
    else
      var header := authorization.value;
      var parts := SplitOnce(header, ' ');
      assert header[6] == ' ' && ' ' !in header[..6];
      assert parts[0] == header[..6] && parts[1] == header[7..];
      Ok(Strip(parts[1]))
  }

  /** Whatever surrounds it, a token without surrounding whitespace that
      follows "Bearer " comes back unchanged. */
  lemma BearerRoundTrip(pad: string, token: string, trailing: string)
    requires AllSpace(pad) && AllSpace(trailing)
    requires token == [] || (!IsSpace(token[0]) && !IsSpace(token[|token| - 1]))
    ensures ExtractBearerToken(Some(BearerPrefix + pad + token + trailing)) == Ok(token)
  {
    var h := BearerPrefix + pad + token + trailing;
    assert h[..|BearerPrefix|] == BearerPrefix;
    assert h[|BearerPrefix|..] == pad + token + trailing;
    StripPadded(pad, token, trailing);
  }

  /** "Bearer " followed only by whitespace is accepted with an empty token. */
  lemma BlankTokenAccepted(pad: string)
    requires AllSpace(pad)
    ensures ExtractBearerToken(Some(BearerPrefix + pad)) == Ok("")
  {
    BearerRoundTrip(pad, "", "");
    assert BearerPrefix + pad + "" + "" == BearerPrefix + pad;
  }

  /** The prefix test is case-sensitive. */
  lemma LowerCaseBearerRejected(rest: string)
    ensures ExtractBearerToken(Some("bearer " + rest)) == Err(HttpError(Unauthorized, "Invalid Authorization header"))
  {
    assert ("bearer " + rest)[0] == 'b';
  }
}
