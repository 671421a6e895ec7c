/**
 * The write-token guard in front of every mutating route
 * (src/modules/logs/interfaces/http/requireWriteToken.js). Header values and
 * the configured secret are `None` when absent. The timing-safe comparison is
 * modelled by its result only: byte-for-byte equality of equally long buffers.
 */
module WriteToken {
  import opened Wrappers
  import opened JsValues
  import opened Errors

  const BearerPrefix: string := "Bearer "

  const NotConfiguredMessage: string := "WRITE_TOKEN não configurado no servidor."
  const MissingMessage: string := "Token de escrita ausente."
  const InvalidMessage: string := "Token de escrita inválido."

  /** A header value JavaScript treats as falsy: absent or the empty string. */
  predicate Falsy(h: Option<string>) {
    h.None? || h.value == ""
  }

  predicate HasBearerPrefix(authorization: Option<string>) {
    authorization.Some? && BearerPrefix <= authorization.value
  }

  /**
   * The credential the guard checks: a non-empty `x-write-token` header wins;
   * otherwise an Authorization header starting with the case-sensitive "Bearer "
   * gives the rest of that header, trimmed; otherwise the write-token header as sent.
   */
  function ResolveCredential(headerToken: Option<string>, authorization: Option<string>): (r: Option<string>)
    ensures !Falsy(headerToken) ==> r == headerToken
    ensures Falsy(headerToken) && HasBearerPrefix(authorization) ==>
              r == Some(Trim(authorization.value[|BearerPrefix|..]))
    ensures Falsy(headerToken) && !HasBearerPrefix(authorization) ==> r == headerToken
  {
    if Falsy(headerToken) && HasBearerPrefix(authorization) then
      Some(Trim(authorization.value[|BearerPrefix|..]))
    else
      headerToken
  }

  /** `crypto.timingSafeEqual` on two buffers of the same length: every position is compared. */
  function TimingSafeEqual(a: string, b: string): (r: bool)
    requires |a| == |b|
    ensures r <==> a == b
  {
    forall i :: 0 <= i < |a| ==> a[i] == b[i]
  }

  /** `received.length !== expected.length || !timingSafeEqual(received, expected)` */
  predicate Mismatch(received: string, expected: string) {
    |received| != |expected| || !TimingSafeEqual(received, expected)
  }

  /**
   * The guard. Failures are reported in a fixed order: no configured secret (500),
   * then no credential (401), then a credential that differs from the secret (401).
   */
  function RequireWriteToken(headerToken: Option<string>, authorization: Option<string>, expected: Option<string>): (r: Outcome)
    ensures r.Pass? <==> !Falsy(expected) && ResolveCredential(headerToken, authorization) == expected
    ensures Falsy(expected) ==> r == Fail(Raise(NotConfiguredMessage, 500, WRITE_TOKEN_MISSING))
    ensures !Falsy(expected) && ResolveCredential(headerToken, authorization).None? ==>
              r == Fail(Raise(MissingMessage, 401, TOKEN_MISSING))
    ensures !Falsy(expected) && ResolveCredential(headerToken, authorization).Some? &&
            ResolveCredential(headerToken, authorization) != expected ==>
              r == Fail(Raise(InvalidMessage, 401, TOKEN_INVALID))
  {
    var received := ResolveCredential(headerToken, authorization);
    if Falsy(expected) then
      Fail(Raise(NotConfiguredMessage, 500, WRITE_TOKEN_MISSING))
    else if received.None? then
      Fail(Raise(MissingMessage, 401, TOKEN_MISSING))
    else if Mismatch(received.value, expected.value) then
      Fail(Raise(InvalidMessage, 401, TOKEN_INVALID))
    else
      Pass
  }

  /** When the write-token header is non-empty, whatever the Authorization header says is ignored. */
  lemma HeaderTokenTakesPrecedence(headerToken: string, a1: Option<string>, a2: Option<string>, expected: Option<string>)
    requires headerToken != ""
    ensures RequireWriteToken(Some(headerToken), a1, expected) == RequireWriteToken(Some(headerToken), a2, expected)
  {
  }

  /**
   * An empty write-token header with no usable bearer header is still a credential
   * (the empty string), so a configured guard answers TOKEN_INVALID, not TOKEN_MISSING.
   */
  lemma EmptyHeaderIsInvalidNotMissing(authorization: Option<string>, expected: string)
    requires expected != "" && !HasBearerPrefix(authorization)
    ensures RequireWriteToken(Some(""), authorization, Some(expected)) == Fail(Raise(InvalidMessage, 401, TOKEN_INVALID))
  {
  }

  /** An Authorization header in another case ("bearer x") is not read, so it leaves the credential missing. */
  lemma LowerCaseBearerIsIgnored(rest: string, expected: string)
    requires expected != ""
    ensures RequireWriteToken(None, Some("bearer " + rest), Some(expected)) == Fail(Raise(MissingMessage, 401, TOKEN_MISSING))
  {
    assert !(BearerPrefix <= "bearer " + rest) by {
      assert ("bearer " + rest)[0] == 'b';
    }
  }
}
