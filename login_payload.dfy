/**
 * The `/api/auth/login-payload` route: the Sign-In with Ethereum message
 * (EIP-4361, section "Specification") the client signs. The clock and the
 * nonce generator are inputs; times are milliseconds since the epoch (their
 * ISO-8601 rendering is not modelled).
 */
module LoginPayloadRoute {
  import opened Wrappers
  import opened JsStrings

  const DayMs := 24 * 60 * 60 * 1000
  const Statement := "Sign in to MirrorPlay"
  const MissingAddressError := "Missing address"

  /** The deployment settings the route reads; an empty one counts as unset. */
  datatype AuthEnv = AuthEnv(authDomain: Option<string>, appUrl: Option<string>, chainId: Option<string>)

  datatype LoginPayload = LoginPayload(
    domain: string,
    address: string,
    statement: string,
    uri: string,
    version: string,
    chainId: string,
    nonce: string,
    issuedAt: int,
    expirationTime: int,
    invalidBefore: int)

  datatype PayloadResponse = PayloadOk(payload: LoginPayload) | PayloadError(status: nat, error: string)

  /** `GET ?address=…` */
  function Get(address: Option<string>, env: AuthEnv, nowMs: int, nonce: string): (r: PayloadResponse)
    ensures r.PayloadError? <==> !Truthy(address)
    ensures r.PayloadError? ==> r.status == 400 && r.error == MissingAddressError
    ensures r.PayloadOk? ==>
      var p := r.payload;
      && p.address == address.value && p.nonce == nonce
      && p.issuedAt == nowMs && p.invalidBefore == p.issuedAt
      && p.expirationTime == p.issuedAt + 86_400_000
      && p.version == "1" && p.statement == Statement
      && p.domain == (if Truthy(env.authDomain) then env.authDomain.value else "localhost:3000")
      && p.uri == (if Truthy(env.appUrl) then env.appUrl.value else "http://localhost:3000")
      && p.chainId == (if Truthy(env.chainId) then env.chainId.value else "1")
  {
    if !Truthy(address) then PayloadError(400, MissingAddressError)
    else
      PayloadOk(LoginPayload(
        OrElse(env.authDomain, "localhost:3000"),
        address.value,
        Statement,
        OrElse(env.appUrl, "http://localhost:3000"),
        "1",
        OrElse(env.chainId, "1"),
        nonce,
        nowMs,
        nowMs + DayMs,
        nowMs))
  }
}
