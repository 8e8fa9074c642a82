/**
 * Token authorization of the WebSocket handler (backend/src/index.ts, decodeToken and authorize).
 * The JWT library's decode, the JWKS client's signing-key lookup and the library's signature check
 * are outside this code; each is an oracle, a field of `Jwt`.
 */
module Auth {
  import opened Wrappers

  /** The protected header of a decoded token; `kid` may be missing. */
  datatype Header = Header(kid: Option<string>)

  /** The `complete` form of a decoded token; `header` may be missing. */
  datatype Decoded = Decoded(header: Option<Header>)

  /** The library's decode either throws or returns an object that may be null. */
  datatype DecodeOutcome = DecodeThrew | DecodeReturned(decoded: Option<Decoded>)

  datatype SigningKey = SigningKey(publicKey: string)

  /** The promisified key lookup either rejects or resolves to a key that may be falsy. */
  datatype KeyOutcome = KeyRejected | KeyResolved(key: Option<SigningKey>)

  /**
   * The three library calls authorize depends on. `verify(token, publicKey)` is true when the
   * library's verify (with the configured audience and issuer) returns, false when it throws.
   */
  datatype Jwt = Jwt(
    decode: string -> DecodeOutcome,
    getSigningKey: string -> KeyOutcome,
    verify: (string, string) -> bool)

  /** Errors thrown inside authorize's outer try block. */
  datatype Thrown = LibraryError | InvalidToken

  /** JavaScript truthiness of a string that may be null or undefined. */
  predicate Truthy(s: Option<string>) {
    s.Some? && s.value != ""
  }

  /** A decoded token whose header carries a truthy key id. */
  predicate HasKid(d: Decoded) {
    d.header.Some? && Truthy(d.header.value.kid)
  }

  function Kid(d: Decoded): string
    requires HasKid(d)
  {
    d.header.value.kid.value
  }

  /**
   * decodeToken: the decoded token, or the error it throws. A token that decodes to null,
   * or lacks a header, or whose header lacks a truthy kid, is rejected with "Invalid token";
   * an error thrown by the library itself propagates.
   */
  function DecodeToken(jwt: Jwt, token: string): (r: Result<Decoded, Thrown>)
    ensures r.Ok? <==> jwt.decode(token).DecodeReturned? && jwt.decode(token).decoded.Some?
                       && HasKid(jwt.decode(token).decoded.value)
    ensures r.Ok? ==> jwt.decode(token) == DecodeReturned(Some(r.value)) && HasKid(r.value)
    ensures r.Err? ==> (r.error == LibraryError <==> jwt.decode(token).DecodeThrew?)
  {
    match jwt.decode(token)
    case DecodeThrew => Err(LibraryError)
    case DecodeReturned(decoded) =>
      if decoded.None? || decoded.value.header.None? || !Truthy(decoded.value.header.value.kid) then
        Err(InvalidToken)
      else
        Ok(decoded.value)
  }

  /** How the body of authorize's outer try block ends. */
  datatype TryExit = ReturnTrue | ReturnFalse | Throw(error: Thrown) | FallThrough

  /**
   * The outer try block of authorize: decode, look up the signing key by kid, and if the key is
   * truthy run verify inside the inner try, whose catch returns false.
   */
  function AuthorizeTry(jwt: Jwt, token: string): (x: TryExit)
    ensures x == ReturnTrue ==> DecodeToken(jwt, token).Ok?
    ensures x.Throw? <==> (DecodeToken(jwt, token).Err?
                          || jwt.getSigningKey(Kid(DecodeToken(jwt, token).value)).KeyRejected?)
  {
    match DecodeToken(jwt, token)
    case Err(e) => Throw(e)
    case Ok(decoded) =>
      match jwt.getSigningKey(Kid(decoded))
      case KeyRejected => Throw(LibraryError)
      case KeyResolved(signingKey) =>
        if signingKey.None? then FallThrough
        else
          var verified := jwt.verify(token, signingKey.value.publicKey);
          if verified then ReturnTrue else ReturnFalse
  }

  /**
   * The three conditions under which a token is accepted, stated without control flow:
   * it decodes to a non-null value whose header has a truthy kid; the key for that kid is truthy;
   * verification with that key does not throw.
   */
  ghost predicate Accepted(jwt: Jwt, token: string) {
    && jwt.decode(token).DecodeReturned?
    && jwt.decode(token).decoded.Some?
    && HasKid(jwt.decode(token).decoded.value)
    && var lookup := jwt.getSigningKey(Kid(jwt.decode(token).decoded.value));
       && lookup.KeyResolved?
       && lookup.key.Some?
       && jwt.verify(token, lookup.key.value.publicKey)
  }

  /**
   * authorize: every error thrown in the try block is caught, so the outcome is always a boolean,
   * and it is true exactly when the token is accepted.
   */
  function Authorize(jwt: Jwt, token: string): (ok: bool)
    ensures ok <==> Accepted(jwt, token)
  {
    match AuthorizeTry(jwt, token)
    case ReturnTrue => true
    case ReturnFalse => false
    case Throw(_) => false
    case FallThrough => false
  }
}
