/** The JSON Web Tokens the server signs and verifies, as abstract values: no
    signature is computed. A token records what it claims and whether the copy
    a client presents is still the one the server issued (`Intact`), has
    outlived its `expiresIn` (`Expired`), or was altered or signed with another
    secret (`Tampered`). */
module Tokens {
  import opened Js

  /** The secret a session token is signed with: ACCESS_TOKEN or REFRESH_TOKEN. */
  datatype Kind = Access | Refresh

  datatype Seal = Intact | Expired | Tampered

  /** A session token with the claim `{ id }`. */
  datatype Token = Token(kind: Kind, id: nat, expiresIn: string, seal: Seal)

  /** The error `jwt.verify` throws: its `name` and `message`. */
  datatype JwtError = JwtError(name: string, message: string)

  datatype Decoded<+T> = Verified(payload: T) | Rejected(error: JwtError)

  const MissingToken := JwtError("JsonWebTokenError", "jwt must be provided")
  const BadSignature := JwtError("JsonWebTokenError", "invalid signature")
  const TokenExpired := JwtError("TokenExpiredError", "jwt expired")

  /** `jwt.sign({ id }, secret, { expiresIn })`. */
  function Sign(kind: Kind, id: nat, expiresIn: string): Token {
    Token(kind, id, expiresIn, Intact)
  }

  /** `jwt.verify(token, secret)`: the signature is checked before the expiry,
      so a token signed with the other secret is rejected as tampered even
      when it has also expired. */
  function Verify(t: Token, secret: Kind): Decoded<nat> {
    if t.seal == Tampered || t.kind != secret then Rejected(BadSignature)
    else if t.seal == Expired then Rejected(TokenExpired)
    else Verified(t.id)
  }

  /** What verification promises: a token is accepted only with the secret it
      was signed with, intact, and then yields the id it was signed for. */
  lemma VerifyAccepts(t: Token, secret: Kind)
    ensures Verify(t, secret).Verified? <==> t.kind == secret && t.seal == Intact
    ensures Verify(t, secret).Verified? ==> Verify(t, secret).payload == t.id
    ensures Verify(Sign(secret, t.id, t.expiresIn), secret) == Verified(t.id)
  {
  }

  /** The registration data an activation ticket carries. A password the
      request leaves out is `undefined`, which the token's JSON drops, so it
      is absent from the ticket too. */
  datatype Registration = Registration(name: string, email: string, password: Option<string>)

  /** The activation ticket `jwt.sign({ user, activationCode }, ACTIVATION_SECRET_KEY,
      { expiresIn: '5m' })`. */
  datatype Ticket = Ticket(user: Registration, activationCode: string, expiresIn: string, seal: Seal)

  /** `jwt.verify(activation_token, ACTIVATION_SECRET_KEY)`. */
  function VerifyTicket(t: Ticket): Decoded<Ticket> {
    if t.seal == Tampered then Rejected(BadSignature)
    else if t.seal == Expired then Rejected(TokenExpired)
    else Verified(t)
  }
}
