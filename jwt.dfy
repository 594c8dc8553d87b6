/**
 * The jsonwebtoken library as the handlers use it:
 * `jwt.sign({userId}, JWT_SECRET, {expiresIn: '10h'})`. Signing is left
 * uninterpreted: a token is the term built from what was signed.
 */
module Jwt {
  import opened Users

  /** The payload the handlers sign: `{ userId }`. */
  datatype Claims = Claims(userId: UserId)

  /** A signed token; `issuedAt` is the clock reading jsonwebtoken stamps as `iat`. */
  datatype Token = Signed(claims: Claims, secret: string, expiresIn: string, issuedAt: int)

  /** The lifetime both handlers ask for. */
  const ExpiresIn := "10h"

  function Sign(userId: UserId, secret: string, now: int): Token {
    Signed(Claims(userId), secret, ExpiresIn, now)
  }
}
