/** The interface of the token library: the claims a token carries and the
    arguments of a signing call. Signing and verifying are left uninterpreted:
    callers pass them in as functions. */
module Jwt {

  /** The claims `generateJwt` puts in a token and AuthMiddleware attaches to
      the request as `req.user`. A role that is missing or empty is "". */
  datatype Claims = Claims(id: int, email: string, role: string)

  /** The arguments of `jwt.sign(claims, secret, { expiresIn })`; the secret is
      configuration and is not modelled. */
  datatype SignRequest = SignRequest(claims: Claims, expiresIn: string)

  /** Every token the server issues expires after 24 hours. */
  const TokenLifetime := "24h"

  /** `generateJwt(id, email, role)` of userController.js. */
  function GenerateJwt(sign: SignRequest -> string, id: int, email: string, role: string): (token: string)
    ensures token == sign(SignRequest(Claims(id, email, role), "24h"))
  {
    sign(SignRequest(Claims(id, email, role), TokenLifetime))
  }
}
