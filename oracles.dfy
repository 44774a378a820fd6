/** The cryptographic collaborators of the core, kept abstract: JSON Web Token
    signing and verification, and bcrypt hashing and comparison. Each is a
    function-valued field, so every property proved about the core holds for
    every choice of them. */
module Oracles {
  import opened Common

  /** The token claims the core reads; other claims (`iat`, `exp`,
      `firstName`, ...) never influence a decision. */
  datatype Claims = Claims(id: Option<int>, email: Option<string>)

  /** Why `jwt.verify` may reject a token. */
  datatype JwtError = Malformed | BadSignature | Expired | NotProvided

  datatype Crypto = Crypto(
    sign: (Claims, string) -> string,           // jwt.sign(claims, SECRET, { expiresIn })
    verify: string -> Result<Claims, JwtError>, // jwt.verify(token, SECRET), clock included
    hash: (string, nat) -> string,              // bcrypt.hashSync(password, salt)
    compare: (string, string) -> bool)          // bcrypt.compareSync(password, digest)

  /** The lifetimes the source passes as `expiresIn`. */
  const SessionLifetime: string := "1d"
  const ResetLifetime: string := "24h"
}
