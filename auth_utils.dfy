/**
 * The shape of the token and password primitives every tier relies on. The
 * primitives themselves (signing, expiry, salted hashing) are not modelled: each
 * operation that uses one takes it as a function-valued parameter.
 */
module AuthUtils {
  import opened Wrappers

  /** The decoded token payload `{ userId }`; a payload without `userId` decodes to `None`. */
  datatype Claims = Claims(userId: Option<string>)

  /**
   * `verifyToken`: the payload of a token that verifies, `None` for every
   * failure (bad signature, malformed, expired), all collapsed into one.
   */
  type Verifier = string -> Option<Claims>

  /** `generateToken(userId)`. */
  type Issuer = string -> string

  /** `generatePasswordHash(password)`, with the salt fixed by the caller. */
  type Hasher = string -> string

  /** `verifyPassword(plain, hashed)`. */
  type PasswordCheck = (string, string) -> bool

  /**
   * The issuer and the verifier agree on one identity: the token issued for
   * `id` verifies back to `id`. This is what the shared signing secret is for;
   * it is taken as a hypothesis wherever it is needed, never proved.
   */
  predicate Agree(issue: Issuer, verify: Verifier, id: string) {
    verify(issue(id)) == Some(Claims(Some(id)))
  }
}
