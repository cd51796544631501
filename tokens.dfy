/**
 * The signed session token (`jwt.sign` / `jwt.verify`). Signing and verifying are
 * parameters: a codec is any pair of functions. `Honest` says what a correct
 * signer and verifier do, and appears only as a hypothesis of lemmas.
 */
module Tokens {
  import opened Wrappers
  import opened UserModel

  /** `expiresIn: '7d'`, in milliseconds. */
  const TokenLifetime: nat := 7 * 24 * 60 * 60 * 1000

  /** What the verifier returned `tokenDecode`: the `id` claim, `None` when it is absent or falsy. */
  datatype Claims = Claims(id: Option<UserId>)

  /**
   * `sign(id, issuedAt)` is the token `jwt.sign({ id }, secret, { expiresIn: '7d' })` makes at
   * time `issuedAt`; `verify(token, now)` is `jwt.verify(token, secret)` at time `now`:
   * the decoded claims, or `Failure(message)` where the library throws.
   */
  datatype TokenCodec = TokenCodec(
    sign: (UserId, int) -> string,
    verify: (string, int) -> Result<Claims, string>)

  /** The message the verifier throws once a token is past its expiry. */
  const ExpiredMessage := "jwt expired"

  /** A genuine codec: a token it signed decodes to its id until it expires and is refused after. */
  ghost predicate Honest(codec: TokenCodec)
  {
    forall id: UserId, issuedAt: int, now: int ::
      codec.verify(codec.sign(id, issuedAt), now) ==
        if now < issuedAt + TokenLifetime then Success(Claims(Some(id))) else Failure(ExpiredMessage)
  }
}
