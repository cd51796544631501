/**
 * `userAuth`, the gate in front of the protected routes. It reads the `token`
 * cookie only, verifies it, and on success records the user id on the request
 * and passes control on (`next()`); otherwise it replies with a failure.
 */
module UserAuth {
  import opened Wrappers
  import opened UserModel
  import opened Tokens

  const NotAuthorized := "Not Authorized. Login Again"
  const VerifyErrorPrefix := "--error in userAuth middleware"

  /** The gate's decision on a cookie jar: the user id to attach, or the failure message replied. */
  function Authenticate(cookies: map<string, string>, codec: TokenCodec, now: int): (r: Result<UserId, string>)
    ensures "token" !in cookies || cookies["token"] == "" ==> r == Failure(NotAuthorized)
    ensures r.Success? ==>
      "token" in cookies && cookies["token"] != "" &&
      codec.verify(cookies["token"], now) == Success(Claims(Some(r.value)))
    ensures "token" in cookies && cookies["token"] != "" ==>
      match codec.verify(cookies["token"], now)
      case Failure(e) => r == Failure(VerifyErrorPrefix + e)
      case Success(claims) => r == if claims.id.Some? then Success(claims.id.value) else Failure(NotAuthorized)
  {
    if "token" !in cookies || cookies["token"] == "" then Failure(NotAuthorized)
    else
      match codec.verify(cookies["token"], now)
      case Failure(e) => Failure(VerifyErrorPrefix + e)
      case Success(claims) =>
        if claims.id.Some? then Success(claims.id.value) else Failure(NotAuthorized)
  }

  /** What the gate did: passed control on, or replied with a failure message. */
  datatype GateOutcome = Next | Rejected(message: string)

  /** The parts of an Express request the gate touches. */
  class Request {
    var cookies: map<string, string>
    var headers: map<string, string>
    /** `req.userId`, unset until the gate sets it. */
    var userId: Option<UserId>
    /** How many times the gate has called `next()`. */
    var nextCalls: nat

    constructor (cookies: map<string, string>, headers: map<string, string>)
      ensures this.cookies == cookies && this.headers == headers
      ensures userId.None? && nextCalls == 0
    {
      this.cookies := cookies;
      this.headers := headers;
      userId := None;
      nextCalls := 0;
    }
  }

  /**
   * `userAuth(req, res, next)`: on success `req.userId` is the token's id and `next`
   * is called once; on failure neither happens. Headers are never consulted.
   */
  method UserAuthGate(req: Request, codec: TokenCodec, now: int) returns (outcome: GateOutcome)
    modifies req`userId, req`nextCalls
    ensures outcome.Next? <==> Authenticate(req.cookies, codec, now).Success?
    ensures outcome.Next? ==>
      && req.userId == Some(Authenticate(req.cookies, codec, now).value)
      && req.nextCalls == old(req.nextCalls) + 1
    ensures outcome.Rejected? ==>
      && outcome.message == Authenticate(req.cookies, codec, now).error
      && req.userId == old(req.userId)
      && req.nextCalls == old(req.nextCalls)
  {
    var token := if "token" in req.cookies then req.cookies["token"] else "";
    if token == "" {
      return Rejected(NotAuthorized);
    }
    var decoded := codec.verify(token, now);
    if decoded.Failure? {
      return Rejected(VerifyErrorPrefix + decoded.error);
    }
    if decoded.value.id.Some? {
      req.userId := decoded.value.id;
    } else {
      return Rejected(NotAuthorized);
    }
    req.nextCalls := req.nextCalls + 1;
    outcome := Next;
  }

  /**
   * Without a `token` cookie a request is refused. Headers cannot change that:
   * `Authenticate` takes only the cookies, and `UserAuthGate`'s contract mentions
   * only `req.cookies`, so no header, bearer or otherwise, gets a request through.
   */
  lemma HeadersNeverAuthenticate(cookies: map<string, string>, codec: TokenCodec, now: int)
    requires "token" !in cookies
    ensures Authenticate(cookies, codec, now) == Failure(NotAuthorized)
  {
  }

  /**
   * With a genuine codec, the token `register` or `login` issued at `issuedAt` lets its
   * user through until it expires, and is refused from the expiry instant on.
   */
  lemma IssuedTokenAuthenticates(cookies: map<string, string>, codec: TokenCodec, id: UserId, issuedAt: int, now: int)
    requires Honest(codec)
    requires "token" in cookies && cookies["token"] == codec.sign(id, issuedAt) && cookies["token"] != ""
    ensures now < issuedAt + TokenLifetime ==> Authenticate(cookies, codec, now) == Success(id)
    ensures now >= issuedAt + TokenLifetime ==>
      Authenticate(cookies, codec, now) == Failure(VerifyErrorPrefix + ExpiredMessage)
  {
    assert codec.verify(codec.sign(id, issuedAt), now) ==
      if now < issuedAt + TokenLifetime then Success(Claims(Some(id))) else Failure(ExpiredMessage);
  }
}
