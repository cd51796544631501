/**
 * The credential store and the handlers that change it: registration, login,
 * and the two one-time-code lifecycles (email verification and password reset).
 *
 * Outside inputs are parameters: the clock is `now` (milliseconds), the random
 * draw of a code is `r` with `0 <= r < 900000`, the bcrypt salt is `salt`, and
 * whether the mail relay accepted a message is a `MailOutcome`.
 */
module AuthController {
  import opened Wrappers
  import opened PasswordHashing
  import opened OtpCodes
  import opened UserModel
  import opened Tokens

  /** Lifetimes of a verification code (24 hours) and a reset code (15 minutes), in milliseconds. */
  const VerifyOtpLifetime: nat := 24 * 60 * 60 * 1000
  const ResetOtpLifetime: nat := 15 * 60 * 1000

  /** Every `{ success: false, message }` reply the handlers give. */
  datatype AuthError =
    | MissingDetails
    | UserAlreadyExists
    | InvalidEmail
    | InvalidPassword
    | AlreadyVerified
    | MissingUserId
    | MissingOtp
    | UserNotFound
    | InvalidOtp
    | OtpExpired
    | EmailRequired
    | ResetOtpUserNotFound
    | ResetFieldsRequired
    | ResetUserNotFound
    | ServerError(text: string)

  /** The `message` text of each failure reply, exactly as the handlers write it. */
  function Message(e: AuthError): string
  {
    match e
    case MissingDetails => "Missing Details"
    case UserAlreadyExists => "user already exist error in authController.js"
    case InvalidEmail => "Invalid Email --error in authController.js"
    case InvalidPassword => "Invalid Password --error in authController.js"
    case AlreadyVerified => "Account already verified --error in sendVerifyOtp in authController.js"
    case MissingUserId => "Missing userID --error in verifyEmail in authController.js"
    case MissingOtp => "Missing OTP --error in verifyEmail in authController.js"
    case UserNotFound => "User not found"
    case InvalidOtp => "Invalid OTP"
    case OtpExpired => "OTP Expired"
    case EmailRequired => "Email is required"
    case ResetOtpUserNotFound => "user not fount"
    case ResetFieldsRequired => "Email, OTP and newPassword are required"
    case ResetUserNotFound => "user not found"
    case ServerError(text) => text
  }

  /** The success messages of the code handlers. */
  const VerifyOtpSent := "Verification OTP sent on Email"
  const EmailVerified := "Email verified successfully"
  const ResetOtpSent := "OTP sent to your email"
  const PasswordReset := "Password has been reset successfully"

  /** What the JavaScript runtime throws where `login` and `sendVerifyOtp` misbehave. */
  const LoginReferenceError := "message is not defined"
  const NullUserError := "Cannot read properties of null (reading 'isAccountVerified')"

  /** Whether the mail relay accepted a message (`transporter.sendMail`). */
  datatype MailOutcome = Delivered | MailFailed(reason: string)

  /**
   * The reply of `register` and `login`: the JSON body (the token on success) and the
   * `token` cookie if one was set. `Unhandled` is an exception thrown outside the
   * handler's `try`: the handler sends no reply of its own, and the exception
   * escapes as a rejected promise.
   */
  datatype SessionReply =
    | Replied(body: Result<string, AuthError>, cookie: Option<string>)
    | Unhandled(error: string)

  /** The outcome of the ordered checks on a submitted code. */
  datatype Verdict = Accepted | InvalidCode | Expired

  /**
   * The checks `verifyEmail` and `resetPassword` make, in their order: an empty
   * stored code or a mismatch first, then expiry, which is strict (`expireAt < now`).
   */
  function CheckCode(stored: string, expireAt: int, given: string, now: int): (v: Verdict)
    ensures v == Accepted <==> stored != "" && given == stored && now <= expireAt
    ensures v == Expired <==> stored != "" && given == stored && expireAt < now
    ensures stored == "" ==> v == InvalidCode
  {
    if stored == "" || stored != given then InvalidCode
    else if expireAt < now then Expired
    else Accepted
  }

  function Rejection(v: Verdict): AuthError
  {
    if v == Expired then OtpExpired else InvalidOtp
  }

  /** `sendVerifyOtp`'s update: a fresh code that expires 24 hours after `now`. */
  function IssueVerify(u: User, r: nat, now: nat): (u': User)
    requires r < CodeRange
    ensures IsOtpCode(u'.verifyOtp) && ParseDecimal(u'.verifyOtp) == CodeBase + r
    ensures u'.verifyOtpExpireAt == now + VerifyOtpLifetime
    ensures u'.(verifyOtp := u.verifyOtp, verifyOtpExpireAt := u.verifyOtpExpireAt) == u
  {
    u.(verifyOtp := IssueCode(r), verifyOtpExpireAt := now + VerifyOtpLifetime)
  }

  /** `verifyEmail`'s update on success: verified, and the code consumed. */
  function ConsumeVerify(u: User): (u': User)
    ensures u'.isAccountVerified && SlotCleared(u'.verifyOtp, u'.verifyOtpExpireAt)
    ensures u'.(isAccountVerified := u.isAccountVerified, verifyOtp := u.verifyOtp,
                verifyOtpExpireAt := u.verifyOtpExpireAt) == u
  {
    u.(isAccountVerified := true, verifyOtp := "", verifyOtpExpireAt := 0)
  }

  /** `sendResetOtp`'s update: a fresh code that expires 15 minutes after `now`. */
  function IssueReset(u: User, r: nat, now: nat): (u': User)
    requires r < CodeRange
    ensures IsOtpCode(u'.resetOtp) && ParseDecimal(u'.resetOtp) == CodeBase + r
    ensures u'.resetOtpExpireAt == now + ResetOtpLifetime
    ensures u'.(resetOtp := u.resetOtp, resetOtpExpireAt := u.resetOtpExpireAt) == u
  {
    u.(resetOtp := IssueCode(r), resetOtpExpireAt := now + ResetOtpLifetime)
  }

  /** `resetPassword`'s update on success: the new hash, and the reset code consumed. */
  function ConsumeReset(u: User, h: PasswordHash): (u': User)
    ensures u'.password == h && SlotCleared(u'.resetOtp, u'.resetOtpExpireAt)
    ensures u'.(password := u.password, resetOtp := u.resetOtp, resetOtpExpireAt := u.resetOtpExpireAt) == u
  {
    u.(password := h, resetOtp := "", resetOtpExpireAt := 0)
  }

  /** An issued code is accepted up to and including its expiry instant, refused as expired after it, and any other code is invalid. */
  lemma IssuedCodeWindow(r: nat, issuedAt: nat, lifetime: nat, given: string, now: int)
    requires r < CodeRange
    ensures CheckCode(IssueCode(r), issuedAt + lifetime, given, now) ==
      if given != IssueCode(r) then InvalidCode
      else if now <= issuedAt + lifetime then Accepted
      else Expired
  {
  }

  /** The verification code issued at `t` is accepted at `t + 24h` and expired one millisecond later. */
  lemma VerifyCodeLifetime(u: User, r: nat, t: nat)
    requires r < CodeRange
    ensures var v := IssueVerify(u, r, t);
      && CheckCode(v.verifyOtp, v.verifyOtpExpireAt, IssueCode(r), t + 86400000) == Accepted
      && CheckCode(v.verifyOtp, v.verifyOtpExpireAt, IssueCode(r), t + 86400001) == Expired
  {
  }

  /** The reset code issued at `t` is accepted at `t + 15min` and expired one millisecond later. */
  lemma ResetCodeLifetime(u: User, r: nat, t: nat)
    requires r < CodeRange
    ensures var v := IssueReset(u, r, t);
      && CheckCode(v.resetOtp, v.resetOtpExpireAt, IssueCode(r), t + 900000) == Accepted
      && CheckCode(v.resetOtp, v.resetOtpExpireAt, IssueCode(r), t + 900001) == Expired
  {
  }

  /** A consumed code is cleared: replaying any code afterwards is "Invalid OTP", never "OTP Expired". */
  lemma ReplayIsInvalid(u: User, h: PasswordHash, given: string, now: int)
    ensures var v := ConsumeVerify(u); CheckCode(v.verifyOtp, v.verifyOtpExpireAt, given, now) == InvalidCode
    ensures var v := ConsumeReset(u, h); CheckCode(v.resetOtp, v.resetOtpExpireAt, given, now) == InvalidCode
  {
  }

  /** The verification and reset slots are independent: each update leaves the other slot alone. */
  lemma SlotsIndependent(u: User, r: nat, now: nat, h: PasswordHash)
    requires r < CodeRange
    ensures IssueVerify(u, r, now).(verifyOtp := u.verifyOtp, verifyOtpExpireAt := u.verifyOtpExpireAt) == u
    ensures ConsumeVerify(u).(isAccountVerified := u.isAccountVerified, verifyOtp := u.verifyOtp, verifyOtpExpireAt := u.verifyOtpExpireAt) == u
    ensures IssueReset(u, r, now).(resetOtp := u.resetOtp, resetOtpExpireAt := u.resetOtpExpireAt) == u
    ensures ConsumeReset(u, h).(password := u.password, resetOtp := u.resetOtp, resetOtpExpireAt := u.resetOtpExpireAt) == u
  {
  }

  /** Every update keeps a record well formed, so a code and its expiry stay paired. */
  lemma UpdatesKeepWellFormed(u: User, r: nat, now: nat, h: PasswordHash)
    requires WellFormed(u) && r < CodeRange
    ensures WellFormed(IssueVerify(u, r, now)) && WellFormed(ConsumeVerify(u))
    ensures WellFormed(IssueReset(u, r, now)) && WellFormed(ConsumeReset(u, h))
  {
  }

  /**
   * The user collection. `emailIndex` is the unique index the schema declares on
   * `email`; `nextId` stands for the store's id generator.
   */
  class CredentialStore {
    var users: map<UserId, User>
    var emailIndex: map<string, UserId>
    var nextId: UserId
    const kdf: Kdf
    const codec: TokenCodec

    ghost predicate Valid()
      reads this
    {
      && (forall id :: id in users ==>
            && id < nextId
            && WellFormed(users[id])
            && users[id].email in emailIndex
            && emailIndex[users[id].email] == id)
      && (forall e :: e in emailIndex ==> emailIndex[e] in users && users[emailIndex[e]].email == e)
    }

    /** No record is ever removed, its name and email never change, and a verified account stays verified. */
    twostate predicate Evolves()
      reads this
    {
      && old(users).Keys <= users.Keys
      && (forall id :: id in old(users) ==>
            && users[id].name == old(users)[id].name
            && users[id].email == old(users)[id].email
            && (old(users)[id].isAccountVerified ==> users[id].isAccountVerified))
    }

    /** The unique index makes emails distinct across users. */
    lemma EmailsUnique()
      requires Valid()
      ensures forall i, j :: i in users && j in users && i != j ==> users[i].email != users[j].email
    {
    }

    constructor (kdf: Kdf, codec: TokenCodec)
      ensures Valid()
      ensures users == map[] && emailIndex == map[]
      ensures this.kdf == kdf && this.codec == codec
    {
      users := map[];
      emailIndex := map[];
      nextId := 0;
      this.kdf := kdf;
      this.codec := codec;
    }

    /** `userModel.findOne({ email })`: the id of the one user with that email, if any. */
    function FindByEmail(email: string): (r: Option<UserId>)
      requires Valid()
      reads this
      ensures r.Some? ==> r.value in users && users[r.value].email == email
      ensures r.None? ==> forall id :: id in users ==> users[id].email != email
    {
      if email in emailIndex then Some(emailIndex[email]) else None
    }

    /** `register`: validate, check the email is free, store the hashed password, then issue a token and send the welcome mail. */
    method Register(name: string, email: string, password: string, salt: nat, now: nat, mail: MailOutcome)
      returns (reply: SessionReply)
      requires Valid()
      modifies this
      ensures Valid() && Evolves()
      ensures name == "" || email == "" || password == "" ==>
        reply == Replied(Failure(MissingDetails), None) && users == old(users)
      ensures name != "" && email != "" && password != "" && old(FindByEmail(email)).Some? ==>
        reply == Replied(Failure(UserAlreadyExists), None) && users == old(users)
      ensures name != "" && email != "" && password != "" && old(FindByEmail(email)).None? ==>
        var id := old(nextId);
        var token := codec.sign(id, now);
        && id !in old(users)
        && users == old(users)[id := NewUser(name, email, Hash(kdf, password, salt))]
        && |users| == |old(users)| + 1
        && reply.Replied?
        && reply.cookie == Some(token)
        && reply.body == match mail
             case Delivered => Success(token)
             case MailFailed(reason) => Failure(ServerError("error in register in authController.js " + reason))
    {
      if name == "" || email == "" || password == "" {
        return Replied(Failure(MissingDetails), None);
      }
      if email in emailIndex {
        return Replied(Failure(UserAlreadyExists), None);
      }
      var hashed := Hash(kdf, password, salt);
      var id := nextId;
      users := users[id := NewUser(name, email, hashed)];
      emailIndex := emailIndex[email := id];
      nextId := nextId + 1;
      // the cookie is set before the welcome mail is sent, so a mail failure keeps both the user and the cookie
      var token := codec.sign(id, now);
      match mail
      case Delivered =>
        reply := Replied(Success(token), Some(token));
      case MailFailed(reason) =>
        reply := Replied(Failure(ServerError("error in register in authController.js " + reason)), Some(token));
    }

    /** `login`: look the user up by email, then compare the password with the stored hash. */
    method Login(email: string, password: string, now: nat) returns (reply: SessionReply)
      requires Valid()
      ensures email == "" || password == "" ==> reply == Unhandled(LoginReferenceError)
      ensures email != "" && password != "" ==>
        && reply.Replied?
        && (reply.body.Success? <==>
              exists id :: id in users && users[id].email == email && Compare(kdf, password, users[id].password))
      ensures email != "" && password != "" && FindByEmail(email).None? ==>
        reply == Replied(Failure(InvalidEmail), None)
      ensures email != "" && password != "" && FindByEmail(email).Some? ==>
        var id := FindByEmail(email).value;
        var token := codec.sign(id, now);
        reply == if Compare(kdf, password, users[id].password)
                 then Replied(Success(token), Some(token))
                 else Replied(Failure(InvalidPassword), None)
    {
      if email == "" || password == "" {
        // `login` builds its reply from an undefined `message`, which throws outside the `try`
        return Unhandled(LoginReferenceError);
      }
      var found := FindByEmail(email);
      if found.None? {
        return Replied(Failure(InvalidEmail), None);
      }
      var id := found.value;
      if !Compare(kdf, password, users[id].password) {
        return Replied(Failure(InvalidPassword), None);
      }
      var token := codec.sign(id, now);
      reply := Replied(Success(token), Some(token));
    }

    /** `sendVerifyOtp`: for the authenticated, not yet verified user, store a fresh code expiring in 24 hours and mail it. */
    method SendVerifyOtp(userId: Option<UserId>, r: nat, now: nat, mail: MailOutcome)
      returns (result: Result<string, AuthError>)
      requires Valid() && r < CodeRange
      modifies this`users
      ensures Valid() && Evolves()
      ensures userId.None? || userId.value !in old(users) ==>
        result == Failure(ServerError("error in sendVerifyOtp" + NullUserError)) && users == old(users)
      ensures userId.Some? && userId.value in old(users) && old(users)[userId.value].isAccountVerified ==>
        result == Failure(AlreadyVerified) && users == old(users)
      ensures userId.Some? && userId.value in old(users) && !old(users)[userId.value].isAccountVerified ==>
        && users == old(users)[userId.value := IssueVerify(old(users)[userId.value], r, now)]
        && IsOtpCode(users[userId.value].verifyOtp)
        && ParseDecimal(users[userId.value].verifyOtp) == CodeBase + r
        && users[userId.value].verifyOtpExpireAt == now + 86400000
        && result == match mail
             case Delivered => Success(VerifyOtpSent)
             case MailFailed(reason) => Failure(ServerError("error in sendVerifyOtp" + reason))
    {
      if userId.None? || userId.value !in users {
        // `user.isAccountVerified` on a null user throws; the handler's catch replies
        return Failure(ServerError("error in sendVerifyOtp" + NullUserError));
      }
      var id := userId.value;
      var user := users[id];
      if user.isAccountVerified {
        return Failure(AlreadyVerified);
      }
      user := user.(verifyOtp := IssueCode(r));
      user := user.(verifyOtpExpireAt := now + VerifyOtpLifetime);
      users := users[id := user];
      UpdatesKeepWellFormed(old(users)[id], r, now, user.password);
      match mail
      case Delivered =>
        result := Success(VerifyOtpSent);
      case MailFailed(reason) =>
        result := Failure(ServerError("error in sendVerifyOtp" + reason));
    }

    /** `verifyEmail`: check the submitted code against the stored one; on success mark the account verified and clear the code. */
    method VerifyEmail(userId: Option<UserId>, otp: string, now: nat) returns (result: Result<string, AuthError>)
      requires Valid()
      modifies this`users
      ensures Valid() && Evolves()
      ensures userId.None? ==> result == Failure(MissingUserId) && users == old(users)
      ensures userId.Some? && otp == "" ==> result == Failure(MissingOtp) && users == old(users)
      ensures userId.Some? && otp != "" && userId.value !in old(users) ==>
        result == Failure(UserNotFound) && users == old(users)
      ensures userId.Some? && otp != "" && userId.value in old(users) ==>
        var u := old(users)[userId.value];
        var v := CheckCode(u.verifyOtp, u.verifyOtpExpireAt, otp, now);
        if v == Accepted then
          && result == Success(EmailVerified)
          && users == old(users)[userId.value := ConsumeVerify(u)]
          && users[userId.value].isAccountVerified
          && SlotCleared(users[userId.value].verifyOtp, users[userId.value].verifyOtpExpireAt)
        else
          result == Failure(Rejection(v)) && users == old(users)
    {
      if userId.None? {
        return Failure(MissingUserId);
      }
      if otp == "" {
        return Failure(MissingOtp);
      }
      var id := userId.value;
      if id !in users {
        return Failure(UserNotFound);
      }
      var user := users[id];
      if user.verifyOtp == "" || user.verifyOtp != otp {
        return Failure(InvalidOtp);
      }
      if user.verifyOtpExpireAt < now {
        return Failure(OtpExpired);
      }
      user := user.(isAccountVerified := true);
      user := user.(verifyOtp := "");
      user := user.(verifyOtpExpireAt := 0);
      users := users[id := user];
      result := Success(EmailVerified);
    }

    /** `sendResetOtp`: for the user with that email, store a fresh reset code expiring in 15 minutes and mail it. */
    method SendResetOtp(email: string, r: nat, now: nat, mail: MailOutcome) returns (result: Result<string, AuthError>)
      requires Valid() && r < CodeRange
      modifies this`users
      ensures Valid() && Evolves()
      ensures email == "" ==> result == Failure(EmailRequired) && users == old(users)
      ensures email != "" && old(FindByEmail(email)).None? ==>
        result == Failure(ResetOtpUserNotFound) && users == old(users)
      ensures email != "" && old(FindByEmail(email)).Some? ==>
        var id := old(FindByEmail(email)).value;
        && users == old(users)[id := IssueReset(old(users)[id], r, now)]
        && IsOtpCode(users[id].resetOtp)
        && ParseDecimal(users[id].resetOtp) == CodeBase + r
        && users[id].resetOtpExpireAt == now + 900000
        && result == match mail
             case Delivered => Success(ResetOtpSent)
             case MailFailed(reason) => Failure(ServerError("error in sendResetotp" + reason))
    {
      if email == "" {
        return Failure(EmailRequired);
      }
      var found := FindByEmail(email);
      if found.None? {
        return Failure(ResetOtpUserNotFound);
      }
      var id := found.value;
      var user := users[id];
      user := user.(resetOtp := IssueCode(r));
      user := user.(resetOtpExpireAt := now + ResetOtpLifetime);
      users := users[id := user];
      UpdatesKeepWellFormed(old(users)[id], r, now, user.password);
      match mail
      case Delivered =>
        result := Success(ResetOtpSent);
      case MailFailed(reason) =>
        result := Failure(ServerError("error in sendResetotp" + reason));
    }

    /** `resetPassword`: check the submitted reset code; on success store the new hash and clear only the reset code. */
    method ResetPassword(email: string, otp: string, newPassword: string, salt: nat, now: nat)
      returns (result: Result<string, AuthError>)
      requires Valid()
      modifies this`users
      ensures Valid() && Evolves()
      ensures email == "" || otp == "" || newPassword == "" ==>
        result == Failure(ResetFieldsRequired) && users == old(users)
      ensures email != "" && otp != "" && newPassword != "" && old(FindByEmail(email)).None? ==>
        result == Failure(ResetUserNotFound) && users == old(users)
      ensures email != "" && otp != "" && newPassword != "" && old(FindByEmail(email)).Some? ==>
        var id := old(FindByEmail(email)).value;
        var u := old(users)[id];
        var v := CheckCode(u.resetOtp, u.resetOtpExpireAt, otp, now);
        if v == Accepted then
          && result == Success(PasswordReset)
          && users == old(users)[id := ConsumeReset(u, Hash(kdf, newPassword, salt))]
          && Compare(kdf, newPassword, users[id].password)
        else
          result == Failure(Rejection(v)) && users == old(users)
    {
      if email == "" || otp == "" || newPassword == "" {
        return Failure(ResetFieldsRequired);
      }
      var found := FindByEmail(email);
      if found.None? {
        return Failure(ResetUserNotFound);
      }
      var id := found.value;
      var user := users[id];
      if user.resetOtp == "" || user.resetOtp != otp {
        return Failure(InvalidOtp);
      }
      if user.resetOtpExpireAt < now {
        return Failure(OtpExpired);
      }
      var hashed := Hash(kdf, newPassword, salt);
      user := user.(password := hashed);
      user := user.(resetOtp := "");
      user := user.(resetOtpExpireAt := 0);
      users := users[id := user];
      CompareHash(kdf, newPassword, salt);
      result := Success(PasswordReset);
    }
  }
}
