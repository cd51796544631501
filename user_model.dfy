/**
 * The user record of the credential store: schema fields, which are required,
 * and the defaults a new record gets.
 */
module UserModel {
  import opened PasswordHashing
  import opened OtpCodes

  /** The store-generated record id (`user._id`). */
  type UserId = nat

  /**
   * One stored user. `password` holds a hash, never the clear text.
   * An OTP field and its expiry form one slot: `""` and `0` mean "no active code".
   */
  datatype User = User(
    name: string,
    email: string,
    password: PasswordHash,
    verifyOtp: string,
    verifyOtpExpireAt: int,
    isAccountVerified: bool,
    resetOtp: string,
    resetOtpExpireAt: int)

  /** The slot holds no code: both halves at their defaults. */
  predicate SlotCleared(code: string, expireAt: int)
  {
    code == "" && expireAt == 0
  }

  /** A code and its expiry are set together and cleared together. */
  predicate SlotWellFormed(code: string, expireAt: int)
  {
    SlotCleared(code, expireAt) || (IsOtpCode(code) && expireAt > 0)
  }

  /** The schema's `required` fields are present (`""` fails mongoose's check), and both slots are well formed. */
  predicate WellFormed(u: User)
  {
    && u.name != ""
    && u.email != ""
    && SlotWellFormed(u.verifyOtp, u.verifyOtpExpireAt)
    && SlotWellFormed(u.resetOtp, u.resetOtpExpireAt)
  }

  /** `new userModel({ name, email, password })`: the given fields, every other at its schema default. */
  function NewUser(name: string, email: string, password: PasswordHash): (u: User)
    requires name != "" && email != ""
    ensures WellFormed(u)
    ensures u.name == name && u.email == email && u.password == password
    ensures !u.isAccountVerified
    ensures SlotCleared(u.verifyOtp, u.verifyOtpExpireAt)
    ensures SlotCleared(u.resetOtp, u.resetOtpExpireAt)
  {
    User(name, email, password, "", 0, false, "", 0)
  }
}
