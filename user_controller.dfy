/** `getUserData`: the authenticated user's public profile. */
module UserController {
  import opened Wrappers
  import opened UserModel

  /** The public projection: exactly these two fields leave the server. */
  datatype UserData = UserData(name: string, isAccountVerified: bool)

  const UserNotFoundMessage := "User not found in getUserData in userController.js"

  /** Look the user up by `req.userId` and project it; an unknown or unset id is a failure. */
  function GetUserData(users: map<UserId, User>, userId: Option<UserId>): (r: Result<UserData, string>)
    ensures r.Failure? <==> userId.None? || userId.value !in users
    ensures r.Failure? ==> r.error == UserNotFoundMessage
    ensures r.Success? ==>
      && r.value.name == users[userId.value].name
      && r.value.isAccountVerified == users[userId.value].isAccountVerified
  {
    if userId.None? || userId.value !in users then Failure(UserNotFoundMessage)
    else
      var user := users[userId.value];
      Success(UserData(user.name, user.isAccountVerified))
  }

  /**
   * Nothing but the name and the flag is exposed: two stores whose records for the
   * caller agree on those two fields give the same reply, whatever the email,
   * password hash, codes and other users.
   */
  lemma GetUserDataHidesSecrets(users1: map<UserId, User>, users2: map<UserId, User>, id: UserId)
    requires id in users1 && id in users2
    requires users1[id].name == users2[id].name
    requires users1[id].isAccountVerified == users2[id].isAccountVerified
    ensures GetUserData(users1, Some(id)) == GetUserData(users2, Some(id))
  {
  }
}
