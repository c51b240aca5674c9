/** What the pages read from the authentication context: the signed-in user
    (if any), the user's roles, whether the session is still being restored,
    and the staff-or-higher flag. How that flag is derived from the roles is
    decided outside the pages, so it is an input here like the others. */
module Auth {
  import opened Util

  type UserId = string

  datatype User = User(id: UserId, email: Option<string>)

  datatype Role = Owner | Admin | Staff | Member

  datatype Session = Session(
    loading: bool,
    user: Option<User>,
    roles: seq<Role>,
    isStaffOrHigher: bool)

  /** `user?.id`: the signed-in user's id, absent when nobody is signed in. */
  function UserIdOf(user: Option<User>): (r: Option<UserId>)
    ensures r.Some? <==> user.Some?
    ensures user.Some? ==> r.value == user.value.id
  {
    if user.Some? then Some(user.value.id) else None
  }
}
