/** The client's user store: whether someone is signed in, and who. */
module ClientUser {
  import opened Errors

  /** The user object, by the fields the client reads: `{}` has neither. */
  datatype UserInfo = UserInfo(email: Option<string>, role: Option<string>)

  const NoUser := UserInfo(None, None)

  /** The store's `isAdmin`: the role is exactly the lowercase text "admin". */
  predicate IsAdminUser(u: UserInfo)
  {
    u.role == Some("admin")
  }

  /** The role the server gives administrators is upper case, and the
      store does not count it as an administrator, nor any other spelling. */
  lemma AdminCheckIsCaseSensitive(u: UserInfo)
    requires u.role.Some?
    requires u.role.value != "admin"
    ensures !IsAdminUser(u)
  {
  }

  lemma ServerAdminRoleIsNotAdmin()
    ensures !IsAdminUser(UserInfo(None, Some("ADMIN")))
  {
    assert "ADMIN"[0] != "admin"[0];
  }

  class UserStore {
    var isAuth: bool
    var user: UserInfo

    constructor ()
      ensures !isAuth && user == NoUser
    {
      isAuth := false;
      user := NoUser;
    }

    /** `isAdmin`: signed out (`{}`) is never an administrator. */
    predicate IsAdmin()
      reads this`user
      ensures IsAdmin() ==> user != NoUser && user.role == Some("admin")
    {
      IsAdminUser(user)
    }

    /** setAuth. */
    method SetAuth(b: bool)
      modifies this`isAuth
      ensures isAuth == b && user == old(user)
    {
      isAuth := b;
    }

    /** setUser. */
    method SetUser(u: UserInfo)
      modifies this`user
      ensures user == u && isAuth == old(isAuth)
    {
      user := u;
    }

    /** login: signed in, as a user with only an email, hence never an
        administrator. */
    method Login(email: string)
      modifies this
      ensures isAuth && user == UserInfo(Some(email), None)
      ensures !IsAdmin()
    {
      SetAuth(true);
      SetUser(UserInfo(Some(email), None));
    }

    /** logout. */
    method Logout()
      modifies this
      ensures !isAuth && user == NoUser
      ensures !IsAdmin()
    {
      SetAuth(false);
      SetUser(NoUser);
    }
  }
}
