/**
 * The session store: the signed-in identity, if any, and a flag that says
 * whether someone is signed in. Two transitions, login and logout.
 */
module Session {
  import opened Types

  class UserStore {
    var user: Option<User>
    var isAuthenticated: bool

    /**
     * The flag is set exactly when an identity is held. Components that test
     * `isAuthenticated` and components that read `user` therefore never
     * disagree about whether someone is signed in; every transition keeps it.
     */
    predicate Valid()
      reads this
    {
      isAuthenticated <==> user.Some?
    }

    /** A fresh session: nobody signed in. */
    constructor ()
      ensures user == None && !isAuthenticated && Valid()
    {
      user := None;
      isAuthenticated := false;
    }

    /** Replaces whatever identity was held, without any check. */
    method Login(u: User)
      modifies this
      ensures user == Some(u) && isAuthenticated && Valid()
    {
      user := Some(u);
      isAuthenticated := true;
    }

    /** Forgets the identity; the cart and the order history are other objects and stay as they are. */
    method Logout()
      modifies this
      ensures user == None && !isAuthenticated && Valid()
    {
      user := None;
      isAuthenticated := false;
    }
  }
}
