/** The route guard: admit or redirect from the signed-in user and the role the route requires. */
module ProtectedRoute {
  import opened Remote
  import opened JsStrings

  /** The `requiredRole` prop; it defaults to `user`. */
  datatype RequiredRole = UserRole | AdminRole

  /** What `supabase.auth.getUser()` gave the guard: it threw, or it returned an error flag and a user. */
  datatype GetUserResult = GetUserThrew | GetUserReturned(failed: bool, user: Option<AuthUser>)

  /** `user.user_metadata?.role || "user"`. */
  function RoleOf(u: AuthUser): (role: string)
    ensures u.metadata.role.Some? && u.metadata.role.value != "" ==> role == u.metadata.role.value
    ensures u.metadata.role == None || u.metadata.role == Some("") ==> role == "user"
  {
    match u.metadata.role
    case Some(r) => if Truthy(r) then r else "user"
    case None => "user"
  }

  datatype Decision = Redirect(path: string) | Admit(user: AuthUser)

  /** The decision `checkUser` takes. */
  function Decide(result: GetUserResult, required: RequiredRole): (d: Decision)
    ensures (result.GetUserThrew? || result.failed || result.user.None?) <==> d == Redirect("/signin")
    ensures d.Redirect? ==> d.path in {"/signin", "/dashboard"}
    ensures d.Admit? ==> result == GetUserReturned(false, Some(d.user))
    ensures d.Admit? && required == AdminRole ==> RoleOf(d.user) == "admin"
    ensures d == Redirect("/dashboard") <==>
      result.GetUserReturned? && !result.failed && result.user.Some?
      && required == AdminRole && RoleOf(result.user.value) != "admin"
  {
    match result
    case GetUserThrew => Redirect("/signin")
    case GetUserReturned(failed, user) =>
      if failed || user.None? then Redirect("/signin")
      else if required == AdminRole && RoleOf(user.value) != "admin" then Redirect("/dashboard")
      else Admit(user.value)
  }

  /** With the default required role, any user the lookup returns without error is admitted. */
  lemma DefaultRoleAdmitsSignedIn(u: AuthUser)
    ensures Decide(GetUserReturned(false, Some(u)), UserRole) == Admit(u)
  {
  }

  /** A session handed to the auth listener. */
  datatype Session = Session(user: Option<AuthUser>)

  datatype AuthEffect = GoToSignIn | SetUser(user: AuthUser) | NoEffect

  /** The `onAuthStateChange` handler: it never looks at the role. */
  function AuthEventEffect(event: string, session: Option<Session>): (e: AuthEffect)
    ensures event == "SIGNED_OUT" || session.None? <==> e == GoToSignIn
    ensures e.SetUser? <==> event != "SIGNED_OUT" && session.Some? && session.value.user.Some?
    ensures e.SetUser? ==> e.user == session.value.user.value
  {
    if event == "SIGNED_OUT" || session.None? then GoToSignIn
    else if session.value.user.Some? then SetUser(session.value.user.value)
    else NoEffect
  }

  /**
   * On an admin route, `checkUser` turns a non-admin away, but a later auth
   * event with that same user's session sets the user anyway.
   */
  lemma ListenerSkipsRoleCheck(u: AuthUser, event: string)
    requires RoleOf(u) != "admin" && event != "SIGNED_OUT"
    ensures Decide(GetUserReturned(false, Some(u)), AdminRole) == Redirect("/dashboard")
    ensures AuthEventEffect(event, Some(Session(Some(u)))) == SetUser(u)
  {
  }

  /** The backend call the guard makes: `supabase.auth.getUser()`. */
  datatype GuardCall = GetUser

  class Guard {
    const requiredRole: RequiredRole
    var user: Option<AuthUser>
    var loading: bool
    /** The routes pushed so far, oldest first. */
    var pushed: seq<Route>
    /** The backend calls made so far, oldest first. */
    var calls: seq<GuardCall>

    constructor (requiredRole: RequiredRole)
      ensures this.requiredRole == requiredRole && user == None && loading && pushed == [] && calls == []
    {
      this.requiredRole := requiredRole;
      user, loading, pushed, calls := None, true, [], [];
    }

    /** `checkUser`: redirect or set the user, and end `loading` on every path. */
    method CheckUser(result: GetUserResult)
      modifies this
      ensures !loading
      ensures calls == old(calls) + [GetUser]
      ensures Decide(result, requiredRole).Redirect? ==>
        user == old(user) && pushed == old(pushed) + [Path(Decide(result, requiredRole).path)]
      ensures Decide(result, requiredRole).Admit? ==>
        user == Some(Decide(result, requiredRole).user) && pushed == old(pushed)
      ensures old(user) == None ==> (RendersChildren() <==> Decide(result, requiredRole).Admit?)
    {
      calls := calls + [GetUser];
      match Decide(result, requiredRole) {
        case Redirect(path) => pushed := pushed + [Path(path)];
        case Admit(u) => user := Some(u);
      }
      loading := false;
    }

    /** The auth listener; it leaves `loading` alone. */
    method OnAuthStateChange(event: string, session: Option<Session>)
      modifies this
      ensures loading == old(loading) && calls == old(calls)
      ensures user == (match AuthEventEffect(event, session) case SetUser(u) => Some(u) case _ => old(user))
      ensures pushed == old(pushed) + (if AuthEventEffect(event, session).GoToSignIn? then [Path("/signin")] else [])
    {
      match AuthEventEffect(event, session) {
        case GoToSignIn => pushed := pushed + [Path("/signin")];
        case SetUser(u) => user := Some(u);
        case NoEffect =>
      }
    }

    /** The render condition: the children show only once loading is over and a user is set. */
    predicate RendersChildren()
      reads this
    {
      !loading && user.Some?
    }
  }

  /**
   * On an admin route, a non-admin is first sent to `/dashboard`, but an auth
   * event other than `SIGNED_OUT` carrying the same user's session then sets
   * the user, and the guard renders the admin page's children.
   */
  method NonAdminRendersAfterAuthEvent(u: AuthUser, event: string) returns (g: Guard)
    requires RoleOf(u) != "admin" && event != "SIGNED_OUT"
    ensures g.requiredRole == AdminRole && g.pushed == [Path("/dashboard")] && g.calls == [GetUser]
    ensures g.RendersChildren() && g.user == Some(u)
  {
    g := new Guard(AdminRole);
    g.CheckUser(GetUserReturned(false, Some(u)));
    assert !g.RendersChildren();
    g.OnAuthStateChange(event, Some(Session(Some(u))));
  }
}
