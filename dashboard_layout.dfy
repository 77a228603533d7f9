/** The dashboard layout: the user's display name and initials, and which menu item is active. */
module DashboardLayout {
  import opened Remote
  import opened JsStrings

  /** `user?.user_metadata?.first_name && user?.user_metadata?.last_name`. */
  predicate HasBothNames(user: Option<AuthUser>) {
    && user.Some?
    && user.value.metadata.firstName.Some? && Truthy(user.value.metadata.firstName.value)
    && user.value.metadata.lastName.Some? && Truthy(user.value.metadata.lastName.value)
  }

  /** `user?.email`, with an empty string standing for an absent one (both are falsy). */
  function EmailOf(user: Option<AuthUser>): string {
    if user.Some? && user.value.email.Some? then user.value.email.value else ""
  }

  /**
   * `getUserDisplayName`: `first last` when both names are set, otherwise the
   * e-mail text before its first `@`, or `User` when that is empty.
   */
  function DisplayName(user: Option<AuthUser>): (r: string)
    ensures r != ""
    ensures HasBothNames(user) ==>
      r == user.value.metadata.firstName.value + " " + user.value.metadata.lastName.value
    ensures !HasBothNames(user) ==>
      var e := EmailOf(user);
      || (r == "User" && (e == "" || e[0] == '@'))
      || (StartsWith(e, r) && '@' !in r && (|r| < |e| ==> e[|r|] == '@'))
  {
    if HasBothNames(user) then
      user.value.metadata.firstName.value + " " + user.value.metadata.lastName.value
    else
      var local := BeforeFirst(EmailOf(user), '@');
      if Truthy(local) then local else "User"
  }

  /** Without both names, an e-mail that does not start with `@` shows its local part. */
  lemma DisplayNameFromEmail(user: Option<AuthUser>)
    requires !HasBothNames(user) && EmailOf(user) != "" && EmailOf(user)[0] != '@'
    ensures DisplayName(user) == BeforeFirst(EmailOf(user), '@')
  {
    var e := EmailOf(user);
    assert BeforeFirst(e, '@') == [e[0]] + BeforeFirst(e[1..], '@');
  }

  /**
   * `getUserInitials`: the first character of each name as written, otherwise
   * the upper-cased first e-mail character, or `U`.
   */
  function Initials(user: Option<AuthUser>): (r: string)
    ensures 1 <= |r| <= 2
    ensures HasBothNames(user) ==>
      r == [user.value.metadata.firstName.value[0], user.value.metadata.lastName.value[0]]
    ensures !HasBothNames(user) && EmailOf(user) != "" ==> r == [UpperChar(EmailOf(user)[0])]
    ensures !HasBothNames(user) && EmailOf(user) == "" ==> r == "U"
  {
    if HasBothNames(user) then
      [user.value.metadata.firstName.value[0]] + [user.value.metadata.lastName.value[0]]
    else if Truthy(EmailOf(user)) then Upper(EmailOf(user)[..1])
    else "U"
  }

  /** Initials taken from the names are not upper-cased: a lower-case name gives lower-case initials. */
  lemma NameInitialsKeepCase()
    ensures Initials(Some(AuthUser("u1", None, UserMetadata(Some("ada"), Some("lovelace"), None)))) == "al"
  {
  }

  /** One entry of `menuItems`; its `label` is called `title` here, since `label` is a Dafny keyword. */
  datatype MenuItem = MenuItem(title: string, route: string)

  const ScheduleRoute := "/dashboard/schedule"

  const MenuItems: seq<MenuItem> := [
    MenuItem("Dashboard", "/dashboard"),
    MenuItem("Log Waste", "/dashboard/log-waste"),
    MenuItem("Schedule", ScheduleRoute),
    MenuItem("Rewards", "/dashboard/rewards")
  ]

  /** The `isActive` expression of one menu item. */
  predicate IsActive(route: string, pathname: string) {
    pathname == route || (route == ScheduleRoute && StartsWith(pathname, ScheduleRoute))
  }

  /** The Schedule item is active on every path under its prefix, e.g. `/dashboard/schedule-pickup`. */
  lemma ScheduleActiveOnPrefix(pathname: string)
    ensures IsActive(ScheduleRoute, pathname) <==> StartsWith(pathname, ScheduleRoute)
    ensures IsActive(ScheduleRoute, "/dashboard/schedule-pickup")
  {
    assert "/dashboard/schedule-pickup"[..|ScheduleRoute|] == ScheduleRoute;
  }

  /** Every other item is active only on its exact route. */
  lemma OtherItemsExact(i: nat, pathname: string)
    requires i < |MenuItems| && MenuItems[i].route != ScheduleRoute
    ensures IsActive(MenuItems[i].route, pathname) <==> pathname == MenuItems[i].route
  {
  }

  /** No route other than Schedule's lies under the Schedule prefix. */
  lemma OtherRoutesOutsideSchedule(i: nat)
    requires i < |MenuItems| && i != 2
    ensures !StartsWith(MenuItems[i].route, ScheduleRoute)
  {
    if i == 1 {
      assert MenuItems[1].route[11] == 'l' && ScheduleRoute[11] == 's';
    } else if i == 3 {
      assert MenuItems[3].route[11] == 'r' && ScheduleRoute[11] == 's';
    }
  }

  /** At most one menu item is highlighted, whatever the path. */
  lemma AtMostOneActive(pathname: string, i: nat, j: nat)
    requires i < |MenuItems| && j < |MenuItems| && i != j
    ensures !(IsActive(MenuItems[i].route, pathname) && IsActive(MenuItems[j].route, pathname))
  {
    if i == 2 {
      OtherRoutesOutsideSchedule(j);
    } else if j == 2 {
      OtherRoutesOutsideSchedule(i);
    } else {
      assert MenuItems[i].route != MenuItems[j].route by {
        assert |MenuItems[0].route| == 10 && |MenuItems[1].route| == 20 && |MenuItems[3].route| == 18;
      }
    }
  }
}
