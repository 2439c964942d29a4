/** The protected-route wrapper: from the auth state and the user type a
    route requires, what it renders (a spinner, the wrapped page, or
    nothing) and where its effect navigates. */
module RouteGuard {
  import opened Common
  import opened Records

  datatype UserType = Farmer | Buyer

  /** The text of a user type, as `profiles.user_type` stores it. */
  function TypeName(t: UserType): string {
    match t
    case Farmer => "farmer"
    case Buyer => "buyer"
  }

  datatype View = Spinner | Children | Nothing

  /** What one render yields: the view and the effect's navigation. */
  datatype Decision = Decision(view: View, navigate: Option<string>)

  /** The dashboard route of a user type. */
  function DashboardOf(userType: string): string {
    "/" + userType + "/dashboard"
  }

  /** The effect navigates to the login page when loading is over and there
      is no user, and to the profile's own dashboard when its type is not
      the required one; the render shows the spinner while loading, the
      page when there is a user and the type fits (or none is required),
      and nothing otherwise. */
  function Decide(isLoading: bool, hasUser: bool, profile: Option<Profile>, required: Option<UserType>): (d: Decision)
    ensures d.view == Spinner <==> isLoading
    ensures d.view == Children <==>
              !isLoading && hasUser && (required.None? || (profile.Some? && profile.value.userType == TypeName(required.value)))
    ensures d.navigate == Some("/login") <==> !isLoading && !hasUser
    ensures (!isLoading && hasUser && profile.Some? && required.Some? && profile.value.userType != TypeName(required.value))
              ==> d.navigate == Some(DashboardOf(profile.value.userType))
    ensures d.navigate.Some? <==>
              !isLoading && (!hasUser || (profile.Some? && required.Some? && profile.value.userType != TypeName(required.value)))
  {
    var navigate :=
      if !isLoading && !hasUser then Some("/login")
      else if !isLoading && hasUser && profile.Some? && required.Some? && profile.value.userType != TypeName(required.value)
      then Some(DashboardOf(profile.value.userType))
      else None;
    var view :=
      if isLoading then Spinner
      else if hasUser && (required.None? || (profile.Some? && profile.value.userType == TypeName(required.value)))
      then Children
      else Nothing;
    Decision(view, navigate)
  }

  /** No dashboard route is the login route. */
  lemma DashboardIsNotLogin(userType: string)
    ensures DashboardOf(userType) != "/login"
  {
    var d := DashboardOf(userType);
    assert d[|d| - 1] == 'd';
    assert |d| >= 11;
  }

  /** The page and a redirect never come together; while the profile of a
      typed route has not arrived, the guard neither shows the page nor
      redirects; and a user is sent to their dashboard only when the page is
      not shown. */
  lemma GuardOutcomes(isLoading: bool, hasUser: bool, profile: Option<Profile>, required: Option<UserType>)
    ensures var d := Decide(isLoading, hasUser, profile, required);
            (d.view == Children ==> d.navigate == None)
            && (!isLoading && hasUser && required.Some? && profile.None? ==> d.view == Nothing && d.navigate == None)
            && (d.navigate.Some? ==> d.view == Nothing)
  {
    if profile.Some? {
      DashboardIsNotLogin(profile.value.userType);
    }
  }

  /** A user whose profile has the required type always sees the page. */
  lemma RightTypeSeesPage(profile: Profile, t: UserType)
    requires profile.userType == TypeName(t)
    ensures Decide(false, true, Some(profile), Some(t)) == Decision(Children, None)
  {
  }
}
