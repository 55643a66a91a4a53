/**
 * The sign-in page: where its "sign up" link points and where a successful
 * sign-in lands. A page opened with a `showSignUp` query parameter belongs to
 * the checkout flow and returns there; otherwise the landing page follows the
 * user's role.
 */
module SignIn {
  import opened Common
  import opened JsValues
  import opened QueryString
  import Middleware

  /** The target of the "sign up" link: step 1 of checkout (sign-up form shown), or the sign-up page. */
  function SignUpUrl(params: seq<Param>): (url: string)
    ensures !IsCheckoutPage(params) ==> url == "/signup"
    ensures IsCheckoutPage(params) ==> PathOf(url) == "/checkout"
    ensures IsCheckoutPage(params) && QuerySafe(CourseIdText(params)) ==>
              ParamsOf(url) == [Param("step", "1"), Param("id", CourseIdText(params)), Param("showSignUp", "true")]
  {
    if IsCheckoutPage(params) then
      var url := CheckoutUrl("1", CourseIdText(params), "true");
      StepsAndFlagsQuerySafe();
      if QuerySafe(CourseIdText(params)) then CheckoutUrlRoundTrip("1", CourseIdText(params), "true"); url else url
    else "/signup"
  }

  /** The landing page outside checkout, by the user's role: setup without one, else the teacher or the student home. */
  function RoleLanding(user: Option<User>): (url: string)
    ensures url == Middleware.SetupPath <==> !Truthy(UserTypeOf(user))
    ensures url == Middleware.TeacherHome <==> UserTypeOf(user) == Str("teacher")
    ensures url == Middleware.StudentHome <==> Truthy(UserTypeOf(user)) && UserTypeOf(user) != Str("teacher")
  {
    var userType := UserTypeOf(user);
    if !Truthy(userType) then Middleware.SetupPath
    else if userType == Str("teacher") then Middleware.TeacherHome
    else Middleware.StudentHome
  }

  /** Where a successful sign-in lands: checkout step 2, else setup, the teacher home or the student home. */
  function RedirectUrl(params: seq<Param>, user: Option<User>): (url: string)
    ensures IsCheckoutPage(params) ==> PathOf(url) == "/checkout"
    ensures IsCheckoutPage(params) && QuerySafe(CourseIdText(params)) ==>
              ParamsOf(url) == [Param("step", "2"), Param("id", CourseIdText(params)), Param("showSignUp", "true")]
    ensures !IsCheckoutPage(params) ==> (url == Middleware.SetupPath <==> !Truthy(UserTypeOf(user)))
    ensures !IsCheckoutPage(params) ==> (url == Middleware.TeacherHome <==> UserTypeOf(user) == Str("teacher"))
    ensures !IsCheckoutPage(params) ==>
              (url == Middleware.StudentHome <==> Truthy(UserTypeOf(user)) && UserTypeOf(user) != Str("teacher"))
  {
    if IsCheckoutPage(params) then
      var url := CheckoutUrl("2", CourseIdText(params), "true");
      StepsAndFlagsQuerySafe();
      if QuerySafe(CourseIdText(params)) then CheckoutUrlRoundTrip("2", CourseIdText(params), "true"); url else url
    else RoleLanding(user)
  }

  /**
   * The sign-up link of a checkout page opens a checkout page again, for the
   * same course id; an absent id comes back as the text `null`.
   */
  lemma {:induction false} SignUpLinkStaysInCheckout(params: seq<Param>)
    requires IsCheckoutPage(params) && QuerySafe(CourseIdText(params))
    ensures IsCheckoutPage(ParamsOf(SignUpUrl(params)))
    ensures Get(ParamsOf(SignUpUrl(params)), "id") == Some(CourseIdText(params))
    ensures Get(params, "id").None? ==> Get(ParamsOf(SignUpUrl(params)), "id") == Some("null")
  {
    var ps := ParamsOf(SignUpUrl(params));
    assert ps[0].name != "showSignUp" && ps[1].name != "showSignUp" && ps[2].name == "showSignUp";
    assert ps[0].name != "id" && ps[1] == Param("id", CourseIdText(params));
  }

  /**
   * Off checkout, a user whose session carries the same role lands on a page
   * the route guard lets through, signed in or not, exactly when that role is unset,
   * `student` or `teacher`; any other role string lands on `/user/courses`
   * and is redirected away again.
   */
  lemma {:induction false} LandingPassesGuard(params: seq<Param>, user: Option<User>, userId: Option<string>)
    requires !IsCheckoutPage(params)
    ensures Middleware.Decide(RedirectUrl(params, user), userId, UserTypeOf(user)) == Middleware.Allow
        <==> !Truthy(UserTypeOf(user)) || UserTypeOf(user) == Str("student") || UserTypeOf(user) == Str("teacher")
  {
    var role := UserTypeOf(user);
    var url := RedirectUrl(params, user);
    if !Truthy(role) {
      assert url == Middleware.SetupPath;
    } else if role == Str("teacher") {
      assert Middleware.IsTeacherRoute(url);
      Middleware.RolePrefixesDisjoint(url);
    } else {
      assert url == Middleware.StudentHome;
      assert Middleware.IsStudentRoute(url);
      if role != Str("student") {
        Middleware.StudentRouteGuard(url, userId, role);
      } else {
        Middleware.RolePrefixesDisjoint(url);
      }
    }
  }
}
