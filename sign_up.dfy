/**
 * The sign-up page: the mirror of the sign-in page. Its "sign in" link and
 * its checkout landing carry `showSignUp=false`, which still marks the
 * checkout flow, since only the parameter's presence is tested.
 */
module SignUp {
  import opened Common
  import opened JsValues
  import opened QueryString
  import Middleware
  import SignIn

  /** The target of the "sign in" link: step 1 of checkout (sign-in form shown), or the sign-in page. */
  function SignInUrl(params: seq<Param>): (url: string)
    ensures !IsCheckoutPage(params) ==> url == "/signin"
    ensures IsCheckoutPage(params) ==> PathOf(url) == "/checkout"
    ensures IsCheckoutPage(params) && QuerySafe(CourseIdText(params)) ==>
              ParamsOf(url) == [Param("step", "1"), Param("id", CourseIdText(params)), Param("showSignUp", "false")]
  {
    if IsCheckoutPage(params) then
      var url := CheckoutUrl("1", CourseIdText(params), "false");
      StepsAndFlagsQuerySafe();
      if QuerySafe(CourseIdText(params)) then CheckoutUrlRoundTrip("1", CourseIdText(params), "false"); url else url
    else "/signin"
  }

  /** Where a successful sign-up lands: checkout step 2, else setup, the teacher home or the student home. */
  function RedirectUrl(params: seq<Param>, user: Option<User>): (url: string)
    ensures IsCheckoutPage(params) ==> PathOf(url) == "/checkout"
    ensures IsCheckoutPage(params) && QuerySafe(CourseIdText(params)) ==>
              ParamsOf(url) == [Param("step", "2"), Param("id", CourseIdText(params)), Param("showSignUp", "false")]
    ensures !IsCheckoutPage(params) ==> (url == Middleware.SetupPath <==> !Truthy(UserTypeOf(user)))
    ensures !IsCheckoutPage(params) ==> (url == Middleware.TeacherHome <==> UserTypeOf(user) == Str("teacher"))
    ensures !IsCheckoutPage(params) ==>
              (url == Middleware.StudentHome <==> Truthy(UserTypeOf(user)) && UserTypeOf(user) != Str("teacher"))
  {
    if IsCheckoutPage(params) then
      var url := CheckoutUrl("2", CourseIdText(params), "false");
      StepsAndFlagsQuerySafe();
      if QuerySafe(CourseIdText(params)) then CheckoutUrlRoundTrip("2", CourseIdText(params), "false"); url else url
    else SignIn.RoleLanding(user)
  }

  /** Off checkout, sign-up and sign-in land on the same page for every user. */
  lemma {:induction false} OffCheckoutSameAsSignIn(params: seq<Param>, user: Option<User>)
    requires !IsCheckoutPage(params)
    ensures RedirectUrl(params, user) == SignIn.RedirectUrl(params, user)
  {
    var a, b := RedirectUrl(params, user), SignIn.RedirectUrl(params, user);
    assert a == Middleware.SetupPath || a == Middleware.TeacherHome || a == Middleware.StudentHome;
  }

  /**
   * The sign-in link of a checkout page carries `showSignUp=false` and still
   * opens a checkout page, for the same course id.
   */
  lemma {:induction false} SignInLinkStaysInCheckout(params: seq<Param>)
    requires IsCheckoutPage(params) && QuerySafe(CourseIdText(params))
    ensures Get(ParamsOf(SignInUrl(params)), "showSignUp") == Some("false")
    ensures IsCheckoutPage(ParamsOf(SignInUrl(params)))
    ensures Get(ParamsOf(SignInUrl(params)), "id") == Some(CourseIdText(params))
  {
    var ps := ParamsOf(SignInUrl(params));
    assert ps[0].name != "showSignUp" && ps[1].name != "showSignUp" && ps[2] == Param("showSignUp", "false");
    assert ps[0].name != "id" && ps[1] == Param("id", CourseIdText(params));
  }

  /** On a checkout page, the two landings differ only in the `showSignUp` value. */
  lemma {:induction false} CheckoutLandingsDifferInFlagOnly(params: seq<Param>, user: Option<User>)
    requires IsCheckoutPage(params) && QuerySafe(CourseIdText(params))
    ensures PathOf(RedirectUrl(params, user)) == PathOf(SignIn.RedirectUrl(params, user))
    ensures ParamsOf(RedirectUrl(params, user)) == ParamsOf(SignIn.RedirectUrl(params, user))[2 := Param("showSignUp", "false")]
  {
    var id := CourseIdText(params);
    var a := ParamsOf(RedirectUrl(params, user));
    var b := ParamsOf(SignIn.RedirectUrl(params, user));
    assert a == [Param("step", "2"), Param("id", id), Param("showSignUp", "false")];
    assert b == [Param("step", "2"), Param("id", id), Param("showSignUp", "true")];
  }
}
