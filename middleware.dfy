/**
 * The route guard that runs before every page request: a fixed chain of
 * early-return checks over the request path, the signed-in user's id and the
 * role claim (`userType`) from the session.
 *
 * The route matchers are modelled as case-sensitive prefix matches
 * (`/user(.*)`, `/teacher(.*)`, `/signin(.*)`, `/signup(.*)`) and one exact
 * match (`/setup`) on the request's path.
 */
module Middleware {
  import opened Common
  import opened JsValues

  predicate StartsWith(s: string, prefix: string) {
    |prefix| <= |s| && s[..|prefix|] == prefix
  }

  /** A prefix test succeeds exactly when the string is the prefix followed by some rest. */
  lemma {:induction false} StartsWithIff(s: string, prefix: string)
    ensures StartsWith(s, prefix) <==> exists rest :: s == prefix + rest
  {
    if StartsWith(s, prefix) {
      assert s == prefix + s[|prefix|..];
    }
  }

  /** The `/user(.*)` matcher: `/user` followed by anything. */
  predicate IsStudentRoute(path: string): (b: bool)
    ensures b <==> exists rest :: path == "/user" + rest
  {
    StartsWithIff(path, "/user");
    StartsWith(path, "/user")
  }

  /** The `/teacher(.*)` matcher: `/teacher` followed by anything. */
  predicate IsTeacherRoute(path: string): (b: bool)
    ensures b <==> exists rest :: path == "/teacher" + rest
  {
    StartsWithIff(path, "/teacher");
    StartsWith(path, "/teacher")
  }

  /** The `/signin(.*)` and `/signup(.*)` matchers. */
  predicate IsAuthRoute(path: string): (b: bool)
    ensures b <==> exists rest :: path == "/signin" + rest || path == "/signup" + rest
  {
    StartsWithIff(path, "/signin");
    StartsWithIff(path, "/signup");
    StartsWith(path, "/signin") || StartsWith(path, "/signup")
  }

  /** The exact `/setup` matcher; the setup page matches none of the other patterns. */
  predicate IsOnboardingRoute(path: string): (b: bool)
    ensures b ==> !IsStudentRoute(path) && !IsTeacherRoute(path) && !IsAuthRoute(path)
  {
    if path == "/setup" then
      assert path[1] == 's';
      true
    else false
  }

  const SetupPath := "/setup"
  const TeacherHome := "/teacher/courses"
  const StudentHome := "/user/courses"

  /** The outcome of one pass: let the request through, or redirect to a path. */
  datatype Decision = Allow | Redirect(target: string)

  /** `userId` as a JavaScript condition: present and non-empty. */
  predicate SignedIn(userId: Option<string>) {
    userId.Some? && userId.value != ""
  }

  /** The guard's decision for one request; only three redirect targets exist. */
  function Decide(path: string, userId: Option<string>, role: Value): (d: Decision)
    ensures d.Redirect? ==> d.target == SetupPath || d.target == TeacherHome || d.target == StudentHome
  {
    if IsAuthRoute(path) || IsOnboardingRoute(path) then Allow
    else if SignedIn(userId) && !Truthy(role) && !IsOnboardingRoute(path) then Redirect(SetupPath)
    else if IsStudentRoute(path) && role != Str("student") then Redirect(TeacherHome)
    else if IsTeacherRoute(path) && role != Str("teacher") then Redirect(StudentHome)
    else Allow
  }

  /** The first character after the leading `/` tells the four route prefixes apart. */
  lemma {:induction false} SecondChar(path: string, prefix: string)
    requires |prefix| >= 2 && StartsWith(path, prefix)
    ensures |path| >= 2 && path[1] == prefix[1]
  {
    assert path[..|prefix|][1] == path[1];
  }

  /** Sign-in, sign-up and onboarding pages are let through whatever the identity. */
  lemma AuthAndOnboardingAllowed(path: string, userId: Option<string>, role: Value)
    requires IsAuthRoute(path) || IsOnboardingRoute(path)
    ensures Decide(path, userId, role) == Allow
  {
  }

  /** A signed-in user without a role goes to setup from every other page, before any role check. */
  lemma MissingRoleGoesToSetup(path: string, userId: Option<string>, role: Value)
    requires !IsAuthRoute(path) && !IsOnboardingRoute(path)
    requires SignedIn(userId) && !Truthy(role)
    ensures Decide(path, userId, role) == Redirect(SetupPath)
  {
  }

  /**
   * A student page seen by anyone whose role is not `student` (an anonymous
   * request or an unknown role string included) redirects to the teacher home,
   * unless the setup rule fired first.
   */
  lemma {:induction false} StudentRouteGuard(path: string, userId: Option<string>, role: Value)
    requires IsStudentRoute(path) && role != Str("student")
    requires !(SignedIn(userId) && !Truthy(role))
    ensures Decide(path, userId, role) == Redirect(TeacherHome)
  {
    SecondChar(path, "/user");
    if StartsWith(path, "/signin") { SecondChar(path, "/signin"); }
    if StartsWith(path, "/signup") { SecondChar(path, "/signup"); }
  }

  /** A teacher page seen by anyone whose role is not `teacher` redirects to the student home. */
  lemma {:induction false} TeacherRouteGuard(path: string, userId: Option<string>, role: Value)
    requires IsTeacherRoute(path) && role != Str("teacher")
    requires !(SignedIn(userId) && !Truthy(role))
    ensures Decide(path, userId, role) == Redirect(StudentHome)
  {
    SecondChar(path, "/teacher");
    if StartsWith(path, "/signin") { SecondChar(path, "/signin"); }
    if StartsWith(path, "/signup") { SecondChar(path, "/signup"); }
    if StartsWith(path, "/user") { SecondChar(path, "/user"); }
  }

  /** No path is both a student page and a teacher page, so at most one role redirect applies. */
  lemma {:induction false} RolePrefixesDisjoint(path: string)
    ensures !(IsStudentRoute(path) && IsTeacherRoute(path))
  {
    if IsStudentRoute(path) && IsTeacherRoute(path) {
      SecondChar(path, "/user");
      SecondChar(path, "/teacher");
    }
  }

  /** The request is let through exactly when it is a sign-in/onboarding page or no rule fires. */
  lemma AllowIff(path: string, userId: Option<string>, role: Value)
    ensures Decide(path, userId, role) == Allow <==>
      (IsAuthRoute(path) || IsOnboardingRoute(path)) ||
      (!(SignedIn(userId) && !Truthy(role)) &&
       !(IsStudentRoute(path) && role != Str("student")) &&
       !(IsTeacherRoute(path) && role != Str("teacher")))
  {
  }

  /** The identities for which every redirect lands on a page that is let through. */
  predicate SettledIdentity(userId: Option<string>, role: Value) {
    role == Str("student") || role == Str("teacher") || (SignedIn(userId) && !Truthy(role))
  }

  /** For a student, a teacher or a signed-in user without a role, a redirect target is let through on the next pass. */
  lemma {:induction false} RedirectTargetAllowed(path: string, userId: Option<string>, role: Value)
    requires SettledIdentity(userId, role)
    requires Decide(path, userId, role).Redirect?
    ensures Decide(Decide(path, userId, role).target, userId, role) == Allow
  {
    var t := Decide(path, userId, role).target;
    if t == StudentHome {
      RolePrefixesDisjoint(t);
      assert IsStudentRoute(t);
    } else if t == TeacherHome {
      assert IsTeacherRoute(t);
      if IsStudentRoute(t) { RolePrefixesDisjoint(t); }
    }
  }

  /**
   * One-step stability holds for every path exactly for settled identities;
   * for anyone else (an anonymous request, or an unknown role) `/user` is a
   * path whose redirect target is itself redirected.
   */
  lemma {:induction false} StableIff(userId: Option<string>, role: Value)
    ensures (forall path :: Decide(path, userId, role).Redirect? ==>
               Decide(Decide(path, userId, role).target, userId, role) == Allow)
            <==> SettledIdentity(userId, role)
  {
    if SettledIdentity(userId, role) {
      forall path | Decide(path, userId, role).Redirect?
        ensures Decide(Decide(path, userId, role).target, userId, role) == Allow
      {
        RedirectTargetAllowed(path, userId, role);
      }
    } else {
      assert StartsWith("/user", "/user");
      StudentRouteGuard("/user", userId, role);
      assert IsTeacherRoute(TeacherHome);
      TeacherRouteGuard(TeacherHome, userId, role);
    }
  }

  /** Without a user id or role, the two role homes redirect to each other forever. */
  lemma {:induction false} AnonymousPingPong(userId: Option<string>, role: Value)
    requires !SignedIn(userId) && !Truthy(role)
    ensures Decide(StudentHome, userId, role) == Redirect(TeacherHome)
    ensures Decide(TeacherHome, userId, role) == Redirect(StudentHome)
  {
    assert IsStudentRoute(StudentHome);
    StudentRouteGuard(StudentHome, userId, role);
    assert IsTeacherRoute(TeacherHome);
    TeacherRouteGuard(TeacherHome, userId, role);
  }
}
