/**
 * The settings-page card that flips a user's role between student and
 * teacher. It is hidden when the user has no role, and its update keeps all
 * other metadata and overrides only `userType`.
 */
module UserTypeSwitcher {
  import opened Common
  import opened JsValues

  /** `current === "teacher" ? "student" : "teacher"`: any value but `teacher` becomes `teacher`. */
  function NewUserType(current: Value): (r: string)
    ensures r == "student" <==> current == Str("teacher")
    ensures r == "teacher" <==> current != Str("teacher")
  {
    if current == Str("teacher") then "student" else "teacher"
  }

  /**
   * The update the switch button sends, or `None` (an error message and no
   * update) when there is no user or no current role. The new metadata is
   * the old one with `userType` overridden.
   */
  function SwitchRequest(user: Option<User>): (r: Option<UpdateRequest>)
    ensures r.None? <==> user.None? || !Truthy(UserTypeOf(user))
    ensures r.Some? ==> r.value.userId == user.value.id
    ensures r.Some? ==> r.value.publicMetadata.Keys == user.value.publicMetadata.Keys + {"userType"}
    ensures r.Some? ==> forall k :: k in user.value.publicMetadata && k != "userType" ==>
                                      r.value.publicMetadata[k] == user.value.publicMetadata[k]
    ensures r.Some? ==> r.value.publicMetadata["userType"] == Str(NewUserType(UserTypeOf(user)))
  {
    if user.None? || !Truthy(UserTypeOf(user)) then None
    else
      var u := user.value;
      Some(UpdateRequest(u.id, u.publicMetadata["userType" := Str(NewUserType(UserTypeOf(user)))]))
  }

  /** The card is rendered only when the user has a current role, which is exactly when its button can send an update. */
  predicate Renders(user: Option<User>): (b: bool)
    ensures b <==> SwitchRequest(user).Some?
  {
    Truthy(UserTypeOf(user))
  }

  /** The role named in the hint text: the one the toggle produces. */
  function HintRole(current: Value): (r: string)
    ensures r == NewUserType(current)
  {
    if current == Str("teacher") then "student" else "teacher"
  }

  /** The role named on the button: the one the toggle produces, capitalised. */
  function ButtonRole(current: Value): (r: string)
    ensures r == Capitalize(NewUserType(current))
  {
    assert Capitalize("student") == "Student";
    assert Capitalize("teacher") == "Teacher";
    if current == Str("teacher") then "Student" else "Teacher"
  }

  /** ASCII upper-casing of a first letter. */
  function Capitalize(s: string): string {
    if |s| == 0 then s
    else if 'a' <= s[0] <= 'z' then [(s[0] as int - 'a' as int + 'A' as int) as char] + s[1..]
    else s
  }

  /** Toggling twice gives the role back exactly for `student` and `teacher`. */
  lemma {:induction false} ToggleTwiceIff(current: Value)
    ensures Str(NewUserType(Str(NewUserType(current)))) == current <==>
            current == Str("student") || current == Str("teacher")
  {
  }

  /** Switching a student or teacher twice restores the original metadata exactly. */
  lemma {:induction false} SwitchTwiceRestores(u: User)
    requires UserTypeOf(Some(u)) == Str("student") || UserTypeOf(Some(u)) == Str("teacher")
    ensures SwitchRequest(Some(u)).Some?
    ensures var once := User(u.id, SwitchRequest(Some(u)).value.publicMetadata);
            SwitchRequest(Some(once)) == Some(UpdateRequest(u.id, u.publicMetadata))
  {
    var m := u.publicMetadata;
    assert "userType" in m;
    var once := User(u.id, SwitchRequest(Some(u)).value.publicMetadata);
    ToggleTwiceIff(m["userType"]);
    var twice := SwitchRequest(Some(once)).value.publicMetadata;
    assert twice.Keys == m.Keys;
    forall k | k in m ensures twice[k] == m[k] {
    }
    assert twice == m;
  }
}
