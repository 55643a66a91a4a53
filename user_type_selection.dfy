/**
 * The onboarding page where a new user picks a role. A click (ignored while
 * an update is in flight) marks the chosen card, sends the metadata update,
 * and when the update settles either navigates to the role's home or clears
 * the mark again.
 */
module UserTypeSelection {
  import opened Common
  import opened JsValues
  import Middleware

  /** The notification settings given to a user who has none. */
  function DefaultSettings(): (v: Value)
    ensures Truthy(v)
  {
    Obj(map[
      "emailAlerts" := Bool(true),
      "smsAlerts" := Bool(false),
      "courseNotifications" := Bool(false),
      "notificationFrequency" := Str("daily")])
  }

  /**
   * The metadata sent for a chosen role: exactly `userType` and `settings`;
   * existing truthy settings are kept, otherwise the defaults are used, so
   * the sent settings are always truthy.
   */
  function SelectionPayload(existing: Metadata, userType: Role): (p: Metadata)
    ensures p.Keys == {"userType", "settings"}
    ensures p["userType"] == Str(userType.Name())
    ensures Truthy(Lookup(existing, "settings")) ==> p["settings"] == existing["settings"]
    ensures !Truthy(Lookup(existing, "settings")) ==> p["settings"] == DefaultSettings()
    ensures Truthy(p["settings"])
  {
    var settings := Lookup(existing, "settings");
    map["userType" := Str(userType.Name()), "settings" := if Truthy(settings) then settings else DefaultSettings()]
  }

  /** The page a freshly onboarded user is sent to: the teacher or the student home. */
  function HomeOf(userType: Role): (path: string)
    ensures path == Middleware.TeacherHome <==> userType == Teacher
    ensures path == Middleware.StudentHome <==> userType == Student
  {
    assert Middleware.TeacherHome[1] != Middleware.StudentHome[1];
    match userType
    case Teacher => Middleware.TeacherHome
    case Student => Middleware.StudentHome
  }

  /** What a click on a role card does right away. */
  datatype ClickOutcome =
    | Ignored                         // an update is already in flight
    | UserNotFound                    // error shown, nothing sent
    | Sending(request: UpdateRequest) // the card is marked and this update is sent

  /** The page's state: which card is marked as selected. */
  class Selector {
    var selectedType: Option<Role>

    constructor ()
      ensures selectedType == None
    {
      selectedType := None;
    }

    /** A click on the card for `userType`, up to the point where the update is awaited. */
    method OnCardClick(isLoading: bool, user: Option<User>, userType: Role) returns (out: ClickOutcome)
      modifies this
      ensures isLoading ==> out == Ignored && selectedType == old(selectedType)
      ensures !isLoading && user.None? ==> out == UserNotFound && selectedType == old(selectedType)
      ensures !isLoading && user.Some? ==>
                && out == Sending(UpdateRequest(user.value.id, SelectionPayload(user.value.publicMetadata, userType)))
                && selectedType == Some(userType)
    {
      if isLoading {
        return Ignored;
      }
      if user.None? {
        return UserNotFound;
      }
      selectedType := Some(userType);
      var payload := SelectionPayload(user.value.publicMetadata, userType);
      out := Sending(UpdateRequest(user.value.id, payload));
    }

    /** The awaited update settles: on success navigate home, on failure clear the mark. */
    method OnUpdateSettled(userType: Role, succeeded: bool) returns (navigateTo: Option<string>)
      modifies this
      ensures succeeded ==> navigateTo == Some(HomeOf(userType)) && selectedType == old(selectedType)
      ensures !succeeded ==> navigateTo == None && selectedType == None
    {
      if succeeded {
        navigateTo := Some(HomeOf(userType));
      } else {
        selectedType := None;
        navigateTo := None;
      }
    }
  }

  /**
   * Once the session carries the role just chosen, the page the user is
   * sent to is let through by the route guard.
   */
  lemma {:induction false} OnboardedLandingAllowed(userType: Role, userId: Option<string>)
    ensures Middleware.Decide(HomeOf(userType), userId, Str(userType.Name())) == Middleware.Allow
  {
    var home := HomeOf(userType);
    Middleware.RolePrefixesDisjoint(home);
    if userType == Teacher {
      assert Middleware.IsTeacherRoute(home);
    } else {
      assert Middleware.IsStudentRoute(home);
    }
  }
}
