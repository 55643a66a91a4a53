# Learning-management core: route guard, progress store and role flows

A Dafny model of the decision logic of a learning-management web application. The application has students and teachers, an external identity provider that carries the user's role (`userType`) in its metadata, and a server that stores per-user course progress.

The model covers:

- **The route guard** (`middleware.dfy`): the ordered chain of checks run before each page request.
  - Sign-in, sign-up and `/setup` pages pass.
  - A signed-in user without a role is sent to `/setup`.
  - `/user…` pages send anyone but a student to `/teacher/courses`.
  - `/teacher…` pages send anyone but a teacher to `/user/courses`.
  - Everything else passes.
  - Proved:
    - the redirect targets;
    - an exact characterisation of when a request passes;
    - that for a student, a teacher or a signed-in user without a role every redirect target is let through on the next request;
    - that for anyone else there is a path where this fails. Anonymous requests bounce between the two role homes.
- **The course-progress store** (`course_progress.dfy`).
  - A class over a table of progress records keyed by (user id, course id), with the three HTTP handlers as methods: list enrolled courses (403 unless the caller is that user), read one record (400 / 404), and create-or-merge a record (400).
  - The update is specified by the pure function `Upsert`. Lemmas prove:
    - that it keeps every record under its own key;
    - that it touches no other key;
    - that updates of different keys commute, whatever time each update reads;
    - how it changes the enrolled-course listing;
    - that a first update stores progress 0 whatever it sends.
- **The sign-in and sign-up pages** (`sign_in.dfy`, `sign_up.dfy`, with the query-string reading in `query_string.dfy`).
  - Where the "sign up" / "sign in" link points.
  - Where a successful sign-in or sign-up lands: back into checkout when a `showSignUp` parameter is present, otherwise `/setup`, the teacher home or the student home by role.
  - Every checkout URL is proved to open the `/checkout` page. One whose course id is query-safe (it contains none of `&`, `#`, `+`, `%`, tab, line feed and carriage return; see "## Left out") is proved to parse back into exactly the parameters it was built from.
  - Off checkout, the landing page is proved to pass the route guard exactly for an unset role, `student` or `teacher`.
- **The onboarding role choice** (`user_type_selection.dfy`).
  - A class holding the selected card.
  - The metadata update it sends: the role, plus the existing settings or the defaults.
  - Where it navigates on success, and that the route guard lets that page through once the session carries the new role.
- **The role switcher** (`user_type_switcher.dfy`).
  - The toggled role.
  - The update request, which keeps all other metadata.
  - That the card is shown exactly when it can send an update.
  - That switching twice restores a student's or teacher's metadata.
- **The video player's MIME choice** (`video_player.dfy`).
  - HLS when `.m3u8` occurs anywhere in the URL, else DASH when `.mpd` does, else MP4.
  - The substring scan is proved equal to "occurs at some index".
- **The footer links** (`footer.dfy`).
  - Four links whose targets are `/` plus the lower-cased item with its first space replaced by `-`.
  - Proved: the general shape of these targets, that only the first space is replaced, and the four concrete targets.

Untyped JavaScript values (metadata, session claims) are the `JsValues.Value` datatype with JavaScript truthiness. Clocks, the identity provider, the database and the router are parameters or left out (see below).

The route decision depends on the signed-in user id as well as the role claim: the setup redirect needs a user id. The progress-update handler checks no caller identity; only the enrolled-courses listing does.

## Model

| member | source | states |
|---|---|---|
| JsValues.Lookup | client/src/components/UserTypeSelection.tsx:30 | a missing metadata property reads as `undefined` |
| JsValues.UserTypeOf | client/src/components/SignIn.tsx:18 | without a user the role reads as `undefined` |
| Middleware.IsStudentRoute | client/middleware.ts:4-6 | a path is a student route exactly when it is `/user` followed by anything |
| Middleware.IsTeacherRoute | client/middleware.ts:8-10 | a path is a teacher route exactly when it is `/teacher` followed by anything |
| Middleware.IsOnboardingRoute | client/middleware.ts:12-14 | the setup page `/setup` is matched by none of the student, teacher and auth patterns |
| Middleware.IsAuthRoute | client/middleware.ts:16-19 | a path is an auth route exactly when it is `/signin` or `/signup` followed by anything |
| Middleware.Decide | client/middleware.ts:22-50 | the guard only ever redirects to `/setup`, `/teacher/courses` or `/user/courses` |
| Middleware.AuthAndOnboardingAllowed | client/middleware.ts:26-29 | sign-in, sign-up and `/setup` requests pass whatever the identity |
| Middleware.MissingRoleGoesToSetup | client/middleware.ts:31-35 | a signed-in user with a falsy role is sent to `/setup` from every other page, before any role check |
| Middleware.StudentRouteGuard | client/middleware.ts:37-42 | a `/user…` page seen by any role but `student` (anonymous or unknown role included) redirects to `/teacher/courses` once the setup rule has not fired |
| Middleware.TeacherRouteGuard | client/middleware.ts:44-49 | a `/teacher…` page seen by any role but `teacher` redirects to `/user/courses` once the setup rule has not fired |
| Middleware.RolePrefixesDisjoint | client/middleware.ts:4-10 | no path matches both the student and the teacher route patterns |
| Middleware.AllowIff | client/middleware.ts:22-50 | a request passes exactly when it is an auth/onboarding page or none of the three redirect rules applies |
| Middleware.RedirectTargetAllowed | client/middleware.ts:37-49 | for a student, a teacher or a signed-in user without a role, the page redirected to is let through on the next request |
| Middleware.StableIff | client/middleware.ts:31-49 | every redirect lands on an allowed page for all paths exactly when the identity is a student, a teacher or signed in without a role |
| Middleware.AnonymousPingPong | client/middleware.ts:37-49 | with no user id and no role, `/user/courses` and `/teacher/courses` redirect to each other |
| CourseProgress.OrEmpty | server/src/controllers/userCourseProgressController.ts:88 | absent incoming sections read as the empty list |
| CourseProgress.NewRecord | server/src/controllers/userCourseProgressController.ts:83-90 | a first record carries its key, progress 0, the request's sections (or none) and the current time as both enrollment and access time |
| CourseProgress.MergedRecord | server/src/controllers/userCourseProgressController.ts:100-105 | an existing record gets the merged sections, the current access time and the progress of the merged sections; its key and enrollment date stay |
| CourseProgress.Upsert | server/src/controllers/userCourseProgressController.ts:79-107 | after an update the table has the old keys plus the updated one, every other record is unchanged, and the updated record is created or merged as above |
| CourseProgress.EnrolledCourseIds | server/src/controllers/userCourseProgressController.ts:20-23 | a course id is listed for a user exactly when that user has a record for it |
| CourseProgress.ProgressStore.constructor | server/src/controllers/userCourseProgressController.ts:5 | an empty table using the given merge and progress helpers |
| CourseProgress.ProgressStore.GetUserEnrolledCourses | server/src/controllers/userCourseProgressController.ts:7-34 | 403 exactly when the authenticated id is missing or differs from the path's id; otherwise `EnrolledCourseIds` of the table: the course ids of that user's records |
| CourseProgress.ProgressStore.GetUserCourseProgress | server/src/controllers/userCourseProgressController.ts:36-64 | 400 on an empty id, 404 when no record exists, else the stored record unchanged, which belongs to the requested user and course |
| CourseProgress.ProgressStore.UpdateUserCourseProgress | server/src/controllers/userCourseProgressController.ts:66-120 | 400 on an empty id with nothing written; otherwise the table becomes `Upsert` of the old table and the answer is the record now stored; records keep their keys |
| CourseProgress.UpsertKeepsKeysMatching | server/src/controllers/userCourseProgressController.ts:79-107 | every record stays stored under its own (user id, course id) |
| CourseProgress.CreateIgnoresCompletion | server/src/controllers/userCourseProgressController.ts:81-90 | a first update stores progress 0 and the sent sections even when every sent chapter is completed |
| CourseProgress.ProgressOfMergedNotIncoming | server/src/controllers/userCourseProgressController.ts:100-105 | the stored progress is computed from the merged sections, not from the incoming ones |
| CourseProgress.UpsertsOnDistinctKeysCommute | server/src/controllers/userCourseProgressController.ts:79-107 | updates of two different keys, each with its own timestamp, give the same table in either order |
| CourseProgress.UpsertEnrolls | server/src/controllers/userCourseProgressController.ts:20-23 | after an update of (u, c) user u's enrolled courses gain c and no other user's listing changes |
| QueryString.Get | client/src/components/SignIn.tsx:10-11 | `get(name)` is absent exactly when no parameter has that name, else the value of the first one that does |
| QueryString.Interpolate | client/src/components/SignIn.tsx:13 | an absent value prints as `null` in a URL template |
| QueryString.BeforeFragment | client/src/components/SignIn.tsx:9 | the URL without its fragment has no `#`, and a URL without `#` is kept whole |
| QueryString.UrlParts | client/src/components/SignIn.tsx:9-11 | in `path?rest` with a `?`- and `#`-free path, the path is read back and the query is `rest` up to its first `#` |
| QueryString.FragmentEndsQuery | client/src/components/SignIn.tsx:9-11 | a fragment after the query is not read as part of it |
| QueryString.IsCheckoutPage | client/src/components/SignIn.tsx:10 | a page is a checkout page exactly when some parameter is named `showSignUp`, whatever its value |
| QueryString.CourseIdText | client/src/components/SignIn.tsx:11-13 | the course id printed into a URL is the value of the first `id` parameter, or `null` when there is none |
| QueryString.CheckoutUrl | client/src/components/SignIn.tsx:13-16 | every checkout URL, whatever its parts, opens the `/checkout` page |
| QueryString.CheckoutUrlRoundTrip | client/src/components/SignIn.tsx:13-16 | a checkout URL whose parts are query-safe (none of `&`, `#`, `+`, `%`, tab, line feed, carriage return) reads back with exactly the parameters `step`, `id`, `showSignUp` in order |
| SignIn.SignUpUrl | client/src/components/SignIn.tsx:13 | off checkout the link is `/signup`; on checkout it opens `/checkout`, and with a query-safe course id it reads back as step 1 with that id and `showSignUp=true` |
| SignIn.RoleLanding | client/src/components/SignIn.tsx:18-28 | outside checkout the landing is `/setup` exactly for a falsy role, `/teacher/courses` exactly for `teacher`, `/user/courses` exactly for any other truthy role; the sign-up page uses the same rule |
| SignIn.RedirectUrl | client/src/components/SignIn.tsx:14-29 | on checkout the landing opens `/checkout`, and with a query-safe course id it reads back as step 2 with that id and `showSignUp=true`; otherwise `/setup` exactly for a falsy role, `/teacher/courses` exactly for `teacher`, `/user/courses` exactly for any other truthy role |
| SignIn.SignUpLinkStaysInCheckout | client/src/components/SignIn.tsx:10-13 | the sign-up link of a checkout page with a query-safe course id opens a checkout page again for the same course id, with an absent id carried as the text `null` |
| SignIn.LandingPassesGuard | client/src/components/SignIn.tsx:14-29 | off checkout, the landing page passes the route guard for the same session, signed in or not, exactly when the role is unset, `student` or `teacher` |
| SignUp.SignInUrl | client/src/components/SignUp.tsx:12 | off checkout the link is `/signin`; on checkout it opens `/checkout`, and with a query-safe course id it reads back as step 1 with that id and `showSignUp=false` |
| SignUp.RedirectUrl | client/src/components/SignUp.tsx:15-31 | on checkout the landing opens `/checkout`, and with a query-safe course id it reads back as step 2 with that id and `showSignUp=false`; otherwise the same three role rules as after sign-in |
| SignUp.OffCheckoutSameAsSignIn | client/src/components/SignUp.tsx:20-30 | off checkout, sign-up and sign-in land on the same page for every user |
| SignUp.SignInLinkStaysInCheckout | client/src/components/SignUp.tsx:9-12 | the sign-in link of a checkout page with a query-safe course id carries `showSignUp=false`, which still marks a checkout page, for the same course id |
| SignUp.CheckoutLandingsDifferInFlagOnly | client/src/components/SignUp.tsx:17 | on checkout with a query-safe course id, the sign-up and sign-in landings have the same path and parameters except `showSignUp` |
| UserTypeSelection.DefaultSettings | client/src/components/UserTypeSelection.tsx:30-35 | the default notification settings are a truthy object |
| UserTypeSelection.SelectionPayload | client/src/components/UserTypeSelection.tsx:26-36 | the sent metadata has exactly `userType` (the chosen role) and `settings` (the existing truthy settings, else the defaults), so settings are always truthy |
| UserTypeSelection.HomeOf | client/src/components/UserTypeSelection.tsx:42-48 | a teacher is sent to `/teacher/courses`, a student to `/user/courses` |
| UserTypeSelection.Selector.constructor | client/src/components/UserTypeSelection.tsx:15 | no card is selected at first |
| UserTypeSelection.Selector.OnCardClick | client/src/components/UserTypeSelection.tsx:17-37 | a click while loading does nothing; without a user it reports not-found and selects nothing; otherwise it selects the card and sends the user's id with the selection payload |
| UserTypeSelection.Selector.OnUpdateSettled | client/src/components/UserTypeSelection.tsx:39-53 | on success it navigates to the role's home keeping the selection; on failure it clears the selection and stays |
| UserTypeSelection.OnboardedLandingAllowed | client/src/components/UserTypeSelection.tsx:42-48 | once the session carries the chosen role, the route guard lets the page navigated to through |
| UserTypeSwitcher.NewUserType | client/src/components/UserTypeSwitcher.tsx:22 | the new role is `student` exactly for a current `teacher`, and `teacher` for anything else |
| UserTypeSwitcher.SwitchRequest | client/src/components/UserTypeSwitcher.tsx:16-31 | no update exactly when there is no user or no role; otherwise the user's id and the old metadata with only `userType` overridden by the toggled role |
| UserTypeSwitcher.Renders | client/src/components/UserTypeSwitcher.tsx:45-47 | the card is shown exactly when its button can send an update |
| UserTypeSwitcher.HintRole | client/src/components/UserTypeSwitcher.tsx:62 | the hint names the role the toggle produces |
| UserTypeSwitcher.ButtonRole | client/src/components/UserTypeSwitcher.tsx:79 | the button names the role the toggle produces, capitalised |
| UserTypeSwitcher.ToggleTwiceIff | client/src/components/UserTypeSwitcher.tsx:22 | toggling twice gives the role back exactly for `student` and `teacher` |
| UserTypeSwitcher.SwitchTwiceRestores | client/src/components/UserTypeSwitcher.tsx:25-31 | switching a student or teacher twice sends back exactly the original metadata |
| VideoPlayer.Includes | client/src/components/VideoPlayer.tsx:71-73 | the empty pattern is always found, and a found pattern is no longer than the URL |
| VideoPlayer.IncludesIff | client/src/components/VideoPlayer.tsx:71-74 | the substring scan succeeds exactly when the pattern occurs at some index |
| VideoPlayer.SourceType | client/src/components/VideoPlayer.tsx:70-75 | HLS exactly when `.m3u8` occurs, DASH exactly when `.mpd` occurs and `.m3u8` does not, MP4 exactly when neither occurs |
| VideoPlayer.SourceUpdate | client/src/components/VideoPlayer.tsx:68-81 | a source is handed over exactly when a player exists and the URL is non-empty, with that URL and its MIME type |
| VideoPlayer.ContainmentNotSuffix | client/src/components/VideoPlayer.tsx:71-75 | `.m3u8` anywhere wins, also before a later `.mpd` or a query string |
| VideoPlayer.DashExample | client/src/components/VideoPlayer.tsx:73-74 | a DASH manifest URL with a query gets the DASH type |
| VideoPlayer.Mp4Example | client/src/components/VideoPlayer.tsx:70 | a plain file URL gets the MP4 default |
| Footer.ToLower | client/src/components/Footer.tsx:10 | lower-casing keeps the length and keeps every space where it was, creating none |
| Footer.IndexOf | client/src/components/Footer.tsx:10 | the search answers -1 or an index into the string |
| Footer.ReplaceFirst | client/src/components/Footer.tsx:10 | replacing keeps the length, and the replacement appears whenever the pattern did |
| Footer.Href | client/src/components/Footer.tsx:10 | an href is one character longer than its item and starts with `/` |
| Footer.Links | client/src/components/Footer.tsx:9-13 | one link per item, and no two links share a key |
| Footer.IndexOfFirst | client/src/components/Footer.tsx:10 | the search answers -1 exactly when the character is absent, else the index of its first occurrence |
| Footer.ReplaceFirstAt | client/src/components/Footer.tsx:10 | replacing with a one-character pattern changes only the first occurrence and keeps the length |
| Footer.ReplaceFirstSplit | client/src/components/Footer.tsx:10 | after a match-free prefix, the next match is the one replaced and the rest is kept |
| Footer.HrefAt | client/src/components/Footer.tsx:10 | each href is one longer than its item, starts with `/`, and has `-` for the item's first space and the lower-cased character elsewhere |
| Footer.HrefOneWord | client/src/components/Footer.tsx:10 | an item without spaces links to `/` and its lower-cased self |
| Footer.HrefFirstSpace | client/src/components/Footer.tsx:10 | an item `w1 w2` whose first word has no space links to `/w1-w2` lower-cased, spaces in `w2` kept |
| Footer.OnlyFirstSpaceReplaced | client/src/components/Footer.tsx:10 | in an item with two spaces only the first becomes `-` |
| Footer.TwoSpaceExample | client/src/components/Footer.tsx:10 | `Terms Of Use` would link to `/terms-of use` |
| Footer.AboutHref | client/src/components/Footer.tsx:10 | `About` links to `/about` |
| Footer.PrivacyPolicyHref | client/src/components/Footer.tsx:10 | `Privacy Policy` links to `/privacy-policy` |
| Footer.LicensingHref | client/src/components/Footer.tsx:10 | `Licensing` links to `/licensing` |
| Footer.ContactUsHref | client/src/components/Footer.tsx:10 | `Contact Us` links to `/contact-us` |
| Footer.FooterLinks | client/src/components/Footer.tsx:9-13 | the footer renders exactly four links, in the order About, Privacy Policy, Licensing, Contact Us, each keyed and labelled by its item |

## Left out

- The section merge and the overall-progress calculation (`mergeSections`, `calculateOverallProgress`): server/src/utils/utils.js is not part of this model. The store takes them as two uninterpreted functions, and nothing proved here depends on what they compute.
- CourseProgress.ProgressStore.GetUserEnrolledCourses: returns the set of enrolled course ids. It does not model the order of the database query or the catalogue lookup (`Course.batchGet`) that turns the ids into course objects.
- The 500 responses of all three handlers (database failures) are not modelled; the table is a map that cannot fail.
- The two clock reads of the create path are one input `now`, so enrollment and access times of a new record are equal.
- The read-then-write race between concurrent updates of one record is not modelled; each handler call is one atomic step.
- The identity provider (`auth()`, `getAuth`, `useUser`, session claims) becomes parameters: the user id, the role claim and the user object.
- Route matchers are case-sensitive prefix matches on the path (exact for `/setup`). Case-insensitive matching, trailing slashes and the middleware's `config.matcher` filter are not modelled.
- The query string is read as the text between the first `?` and the first `#`, without percent-decoding and without `+` as a space. The browser's removal of tab, line feed and carriage return from a URL is not modelled either. The round-trip lemmas therefore cover only query-safe parts, which contain none of `&`, `#`, `+`, `%`, tab, line feed and carriage return; what the browser reads back from other parts is not stated.
- Toasts, `router.push`, `setTimeout`, `window.location.reload`, the loading spinner and the card styling are left out; navigation is returned as a value.
- The video.js player lifecycle (creation, ready and progress callbacks, disposal) and the floating-point played ratio are left out; only the source update is modelled.
- `toLowerCase` lower-cases ASCII letters only; Unicode case mapping is not modelled, and all four footer items are ASCII.
- JavaScript numbers are reals; NaN (falsy in JavaScript) is not modelled.
- The identity-provider update controller, the server entry point, the route tables and the presentational components are not modelled.
