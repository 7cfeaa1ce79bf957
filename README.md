# Dailyyou-Gym: a Dafny model of the route handlers and form logic

Dailyyou-Gym is a Next.js web app for running a gym. A gym owner signs up, creates a gym, adds
members by their connection codes, and keeps a library of plans and exercises. Every piece of
data lives in Firestore.

This project models two parts of the app.

- **The API route handlers** (`app/api/...`). They form a state machine over one document store,
  `DocStore.Store`.
  - The store is a class. Its fields are maps for the collections reached by key (`App_user`,
    `App_user/gyms/gyms`) and document sequences for the collections a handler lists (plans,
    exercises, the root `Gym` collection, `Members` subcollections).
  - Each handler that writes is a `method` with `modifies store`. It returns the HTTP status and
    body, states the whole new store, and keeps the store invariant `Valid()`:
    - no gym lists a member twice;
    - every profile's `gymId` names a gym that lists that profile;
    - the root `Gym` collection has one gym per owner;
    - member records are filed under their uid;
    - plans are filed under their gym;
    - document ids are unique.
  - Read-only handlers are functions.
  - Token verification (`verifyIdToken`) is the parameter `verify: string -> Option<string>`.
    Clock reads and generated document ids are parameters too.
- **The pure logic of the pages and components**:
  - the sign-up password meter and validation chain;
  - the login checks;
  - the working-day toggle, shared by the create-gym and settings pages;
  - the create-gym required fields and payload;
  - the settings form defaults;
  - the exercise payload shaping, with `parseInt`, comma lists and trimming;
  - the category counts;
  - the upload filename sanitiser and the public URL;
  - the `Input` id slug;
  - the sign-up error messages of the auth context, its sign-out reset and the `useAuth` guard.

JavaScript semantics are written out where they matter:
- truthiness of optional strings (`Wrappers.Truthy`);
- `a || b` (`Wrappers.OrElse`);
- `header.split('Bearer ')[1]` (`BearerAuth.Token`);
- the order of object spreads (`Json.FieldThenSpread`, `Json.SpreadThenField`);
- `parseInt` and `Number` on digit strings (`Numbers`);
- ASCII `\s`, `trim()`, `toLowerCase()` and `includes` (`Text`).

Which status a rejected token gets depends on the route.
- These routes catch a verification failure locally and answer 401: `gyms`, `gyms/members`,
  `plans`, `gym-exercises` and `upload`.
- These routes have no local catch, so the failure reaches the outer `catch` and the answer is
  500 with that handler's message: `gym`, `gym/members`, `auth/register` and `auth/me`.

## Model

| member | source | states |
|---|---|---|
| BearerAuth.Token | app/api/gyms/route.ts:8-13 | No token exactly when the header is missing or does not start with `Bearer ` |
| BearerAuth.TokenIsFirstSegment | app/api/gyms/route.ts:13 | The token is a prefix of the text after the scheme and holds no `Bearer `; it is all of that text when no second `Bearer ` follows |
| BearerAuth.TokenRoundTrip | app/api/gyms/route.ts:8-13 | A header `Bearer ${t}` yields back `t` if and only if `t` contains no `Bearer ` |
| BearerAuth.Authenticate | app/api/gyms/route.ts:8-22 | The caller is unauthenticated exactly when there is no token; a verified caller's uid is what verification returned for the token; a rejected caller's token failed verification |
| BearerAuth.FindFrom | app/api/gyms/route.ts:13 | Finds the first occurrence of the separator at or after a position, or reports that none exists |
| DocStore.GymOf | app/api/plans/route.ts:20-26 | A gym id comes back exactly when the profile exists and its `gymId` is truthy, and it is that `gymId` |
| DocStore.OwnedBy | app/api/gym/route.ts:29-33 | The owner query finds the first gym whose `ownerId` is the caller, and nothing only when no gym has that owner |
| DocStore.OwnedByUnique | app/api/gym/route.ts:71-74 | With one gym per owner, the found gym is the owner's only gym |
| DocStore.AddOwnedGym | app/api/gym/route.ts:71-95 | Adding a gym for an owner who has none keeps one gym per owner |
| DocStore.AddFreshId | app/api/plans/route.ts:45-46 | Appending a document with a new id keeps the ids of a collection unique |
| DocStore.OwnedByAppended | app/api/gym/route.ts:76-95 | After a gym is appended for an owner who had none, the owner query finds exactly that gym |
| DocStore.Store.constructor | app/api/gyms/route.ts:25-36 | An empty store satisfies every store invariant |
| GymsMembersRoute.Admit | app/api/gyms/members/route.ts:73-76 | The new members array is the old one with the member added once, at the end, and stays duplicate-free |
| GymsMembersRoute.Post | app/api/gyms/members/route.ts:4-91 | 401 for a missing, malformed or rejected token; 400 for an empty code; 404 for an unknown owner, an owner without a gym, or a missing gym document; 404 for an unknown code; 400 and no write when the code holder is already a member; otherwise the holder is appended to `members`, loses the code and gets the gym's id. Nothing else changes and the invariants hold |
| GymsMembersRoute.AdmitKeepsInvariants | app/api/gyms/members/route.ts:66-83 | Admitting a non-member keeps every gym's members distinct and every profile's gym link valid |
| GymsRoute.DetailOf | app/api/gyms/route.ts:52-57 | A member entry has the member's id; its name is the profile's name when truthy, else `'Unknown'`; its email is the profile's email when truthy, else `'N/A'`; it has a `joinedAt` exactly when the profile's `createdAt` is truthy, and then it is that value |
| GymsRoute.Profiled | app/api/gyms/route.ts:46-67 | The kept member ids are exactly the members whose profile exists |
| GymsRoute.Details | app/api/gyms/route.ts:46-67 | Every detail entry belongs to a member with a profile, and there are no more entries than members |
| GymsRoute.DetailsFollowMembers | app/api/gyms/route.ts:46-67 | Entry `i` holds the details of the `i`-th member whose profile exists: missing profiles are dropped and `members` order is kept |
| GymsRoute.DetailsComplete | app/api/gyms/route.ts:46-67 | When every member has a profile, there is one entry per member, in order |
| GymsRoute.DetailsDistinct | app/api/gyms/route.ts:46-67 | Distinct members give entries with distinct user ids |
| GymsRoute.Get | app/api/gyms/route.ts:6-82 | 401 for a missing, malformed or rejected token. 404 for an unknown user, a user without a gym, or a missing gym document. Success happens exactly when the caller's gym exists, and then the body is that gym with its member details |
| GymsRoute.NewGym | app/api/gyms/route.ts:114-124 | The new gym is owned by the caller, has the caller as its only member, takes the submitted fields, and defaults `logo` to `''` |
| GymsRoute.Post | app/api/gyms/route.ts:84-145 | 401 for a missing, malformed or rejected token; 404 for an unknown user; 400 and no write when the user already has a gym; 500 and no write when name, address, working days or contact number was not sent (the store refuses an `undefined` field). Otherwise the gym is added under the new id and the caller gets its id and role `gym_owner`. The invariants hold |
| GymsRoute.CreateKeepsInvariants | app/api/gyms/route.ts:114-134 | A new gym whose only member is its owner keeps members distinct and gym links valid |
| GymRoute.Records | app/api/gym/route.ts:35-48 | The member records are the subcollection's documents' data, in order |
| GymRoute.Get | app/api/gym/route.ts:5-54 | 401 without a Bearer header and 500 for a rejected token. 404 when the caller owns no gym. A success is always the verified caller's own gym, with its id and its `Members` records |
| GymRoute.GetFindsOwnGym | app/api/gym/route.ts:29-48 | With one gym per owner, a verified owner always gets exactly their gym |
| GymRoute.NewGym | app/api/gym/route.ts:76-94 | The created gym records the caller as owner and the submitted fields as given |
| GymRoute.Post | app/api/gym/route.ts:57-101 | 401 without a Bearer header; 500 for a rejected token; 400 and no write when the caller already owns a gym; 500 and no write when any of the five body fields was not sent (the store refuses an `undefined` field). Otherwise the gym is appended to the root collection, and one gym per owner is kept |
| GymRoute.CreatedGymIsFound | app/api/gym/route.ts:5-95 | After a successful POST, GET by the same caller returns the new gym with no members |
| GymMembersRoute.Get | app/api/gym/members/route.ts:5-35 | 401 without a Bearer header; 500 for a rejected token; 404 when the caller owns no gym. Otherwise the documents of the caller's gym's `Members` subcollection, with their ids |
| GymMembersRoute.ListingKeyedByMember | app/api/gym/members/route.ts:23-29 | In a valid store, every listed record's `userId` is its document id, and no member is listed twice |
| GymMembersRoute.NewRecord | app/api/gym/members/route.ts:80-86 | The record holds the member's uid, name and email, the join time, and status `active` |
| GymMembersRoute.Post | app/api/gym/members/route.ts:38-99 | 401 without a Bearer header; 500 for a rejected token; 400 for an empty code; 404 when the caller owns no gym or the code is unknown; 400 and no write for an existing record; 500 and no write when the member's profile has no name or no email (the record would hold an `undefined` field). Otherwise a record keyed by the member's uid is added and the member's code is cleared. The invariants hold |
| GymMembersRoute.CodeIsCleared | app/api/gym/members/route.ts:88-91 | Once used, the member's profile holds no connection code at all |
| GymMembersRoute.AddedMemberIsListed | app/api/gym/members/route.ts:23-29 | After a successful POST, the owner's listing has one more record, and it is the new member's |
| PlansRoute.NewPlan | app/api/plans/route.ts:35-43 | The plan records name, duration and the caller's gym, `Number(price)` as its price, and the description or `''` |
| PlansRoute.PriceRoundTrip | app/api/plans/route.ts:37 | A price written as a decimal numeral is stored as that number |
| PlansRoute.Post | app/api/plans/route.ts:4-56 | 401 for a missing, malformed or rejected token. 404 for a user without a gym. 400 and no write when name, price or duration is missing or empty. Otherwise the plan is added to the caller's gym. The invariants hold |
| PlansRoute.Get | app/api/plans/route.ts:58-96 | 401 for a bad token; 404 for a user without a gym; otherwise every plan of the caller's gym with its document id |
| PlansRoute.CreatedPlanIsListed | app/api/plans/route.ts:45-90 | After a successful POST, GET by the same caller lists the old plans followed by the new one, which records the caller's gym |
| PlansRoute.ListedPlansBelongToGym | app/api/plans/route.ts:83-90 | When plans are filed under their gym, GET lists only plans of the caller's gym |
| GymExercisesRoute.Listed | app/api/gym-exercises/route.ts:36-41 | A listed exercise holds all the stored fields, plus `exerciseId`, which is the document id unless the stored data has its own |
| GymExercisesRoute.ListAll | app/api/gym-exercises/route.ts:36-41 | One listed entry per document, in order |
| GymExercisesRoute.Get | app/api/gym-exercises/route.ts:4-48 | 401 for a bad token; 404 for an unknown user or a user without a gym; otherwise every exercise of the caller's gym |
| GymExercisesRoute.ListedIdsAreDocIds | app/api/gym-exercises/route.ts:36-41 | Every listed exercise whose data has no `exerciseId` field carries its document id there |
| GymExercisesRoute.NewExercise | app/api/gym-exercises/route.ts:81-85 | The stored exercise keeps every submitted field except `createdAt` and `createdBy`, which are the clock read and the caller |
| GymExercisesRoute.Post | app/api/gym-exercises/route.ts:51-98 | 401 for a bad token; 404 "You do not own a gym" for a user without a gym. Otherwise the exercise is appended to the caller's gym, the response is it with `exerciseId`, and the invariants hold |
| GymExercisesRoute.CreatedByIsCaller | app/api/gym-exercises/route.ts:81-92 | Whatever the body holds, `createdBy` is the caller. The response's `exerciseId` is the new id unless the body supplied its own |
| GymExercisesRoute.BodyExerciseIdWins | app/api/gym-exercises/route.ts:87-92 | A body with its own `exerciseId` hides the new document id in the response |
| RegisterRoute.NewProfile | app/api/auth/register/route.ts:22-31 | The new profile holds the caller's uid as `userId`, the given name and email, status `LOGGED_IN`, and no gym, role or code |
| RegisterRoute.Post | app/api/auth/register/route.ts:4-42 | 401 without a Bearer header; 500 for a rejected token; 400 and no write when a profile exists; 500 and no write when the body has no name or no email (the store refuses an `undefined` field). Otherwise the profile is written under the uid and returned as written. Other profiles are untouched and the invariants hold |
| MeRoute.Get | app/api/auth/me/route.ts:4-38 | 401 without a Bearer header; 500 for a rejected token; 404 without a profile. Success happens exactly when a verified caller has a profile, and then the body is the caller's uid with the profile's name, email, gymId and role |
| MeRoute.ExposesOnlyFourFields | app/api/auth/me/route.ts:23-31 | Profiles that agree on name, email, gymId and role give the same response |
| MeRoute.MeAfterRegister | app/api/auth/me/route.ts:23-31 | Right after registration, the view holds the registered name and email and no gym or role |
| UploadRoute.Sanitize | app/api/upload/route.ts:29 | Same length; characters in `[A-Za-z0-9.]` are kept and every other character becomes `_` |
| UploadRoute.SanitizedAlphabet | app/api/upload/route.ts:29 | A sanitised name holds only `[A-Za-z0-9._]` |
| UploadRoute.SanitizeIdempotent | app/api/upload/route.ts:29 | Sanitising twice is sanitising once |
| UploadRoute.SanitizeKeepsClean | app/api/upload/route.ts:29 | A name already in `[A-Za-z0-9.]` is unchanged |
| UploadRoute.ObjectName | app/api/upload/route.ts:29-32 | The object name starts with `uploads/`, and its length is the prefix plus the timestamp, `_` and the name |
| UploadRoute.ObjectNameStamp | app/api/upload/route.ts:29-32 | The object name is `uploads/`, the timestamp's digits, `_`, then the sanitised name |
| UploadRoute.ObjectNamesDiffer | app/api/upload/route.ts:29-32 | Equal object names mean equal timestamps and equal sanitised names, so uploads at different milliseconds never collide |
| UploadRoute.PublicUrl | app/api/upload/route.ts:45 | The URL is `https://storage.googleapis.com/`, the bucket, `/`, then the object name |
| UploadRoute.Bucket.constructor | app/api/upload/route.ts:32 | A bucket starts empty with no public objects |
| UploadRoute.Post | app/api/upload/route.ts:6-54 | 401 for a missing, malformed or rejected token; 400 with no write when no file is sent. Otherwise the file is saved under its object name, made public, and its public URL returned |
| PageFlow.Render | app/login/page.tsx:51-53 | A logged-in user gets a blank page; otherwise the form with the current error |
| SignupPage.PasswordStrength | app/signup/page.tsx:28-33 | Empty: 0 and no label; 1–5 characters: 33 Weak; 6–9: 66 Medium; 10 or more: 100 Strong |
| SignupPage.StrengthMonotone | app/signup/page.tsx:28-33 | A longer password never rates lower |
| SignupPage.Validate | app/signup/page.tsx:42-58 | An empty field is reported first, then a mismatched confirmation, then a short password; it passes exactly when all fields are filled, they match and the password has at least 6 characters |
| SignupPage.Submit | app/signup/page.tsx:42-61 | `signup` is called, with the name, email and password, exactly when validation passes; otherwise the first failure's message is shown |
| SignupPage.AcceptedNeverWeak | app/signup/page.tsx:30-61 | A password passed to `signup` always rates Medium or Strong, never Weak |
| SignupPage.AfterSignup | app/signup/page.tsx:60-71 | Success goes to `/dashboard`; a failure shows the returned error or the sign-up fallback; a throw shows the retry message |
| LoginPage.Submit | app/login/page.tsx:31-35 | `login` is called exactly when both fields are filled; otherwise "Please fill in all fields" |
| LoginPage.AfterLogin | app/login/page.tsx:37-48 | Navigates to `/dashboard` exactly when `login` resolved true; false shows "Invalid email or password"; a throw shows the retry message |
| LoginPage.DashboardNeedsFilledFields | app/login/page.tsx:31-43 | Reaching the dashboard implies both fields were filled and `login` succeeded |
| WorkingDays.Toggle | app/create-gym/page.tsx:39-43 | Flips the day's membership and leaves every other day's alone; an absent day is appended at the end, a present one has every occurrence removed |
| WorkingDays.ToggleTwiceRestores | app/create-gym/page.tsx:39-43 | Toggling an unselected day twice restores the list exactly |
| WorkingDays.ToggleNoDup | app/create-gym/page.tsx:39-43 | Toggling keeps a duplicate-free list duplicate-free |
| WorkingDays.ToggleCount | app/dashboard/settings/page.tsx:59-66 | On a duplicate-free list, a toggle changes the length by exactly one |
| WorkingDays.ToggleAllNoDup | app/create-gym/page.tsx:23-43 | From a duplicate-free start such as `[]`, any sequence of clicks leaves a duplicate-free list |
| WorkingDays.ToggleAllWithin | app/create-gym/page.tsx:10-43 | Clicking only week days never selects anything else |
| WorkingDays.ToggleAllHas | app/create-gym/page.tsx:39-43 | After a sequence of clicks, a day is selected exactly when it was selected before and clicked an even number of times, or unselected before and clicked an odd number of times |
| WorkingDays.ClicksLeaveNoDays | app/create-gym/page.tsx:23-43 | Starting from no days, the selection is empty exactly when every day was clicked an even number of times |
| WorkingDays.ClicksSelectWeekDays | app/create-gym/page.tsx:10-43 | From `[]`, clicks on the day buttons select distinct week days, at most seven |
| CreateGymPage.Validate | app/create-gym/page.tsx:49-54 | The form may be sent exactly when name, address and contact number are filled and a day is chosen; otherwise the fixed message is shown |
| CreateGymPage.Payload | app/create-gym/page.tsx:62 | The payload is the form's fields plus `workingDays` |
| CreateGymPage.CreatedGymMatchesForm | app/create-gym/page.tsx:62 | The payload always carries every field the route stores, and the gym the route creates from it holds exactly the entered fields and days, with the owner as sole member |
| CreateGymPage.PostsAfterClicks | app/create-gym/page.tsx:39-54 | Starting from no days, the form is posted exactly when name, address and contact number are filled in and some day was clicked an odd number of times |
| CreateGymPage.AfterCreate | app/create-gym/page.tsx:78-128 | Success, or a message saying the caller already has a gym, goes to the dashboard; otherwise the server message or the fallback is shown |
| CreateGymPage.AlreadyHasGymGoesToDashboard | app/create-gym/page.tsx:93-123 | The route's "already owns or belongs to a gym" refusal sends the page to the dashboard |
| SettingsPage.LoadForm | app/dashboard/settings/page.tsx:47-52 | Missing name, address or contact number load as `''`; missing working days load as `[]` |
| SettingsPage.ToggleDay | app/dashboard/settings/page.tsx:59-66 | Only `workingDays` changes, and only in the clicked day's membership |
| SettingsPage.CaptionFollowsClicks | app/dashboard/settings/page.tsx:59-154 | On a duplicate-free list, each click moves the "days selected" number by exactly one |
| SettingsPage.LoadsWhatWasCreated | app/dashboard/settings/page.tsx:47-52 | A gym with all four fields loads into the form unchanged |
| ExercisesPage.NumberField | app/dashboard/exercises/page.tsx:124-127 | Empty text is sent as `null`; a number is sent exactly when the text starts with a digit, and it is `parseInt` of the text |
| ExercisesPage.ListField | app/dashboard/exercises/page.tsx:128-129 | Empty text gives `[]`; otherwise there is one piece per comma plus one, each the trimmed text between commas, trimmed and comma-free |
| ExercisesPage.ListFieldOfJoined | app/dashboard/exercises/page.tsx:128-129 | Names without commas or outer spaces, joined with commas, split back to the same names |
| ExercisesPage.Strings | app/dashboard/exercises/page.tsx:128-129 | A list of strings is sent as a JSON array of the same strings in order |
| ExercisesPage.ChosenImage | app/dashboard/exercises/page.tsx:111-117 | The uploaded URL replaces the form's `imageUrl` only when it is truthy |
| ExercisesPage.ExerciseData | app/dashboard/exercises/page.tsx:121-130 | The payload keeps the text fields, converts the four numbers, splits the two lists, and holds the chosen image |
| ExercisesPage.ToJson | app/dashboard/exercises/page.tsx:121-139 | The sent object has exactly the twelve form keys, with no `exerciseId`, `createdAt` or `createdBy`; each text field is sent as a JSON string, each number as parsed, and each list as an array of its strings in order |
| ExercisesPage.PageExerciseGetsDocId | app/dashboard/exercises/page.tsx:121-139 | For any payload the page sends, the route's answer carries the new document id, the sent fields unchanged, and the caller as `createdBy` |
| ExercisesPage.AfterAdd | app/dashboard/exercises/page.tsx:141-159 | After a successful add the form equals its initial value and the modal and image are cleared; a failure changes nothing |
| ExercisesPage.FailureAlert | app/dashboard/exercises/page.tsx:162 | The alert shows the server's message, or the non-empty fallback |
| ExercisesPage.CategoryCount | app/dashboard/exercises/page.tsx:250 | A category count never exceeds the total |
| ExercisesPage.CategoryCountsWithinTotal | app/dashboard/exercises/page.tsx:236-278 | The Strength, Cardio and Flexibility counts sum to at most the total |
| AuthContext.SignupErrorMessage | app/context/AuthContext.tsx:120-130 | The three known error codes map to their messages; any other code maps to "An error occurred during signup." |
| AuthContext.SignupMessagesDistinct | app/context/AuthContext.tsx:122-129 | Each known code has a non-empty message that no other code shares |
| AuthContext.AuthProvider.constructor | app/context/AuthContext.tsx:39-71 | The provider starts with no user, loading |
| AuthContext.AuthProvider.Signup | app/context/AuthContext.tsx:87-132 | Success exactly when the account is created and the profile registered. A refused profile deletes the new account and reports "Failed to create user profile". A creation error reports its message. Every failure carries a non-empty error |
| AuthContext.AuthProvider.OnAuthStateChanged | app/context/AuthContext.tsx:39-71 | Sign-out clears the user and removes both stored keys. A sign-in whose profile loads sets the user and stores the token. Loading always ends |
| AuthContext.UseAuth | app/context/AuthContext.tsx:155-161 | The context is returned exactly when a provider is present; otherwise the guard's error |
| InputComponent.Hyphenate | app/components/Input.tsx:17 | The result has no white space, is no longer than the input, and is the input itself when the input has no white space |
| InputComponent.HyphenateWord | app/components/Input.tsx:17 | A word without white space passes through unchanged, whatever follows it |
| InputComponent.HyphenateRun | app/components/Input.tsx:17 | A whole run of white space, of any length, becomes a single `-` before the rest |
| InputComponent.HyphenateWordThenRun | app/components/Input.tsx:17 | A word, a white-space run and text starting with no white space become the word, one `-`, and the hyphenated text |
| InputComponent.HyphenateJoin | app/components/Input.tsx:17 | Non-empty words without white space joined by single spaces come out joined by `-` |
| InputComponent.Slug | app/components/Input.tsx:17 | A derived id is the label lower-cased and then hyphenated; it has no white space and no upper-case letter, and is no longer than the label |
| InputComponent.LowerJoin | app/components/Input.tsx:17 | Lower-casing words joined by spaces lower-cases each word |
| InputComponent.SlugOfWords | app/components/Input.tsx:17 | A label of words separated by single spaces gives its lower-cased words joined by `-` |
| InputComponent.InputId | app/components/Input.tsx:17 | A truthy `id` is used unchanged. Otherwise the id is the label's slug, or undefined without a label |
| InputComponent.DerivedIdShape | app/components/Input.tsx:17 | A label always yields an id without white space, no longer than the label |
| InputComponent.LowerOfNoUpper | app/components/Input.tsx:17 | Lower-casing text that has no upper-case letters changes nothing |
| InputComponent.SlugIdempotent | app/components/Input.tsx:17 | Using a derived id as a label gives the same id back |
| InputComponent.Render | app/components/Input.tsx:17-58 | The label renders exactly when a label is given, pointing at the input's id; the error text renders exactly when an error is given |
| Numbers.LeadingDigits | app/dashboard/exercises/page.tsx:124-127 | The result is the longest all-digit prefix of the text: a prefix of digits followed by a non-digit or the end |
| Numbers.ParseInt | app/dashboard/exercises/page.tsx:124-127 | `parseInt` gives `NaN` exactly when the text is empty or does not start with a digit; otherwise it gives the value of the leading digits |
| Numbers.LeadingDigitsStop | app/dashboard/exercises/page.tsx:124-127 | A digit run followed by a non-digit or the end is exactly the leading digits |
| Numbers.ParseIntStopsAtNonDigit | app/dashboard/exercises/page.tsx:124-127 | A written number followed by text that starts with a non-digit parses back as that number |
| Numbers.ToNumber | app/api/plans/route.ts:37 | `Number` of a digit string is a number exactly when every character is a digit |
| Numbers.ShowRoundTrip | app/api/plans/route.ts:37 | Both parsers read a written number back as itself |
| Numbers.ParsersAgreeOnDigits | app/dashboard/exercises/page.tsx:124-127 | On a non-empty digit string, `parseInt` and `Number` agree |
| Text.TrimStart | app/dashboard/exercises/page.tsx:128-129 | The result is a suffix of the input that does not start with white space, and everything dropped before it is white space |
| Text.TrimEnd | app/dashboard/exercises/page.tsx:128-129 | The result is a prefix of the input that does not end with white space, and everything dropped after it is white space |
| Text.Trim | app/dashboard/exercises/page.tsx:128-129 | The result is the input with its leading and then its trailing white space dropped; it has no outer white space, is no longer than the input, and draws its characters from the input |
| Text.TrimIsOuterStrip | app/dashboard/exercises/page.tsx:128-129 | The trimmed text is a slice of the input with only white space outside it |
| Text.TrimStartUnique | app/dashboard/exercises/page.tsx:128-129 | Dropping leading white space stops exactly at the first other character |
| Text.TrimEndUnique | app/dashboard/exercises/page.tsx:128-129 | Dropping trailing white space stops exactly after the last other character |
| Text.TrimUnique | app/dashboard/exercises/page.tsx:128-129 | Any slice that has only white space outside it and no outer white space of its own is the trimmed text |
| Text.TrimIdempotent | app/dashboard/exercises/page.tsx:128-129 | Trimming twice is trimming once |
| Text.SplitCount | app/dashboard/exercises/page.tsx:128-129 | `split` gives one piece more than the separator count |
| Text.SplitPieces | app/dashboard/exercises/page.tsx:128-129 | No piece contains the separator |
| Text.JoinSplit | app/dashboard/exercises/page.tsx:128-129 | Joining the pieces with the separator gives back the text |
| Text.SplitJoin | app/dashboard/exercises/page.tsx:128-129 | Splitting separator-free pieces joined with the separator gives back the pieces |
| Text.Lower | app/components/Input.tsx:17 | Lower-casing keeps the length and maps each character by itself |
| Lists.Without | app/create-gym/page.tsx:41 | `filter(d => d !== day)` keeps exactly the other elements, and shortens a list that held the day |
| Lists.WithoutAppended | app/create-gym/page.tsx:41 | Removing a just-appended new element gives back the list before |
| Lists.WithoutNoDup | app/create-gym/page.tsx:41 | Filtering keeps a duplicate-free list duplicate-free |
| Wrappers.OrElse | app/dashboard/settings/page.tsx:48-50 | `a \|\| b` is `a` when truthy, else `b`, and never empty when `b` is not |

## Left out

- Firestore, Firebase Auth, Firebase Storage and the AWS clients are not modelled as code. The
  store is `DocStore.Store` and token verification is the parameter `verify`. A failing store
  call, a failing `req.json()` or `formData()`, and every other path into a handler's `catch`
  except the rejected token and the refused `undefined` field are left out. The error detail (`error.message`) in a 500 body is
  left out too.
- The store is created without `ignoreUndefinedProperties` (lib/firebaseAdmin.ts:26), so it
  refuses to write a document with an `undefined` field, and the handler answers 500 with nothing
  written. An optional field that is `None` stands for a field that was not sent. This refusal is
  modelled in `GymRoute.Post`, `GymsRoute.Post`, `RegisterRoute.Post` and `GymMembersRoute.Post`.
  A JSON `null`, which the store would write, is not told apart from a missing field.
- Clock reads (`new Date().toISOString()`, `Date.now()`) and generated document ids are
  parameters. A method's `requires` says the generated id is new, which the store guarantees.
- Listing order is modelled as store order, with new documents appended. Firestore promises no
  such order.
- The `Promise.all` fan-out in `GET /api/gyms` is modelled as a sequential map. A failure to read
  one member profile, which drops that member, is not modelled. The read-then-update race on
  `members` between concurrent requests is not modelled: every handler runs alone.
- `GymsMembersRoute.Post` and `GymMembersRoute.Post`: when several profiles hold the same code,
  the store's pick (`limit(1)`) is left open (any holder may be chosen).
- Two roots of the store are kept apart. One is `App_user` profiles. The other is the gyms under
  the `App_user/gyms` document. The model does not treat `App_user/gyms` itself as a profile.
- `GymExercisesRoute.Post`: the promise "the response's `exerciseId` is the new document id" is
  stated only for bodies without their own `exerciseId`. The handler spreads the body after the
  id, so a body field wins. `BodyExerciseIdWins` shows this, and `PageExerciseGetsDocId` shows
  that the app's own page never sends that field.
- `PlansRoute.NewPlan`: the price is modelled as the text the client sends, with `Number` of a
  digit string, and anything else becomes `NaN`, shown as `None`. A JSON number price (where `0`
  is falsy), signs, decimals, exponents and surrounding white space are not modelled.
- `ExercisesPage.NumberField`: `parseInt` is modelled on unsigned leading decimal digits only.
  Leading white space, signs and hexadecimal prefixes are not modelled.
- JavaScript strings count UTF-16 code units, and `\s`, `trim()` and `toLowerCase()` follow
  Unicode. The model counts characters and uses ASCII white space and letters. The upload regex is
  likewise applied per character.
- Page side effects are not modelled. These include:
  - React rendering and routing;
  - the create-gym page's `gym_user` update in `localStorage`, and its re-fetch of `/api/gyms`
    before redirecting;
  - the settings page's simulated save (`setTimeout`);
  - the `FileReader` preview.
  The upload's `data.url || data.fileUrl` is folded into the `uploaded` parameter of
  `ExercisesPage.ExerciseData`.
- The auth context's `login` and `logout` are thin calls into Firebase and are not modelled.
  `createGym` is a placeholder that returns `true` and is not modelled either. The user object the
  context stores is the `/api/auth/me` view plus the token (`AuthContext.ClientUser`).
- `AuthContext.AuthProvider.Signup`: when the register request throws, the new account stays in
  place and the generic sign-up error is returned. This is modelled as written.
- Nutrition-window averaging, the weekly workout schedule and exercise `order` renumbering live in
  files outside this model.
