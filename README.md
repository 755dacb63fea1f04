# A social posting app's account and post rules, in Dafny

The app is a small social site. A React client talks to a GraphQL server backed by MongoDB, and a
Firebase project handles sign-in. This project models the parts of it that decide things:

- **Password rules.** The five validators run on every keystroke: a lower-case letter, an
  upper-case letter, a digit, a special character, and a length strictly between 8 and 128.
  The `for … in` fold turns the validator record into `isPasswordValid`.
- **Auth form.** The shared form's Submit-button expression, with the operator grouping it
  actually has, plus its labels and disabled inputs.
- **Account pages.** Password update, password reset and the old complete-registration page are
  modelled as objects whose fields are the page state. Their change handlers and submit handlers
  update those fields. Every Firebase call is an input that says how the call ended.
- **Client auth state.** The reducer behind `dispatch`, and what a run of dispatches leaves in
  the state.
- **Post pages.** The pagination strip, the profile-image uploader, and the create-post and
  edit-post forms.
- **Server.** The hard-coded token guard, the in-memory post resolvers, the user resolvers'
  find-or-create, and the defaults and required fields of the Mongoose post and user schemas.

Each module stands for one source file, with two exceptions. `PasswordValidity` stands for the
`isPasswordValid` loop that the reset, update and registration pages each repeat. `Common` holds
what several files share: the option and result types, the sample image both sides fall back on,
JavaScript truthiness of an optional string (`Filled`), the `getItem(key) || ''` read of local
storage, and the required-field message of the document mapper.

## Model

| member | source | states |
|---|---|---|
| Common.StoredOrEmpty | client/src/pages/auth/PasswordReset.tsx:44 | the stored string for the key, or "" when the key is absent |
| PasswordValidation.Matches | client/src/pages/auth/passwordValidation.tsx:22-28 | a lookahead search for a character class succeeds exactly when some character of the password is in that class |
| PasswordValidation.Validate | client/src/pages/auth/passwordValidation.tsx:14-33 | each of the five flags holds exactly when its rule holds: some a-z, some A-Z, some 0-9, some of the 28 special characters, length in 9..127 |
| PasswordValidation.PasswordValidation | client/src/pages/auth/passwordValidation.tsx:14-33 | starting from five false flags and switching each on by its own test yields the rule-by-rule record |
| PasswordValidation.EmptyMeetsNoRule | client/src/pages/auth/passwordValidation.tsx:15-21 | the empty password gets the all-false record the pages start from |
| PasswordValidation.LengthWindow | client/src/pages/auth/passwordValidation.tsx:30 | the length window is open at both ends: 8 fails, 9 to 127 pass, 128 and more fail |
| PasswordValidation.SpecialCharExamples | client/src/pages/auth/passwordValidation.tsx:28 | `#`, `"` and space are not special characters; `-` and `\` are |
| PasswordValidation.AppendKeepsClassRules | client/src/pages/auth/passwordValidation.tsx:22-28 | typing more characters never takes a character-class rule away |
| PasswordValidation.AppendCanLoseLength | client/src/pages/auth/passwordValidation.tsx:30 | one more character can take the length rule away (127 pass, 128 fail) |
| PasswordValidity.Entries | client/src/pages/auth/PasswordUpdate.tsx:28-34 | the record's five values in key-creation order, lower-case first and length last, which is the order the loop visits them |
| PasswordValidity.IsPasswordValid | client/src/pages/auth/PasswordUpdate.tsx:43-51 | the loop with `break` yields true exactly when the record has entries and every entry is true |
| PasswordValidity.AllValidIffEveryFlag | client/src/pages/auth/PasswordReset.tsx:53-62 | the fold accepts exactly the record with all five flags set |
| PasswordValidity.InitiallyInvalid | client/src/pages/auth/PasswordUpdate.tsx:28-51 | with the initial all-false record the password is invalid |
| PasswordValidity.ValidPasswordMeansAllRules | client/src/pages/auth/OldCompleteRegistration.tsx:77-85 | a password passes the fold exactly when it has all four character classes and 9 to 127 characters |
| AuthForm.SubmitDisabled | client/src/components/forms/AuthForm.tsx:243-251 | with an email field, disabled iff the email is falsy; else if loading or a password field, iff the password is falsy; else if validation is shown, iff the password is not valid or there is no confirmation; else enabled |
| AuthForm.EmailFieldMasksEverythingElse | client/src/components/forms/AuthForm.tsx:243-245 | with an email field, two prop sets with the same email disable Submit alike, whatever else differs |
| AuthForm.LoadingFormWithEmailStaysEnabled | client/src/components/forms/AuthForm.tsx:243-251 | a loading form with an email, an empty password and an invalid password still has Submit enabled |
| AuthForm.LoadingWithoutPasswordFieldDisables | client/src/components/forms/AuthForm.tsx:246-247 | without an email field, loading makes the undefined password decide, which disables Submit |
| AuthForm.EmailInputDisabled | client/src/components/forms/AuthForm.tsx:135 | the email input is enabled iff not loading and no non-empty reset address is stored |
| AuthForm.ShowsForgotPasswordLink | client/src/components/forms/AuthForm.tsx:235-239 | the forgot-password link shows iff the prop is true; absent defaults to hidden |
| AuthForm.PasswordInputText | client/src/components/forms/AuthForm.tsx:159-168 | the label reads "New Password" and the placeholder "Enter New Password" exactly when validation is shown; otherwise "Password" and "Enter Password" |
| AuthContext.FirebaseReducer | client/src/context/authContext.tsx:21-28 | a login installs the payload's user; any other action leaves the state unchanged |
| AuthContext.InitialUserIsEmpty | client/src/context/authContext.tsx:31-33 | the initial user is the empty name |
| AuthContext.LoginIsIdempotent | client/src/context/authContext.tsx:23-24 | dispatching the same action twice equals dispatching it once |
| AuthContext.NavLogoutIsOutsideDomain | client/src/components/Nav.tsx:14-20 | the navigation bar's logout sends a login action with a null payload, which the reducer cannot handle |
| AuthContext.DispatchSnoc | client/src/context/authContext.tsx:21-28 | dispatching one more action reduces the state the earlier dispatches left |
| AuthContext.DispatchKeepsLatestLogin | client/src/context/authContext.tsx:21-28 | after any run of dispatches the state holds the latest login's user, or the starting user if none |
| PasswordUpdate.HasPasswordProvider | client/src/pages/auth/PasswordUpdate.tsx:13-17 | the scan finds a provider iff some entry's id is "password" |
| PasswordUpdate.PasswordUpdatePage.constructor | client/src/pages/auth/PasswordUpdate.tsx:8-34 | empty passwords, not loading, no password login, all-false validators |
| PasswordUpdate.PasswordUpdatePage.DetectPasswordLogin | client/src/pages/auth/PasswordUpdate.tsx:13-17 | the flag becomes set when a password provider is present and is never cleared |
| PasswordUpdate.PasswordUpdatePage.OnOldPasswordChange | client/src/pages/auth/PasswordUpdate.tsx:19-21 | only the old password changes |
| PasswordUpdate.PasswordUpdatePage.OnNewPasswordChange | client/src/pages/auth/PasswordUpdate.tsx:37-40 | the new password and its freshly computed validators change, nothing else |
| PasswordUpdate.PasswordUpdatePage.ButtonDisabled | client/src/pages/auth/PasswordUpdate.tsx:161 | Submit is enabled iff not loading, both passwords are non-empty and every rule is met |
| PasswordUpdate.PasswordUpdatePage.HandleSubmit | client/src/pages/auth/PasswordUpdate.tsx:53-93 | refusal iff the guard fails; otherwise nothing happens iff there is no password login or no email; a wrong old password clears it; the new password is handed to the update iff the guard passes, the login is a password login, there is an email and reauthentication succeeds, and it always meets every rule; success and failure of the update each clear both fields |
| PasswordUpdate.FreshPageCannotSubmit | client/src/pages/auth/PasswordUpdate.tsx:28-51 | a fresh page's button is disabled |
| PasswordUpdate.EnabledButtonMeansRulesMet | client/src/pages/auth/PasswordUpdate.tsx:161 | an enabled button means the new password meets all five rules |
| PasswordReset.ClassifyError | client/src/pages/auth/PasswordReset.tsx:113-123 | the expired-link and invalid-email codes are told apart from every other code |
| PasswordReset.ErrorRedirect | client/src/pages/auth/PasswordReset.tsx:114-118 | only an expired link redirects, to the forgot-password page |
| PasswordReset.FirstError | client/src/pages/auth/PasswordReset.tsx:79-111 | the handler sees an error iff one of the four awaited steps threw, and it is the code of the first one in order: sign-in, then password update, then ID-token retrieval, then the user mutation |
| PasswordReset.PasswordResetPage.constructor | client/src/pages/auth/PasswordReset.tsx:22-45 | the email comes from the stored reset address or is empty; empty password; all-false validators |
| PasswordReset.PasswordResetPage.OnEmailChange | client/src/pages/auth/PasswordReset.tsx:64-66 | only the email changes |
| PasswordReset.PasswordResetPage.OnPasswordChange | client/src/pages/auth/PasswordReset.tsx:48-51 | the password and its freshly computed validators change, nothing else |
| PasswordReset.PasswordResetPage.FormProps | client/src/pages/auth/PasswordReset.tsx:139-151 | the form shows email, password and validation with the page's values, and gets no confirmation password and no forgot-password flag |
| PasswordReset.PasswordResetPage.HandleSubmit | client/src/pages/auth/PasswordReset.tsx:68-134 | refusal iff the guard fails; invalid link redirects to login; a failure is classified by the first error, with the stored address removed once sign-in succeeded and the login dispatched only when the password update and the ID-token retrieval both succeeded; success removes the address, logs in and redirects to the profile |
| PasswordReset.SubmitGatedByEmailOnly | client/src/pages/auth/PasswordReset.tsx:139-151 | on this page Submit is disabled iff the email is empty |
| PasswordReset.EnabledButtonCanFailGuard | client/src/pages/auth/PasswordReset.tsx:72-75 | an enabled button can still meet the handler's refusal (empty password) |
| OldCompleteRegistration.RegistrationPage.constructor | client/src/pages/auth/OldCompleteRegistration.tsx:11-29 | the email comes from the stored sign-in address or is empty; empty password; not loading |
| OldCompleteRegistration.RegistrationPage.OnEmailChange | client/src/pages/auth/OldCompleteRegistration.tsx:98 | only the email changes |
| OldCompleteRegistration.RegistrationPage.OnPasswordChange | client/src/pages/auth/OldCompleteRegistration.tsx:31-34 | the password and its freshly computed validators change, nothing else |
| OldCompleteRegistration.RegistrationPage.ButtonDisabled | client/src/pages/auth/OldCompleteRegistration.tsx:143 | Submit is enabled iff email and password are non-empty, not loading and every rule is met |
| OldCompleteRegistration.RegistrationPage.EmailInputDisabled | client/src/pages/auth/OldCompleteRegistration.tsx:101 | the email input is enabled iff not loading and no non-empty registration address is stored |
| OldCompleteRegistration.RegistrationPage.HandleSubmit | client/src/pages/auth/OldCompleteRegistration.tsx:36-75 | refusal iff email or password is empty (the rules are not rechecked); failure iff sign-in throws or a verified new user's password update or ID-token retrieval throws, and failures clear loading; a verified new user gets the password set, is logged in and sent home; an existing user and an unverified user each leave everything but loading untouched; only the registration key is ever removed, so the sign-in key the address came from survives |
| OldCompleteRegistration.EnabledButtonMeansRulesMet | client/src/pages/auth/OldCompleteRegistration.tsx:143 | an enabled button means a non-empty email and a password meeting every rule |
| PostPagination.TotalPages | client/src/components/PostPagination.tsx:17 | the page count is the least count whose pages of four hold every post |
| PostPagination.TotalPagesExamples | client/src/components/PostPagination.tsx:17 | 10 posts give 3 pages, 0 give 0, 4 give 1, 5 give 2 |
| PostPagination.Pagination | client/src/components/PostPagination.tsx:19-37 | the count is clamped to 10; buttons are numbered 1..count, and a button is highlighted iff it is the current page |
| PostPagination.Prev | client/src/components/PostPagination.tsx:44-49 | any page other than 1 moves down one; page 1 stays |
| PostPagination.Next | client/src/components/PostPagination.tsx:60-65 | any page other than the clamped last one moves up one; the last page stays |
| PostPagination.Render | client/src/components/PostPagination.tsx:16-37 | one render yields the clamped page count and exactly that many numbered buttons |
| PostPagination.HighlightIsUnique | client/src/components/PostPagination.tsx:26-28 | at most one button is highlighted, and one is exactly when the page lies on the strip |
| PostPagination.PrevStopsAtOne | client/src/components/PostPagination.tsx:44-49 | repeated Prev from a page at or above 1 walks down one per press and stops at 1 |
| PostPagination.NextStaysWithin | client/src/components/PostPagination.tsx:60-65 | repeated Next from a page at or below the last never passes the last page |
| PostPagination.EmptyFeedNextRunsAway | client/src/components/PostPagination.tsx:60-65 | with no posts the last page is 0, so Next from page 1 or higher climbs without bound |
| PostPagination.StripIsClosed | client/src/components/PostPagination.tsx:17-65 | with posts, Prev and Next keep a page on the strip 1..min(pages, 10) |
| FileUpload.WithUploaded | client/src/components/FileUpload.tsx:53-59 | the list sent keeps every existing image in order and adds the upload last |
| FileUpload.WithoutPublicId | client/src/components/FileUpload.tsx:96-98 | an image is in the list sent iff it was in the list and has another public id |
| FileUpload.WithoutPublicIdAppend | client/src/components/FileUpload.tsx:96-98 | the filter keeps order: it distributes over concatenation |
| FileUpload.WithoutAbsentIdIsIdentity | client/src/components/FileUpload.tsx:96-107 | removing an id no image has sends the list unchanged |
| FileUpload.WithoutPublicIdIdempotent | client/src/components/FileUpload.tsx:96-98 | removing twice is removing once |
| FileUpload.ImageUploader.constructor | client/src/components/FileUpload.tsx:13-22 | the uploader holds the parent's loading flag and images |
| FileUpload.ImageUploader.FileResizeAndUpload | client/src/components/FileUpload.tsx:26-78 | nothing happens without a file; a resizer failure leaves loading set; a failed upload sends nothing; a successful upload sends the images plus the new one; the images shown do not change |
| FileUpload.ImageUploader.HandleImageRemove | client/src/components/FileUpload.tsx:80-116 | a failed removal sends nothing; a successful one sends the images without that public id; loading ends cleared |
| PostPage.CreateInput | client/src/pages/post/Post.tsx:44 | the create input keeps the typed content and carries the uploaded image |
| PostPage.CreatePostForm.constructor | client/src/pages/post/Post.tsx:10-21 | empty content with the sample image, no pending image, not loading |
| PostPage.CreatePostForm.HandleChange | client/src/pages/post/Post.tsx:56-59 | only the content changes, and it stays within 150 characters |
| PostPage.CreatePostForm.HandleImageChange | client/src/pages/post/Post.tsx:61-84 | only a string URI from the resizer replaces the pending image |
| PostPage.CreatePostForm.SubmitDisabled | client/src/pages/post/Post.tsx:100 | Post is enabled iff not loading and the content is non-empty |
| PostPage.CreatePostForm.HandleSubmit | client/src/pages/post/Post.tsx:30-54 | the pending URI is always uploaded; on upload success the values with the upload's image are sent; on creation success the form resets; otherwise the form is kept; loading ends cleared |
| PostUpdate.UpdateInput | client/src/pages/post/PostUpdate.tsx:91-105 | the update keeps id and content; without a pending image it is the values unchanged, with one it carries the upload's image |
| PostUpdate.RemovesOldImage | client/src/pages/post/PostUpdate.tsx:107-118 | the old image is removed iff it is not the sample image |
| PostUpdate.Preview | client/src/pages/post/PostUpdate.tsx:159-165 | the preview shows the pending image if any, else the stored image |
| PostUpdate.UpdatePostForm.constructor | client/src/pages/post/PostUpdate.tsx:13-22 | empty id, content and image; no pending image; not loading |
| PostUpdate.UpdatePostForm.LoadPost | client/src/pages/post/PostUpdate.tsx:37-46 | the fetched post replaces the form's values, nothing else |
| PostUpdate.UpdatePostForm.HandleChange | client/src/pages/post/PostUpdate.tsx:81-85 | only the content changes |
| PostUpdate.UpdatePostForm.HandleImageChange | client/src/pages/post/PostUpdate.tsx:55-79 | only a string URI from the resizer replaces the pending image |
| PostUpdate.UpdatePostForm.ClearImage | client/src/pages/post/PostUpdate.tsx:192 | the close button clears the pending image only |
| PostUpdate.UpdatePostForm.SubmitDisabled | client/src/pages/post/PostUpdate.tsx:153 | Post is enabled iff not loading and the content is non-empty |
| PostUpdate.UpdatePostForm.HandleSubmit | client/src/pages/post/PostUpdate.tsx:87-135 | without a pending image the values are sent as they are; with one, the update is sent iff the upload succeeds and the old image is the sample or its removal succeeds; a non-sample old image is removed with the upload's image sent; success stores what was sent and clears the pending image |
| ServerAuth.AuthCheck | server/src/helpers/auth.ts:1-13 | the guard returns, calling `next` once, iff the header is exactly "secret"; otherwise it throws "Unauthorized" |
| ServerAuth.MissingTokenRefused | server/src/helpers/auth.ts:3 | a missing or empty header is refused |
| ServerAuth.NearMissRefused | server/src/helpers/auth.ts:5 | the comparison is exact: "secret " and "Secret" are refused |
| PostResolvers.NewPostObject | server/src/resolvers/post.ts:13-16 | the new object has the input's fields plus `id`; the input's fields win, and without one the id is the count plus one |
| PostResolvers.Append | server/src/resolvers/post.ts:10-19 | the array keeps its posts and gains the new object last |
| PostResolvers.SuccessiveIds | server/src/resolvers/post.ts:13-18 | posts added without their own id are numbered n+1, n+2, … after the n posts already there, which stay as they were |
| PostResolvers.PostStore.constructor | server/src/resolvers/post.ts:3 | the store starts with the given array |
| PostResolvers.PostStore.TotalPosts | server/src/resolvers/post.ts:6 | the count is the array's length |
| PostResolvers.PostStore.AllPosts | server/src/resolvers/post.ts:7 | every post, in insertion order |
| PostResolvers.PostStore.NewPost | server/src/resolvers/post.ts:10-20 | the array gains exactly the returned object; the count grows by one; the input's fields are kept and the default id is the old count plus one |
| PostModel.NewPost | server/src/models/post.ts:5-32 | a post is created iff content is non-empty, else the "Content is required" error; id, image URL and image public id each default on their own; both timestamps are the creation time |
| PostModel.TextOnlyPostGetsSampleImage | server/src/models/post.ts:15-25 | a post with text only gets the generated id and the whole sample image |
| PostModel.ImageDefaultsIndependent | server/src/models/post.ts:16-24 | giving only an image URL still defaults the public id to "sample" |
| UserModel.MissingRequired | server/src/models/user.ts:10-24 | a required-field error is reported for username iff it is falsy and for email iff it is falsy, and for no other path |
| UserModel.NewUser | server/src/models/user.ts:4-39 | a user is created iff username and email are non-empty; id and images default, name and about stay optional, timestamps are the creation time |
| UserModel.Save | server/src/models/user.ts:10-24 | saving succeeds iff no stored user shares the id, username or email, and then appends the user; otherwise it names a key that does conflict, checking id, then username, then email |
| UserModel.SaveKeepsCollectionValid | server/src/models/user.ts:10-24 | saving a well-formed user keeps every user well formed and the three keys unique |
| UserModel.NewUserIsWellFormed | server/src/models/user.ts:10-24 | a validated user has a non-empty username and email |
| UserResolvers.Me | server/src/resolvers/user.ts:6-9 | `me` answers "Ray" iff the guard passes, else fails with "Unauthorized" |
| UserResolvers.FindOneByEmail | server/src/resolvers/user.ts:16 | a found user is stored and has the email; nothing is found iff no stored user has it |
| UserResolvers.FindsNewlySaved | server/src/resolvers/user.ts:16-24 | a user saved last, with an email no other user has, is found by that email |
| UserResolvers.FindOrCreate | server/src/resolvers/user.ts:11-25 | a failed guard changes nothing; an existing user is returned unchanged; when none is found and the email is non-empty, free generated keys mean exactly the new user with those values, the sample image and the timestamp is returned and appended, and a taken generated id (checked first) or username means a duplicate-key error naming it with nothing saved; errors change nothing |
| UserResolvers.FindOrCreateKeepsValid | server/src/resolvers/user.ts:16-24 | the collection stays valid, keeps its users in place and grows by at most one |
| UserResolvers.SecondCallFindsFirst | server/src/resolvers/user.ts:16-24 | a second call with the same email saves nothing and returns the first call's user |
| UserResolvers.EmptyEmailIsRejected | server/src/resolvers/user.ts:16-24 | an empty email fails the required check and saves nothing |
| UserResolvers.UserCollection.constructor | server/src/models/user.ts:41 | the collection starts valid with the given users |
| UserResolvers.UserCollection.UserCreate | server/src/resolvers/user.ts:11-25 | the result and the new collection are those of the find-or-create, the collection stays valid, and an unknown non-empty email with free generated keys appends exactly the new user |

## Left out

- Firebase calls: sign-in, reauthentication, password update, token retrieval and provider data. Their outcomes (whether each threw, and the token's session) are method inputs, and the Firebase client is not part of this model.
- Network calls: axios to the upload and remove endpoints, and the GraphQL mutations and queries. Their outcomes are inputs too.
- Image resizing, toasts, console output and the 5-second `setTimeout` before navigation. Only the route that is scheduled is recorded.
- React rendering and batching. Each handler runs to completion as one step, and effects run when their method is called.
- Concurrent submissions and handlers that interleave across `await` are not modelled.
- The requirement checklist the forms render, including the `passwordsMatch` entry that nothing sets, is markup only.
- Lengths count characters. JavaScript's `length` counts UTF-16 code units, so the two differ for characters outside the Basic Multilingual Plane.
- PostPagination.TotalPages: does not model a missing `postCount`, which makes the count `NaN` and renders no buttons. The count is taken as a natural number.
- The `disabled` class on the Prev and Next buttons is a CSS class name and does not disable them. It is not modelled.
- The feed, single-post, profile, search and subscription pages and queries are not part of this model.
- AuthContext: the declared state type says `user` is a string. The pages dispatch an object with email and token, so `AuthUser` holds either.
- AuthContext.FirebaseReducer: requires a non-null payload for a login action, because the reducer throws on one. The navigation bar's logout sends exactly such an action (see `NavLogoutIsOutsideDomain`).
- UserResolvers.FindOrCreate: takes the principal's email as an input. The guard returns nothing, so `currentUser.email` would itself throw; the model follows the evident intent of looking up the signed-in user's email.
- UserResolvers.FindOrCreate: `nanoid`, the generated id and the timestamp are parameters, not generated values.
- `findOne` is taken to return the first matching user in insertion order. Index build timing and races between two saves are not modelled.
- Only per-path errors are modelled for a failed Mongoose validation, not the aggregated message text.
- `server/src/resolvers/auth.ts` repeats `me`, and `UserResolvers.Me` stands for both.
- PostResolvers.PostStore.AllPosts: returns the array's value. The resolver hands out the live array, so a caller could alias it.
- The initial contents of the shared posts array are arbitrary.
- PostPage.CreatePostForm.HandleChange and PostUpdate.UpdatePostForm.HandleChange: model the field named `content` only, which is the only named input on both forms.
- PostPage.CreatePostForm.HandleChange: requires at most 150 characters, because the text area's `maxLength` caps what the browser passes. The server schema itself only requires non-empty content.
- Prev and Next compare with `!==`, not `<` or `>`. So an empty feed lets Next climb past the last page (see `EmptyFeedNextRunsAway`).
- The password-length rule is `8 < length < 128`, although the pages' checklist says "between 8 and 32". The model follows the code.
