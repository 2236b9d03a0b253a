# MyPortfolify core in Dafny

MyPortfolify lets a developer register, verify an e-mail address, log in
(with a password or with Google), pick a public username and keep a
portfolio: a nested profile (name, bio, links, skills, education, work
experience), a list of projects and a choice of page layout ("template").
Visitors read the portfolio at `/<username>`.

This project models the core of that system as pure functions over
immutable data and proves properties of them:

- `Accounts` / `AccountProperties` — the account lifecycle of the Express
  server (register, verify-email, login, forgot/reset password, resend
  verification, Google find-or-create) over a user collection kept in
  natural order, so a lookup is "the first match". The store invariant
  (unique e-mails and ids, no token held twice, per-user consistency) is
  proved preserved by every route; single-use tokens, the strict one-hour
  reset window and the login error order are proved.
- `Session` — the `authenticateJWT` middleware and the `/check-auth`
  endpoint, with signature checking as an oracle.
- `Profiles` / `ProfileProperties` — the profile document store:
  username check, profile creation, reads, the nested-profile and template
  updates, and the embedded project list (append, shallow merge by id,
  filter by id). Unique usernames and unique project ids are proved
  preserved; add-then-delete restores the store.
- `Portfolio` — the shared records (project, patch, profile info) and the
  shallow `{...a, ...b}` merge.
- `Showcase` — the public Professional layout's category chips, technology
  chips, the project filter, the tech toggle, "reset filters" and the
  display-name fallback.
- `Routes` — the client's public-profile path classification and navbar
  hiding.
- `ProjectForm`, `ProfileForm`, `ProjectList` — the dashboard's editors:
  tag editor, field handlers, list add/remove, edit-form parsing and the
  local overlay after an edit.
- `Dashboard` — the dashboard page: response classification of its API
  helper, profile normalisation, the list reducers and their project
  counter, username setup, profile creation flow and view precedence.
- `Templates` — the template selector (catalogue, click guard, apply
  button, apply round trip through the middleware) and the public page's
  layout dispatch.
- `Seqs`, `Text`, `Wrappers` — the JavaScript built-ins the code relies on
  (`filter`, `findIndex`, `[...new Set(..)]`, `flatMap`, `splice(i, 1)`,
  `trim`, `split`, `join`, `startsWith`, `includes`, `toLowerCase`, `x || ''`)
  as sequence functions.

Outside the model and passed in as parameters: the clock (`now`, in
milliseconds), freshly generated random tokens and object ids, the bcrypt
hash (a `digest`) and comparison (`matches`), JWT verification (`verify`,
yielding the claims of a well-signed unexpired token), whether an outgoing
e-mail was delivered (`mailOk`), and the HTTP status of client requests.

Where the repository's written description and the code differ, the model
follows the code:

- a reset request with an expired token is refused with 400 but the stale
  token and expiry are left in place (Backend/index.js:361-366);
- nothing stops one account from creating several profiles: only the
  username is checked (Backend/index.js:479-482);
- a successful registration replies with the whole created user document
  (Backend/index.js:222);
- when the e-mail cannot be sent, the store write that preceded it is kept
  and the reply is 500 (Backend/index.js:188-224, 303-352, 398-430).

## Model

| member | source | states |
|---|---|---|
| Portfolio.Merge | Backend/index.js:623-626 | every field of the merged project is the body's value when the body has that key and the stored value otherwise |
| Portfolio.MergeLaws | Backend/index.js:623-626 | merging an empty body changes nothing, and merging the same body twice is the same as merging it once |
| Portfolio.MergeFullPatch | Frontend/src/dashboard/ProjectList.jsx:37 | a body that carries every field of `q` turns any project into `q` |
| Portfolio.SafeArray | Frontend/src/public/ProfessionalTemplate.jsx:16 | an array value is used as is and anything else reads as the empty list |
| Accounts.Register | Backend/index.js:172-226 | a known e-mail gives 400 "User already exists" with the store unchanged; otherwise exactly one unverified user with a hashed password, the fresh verification token, no reset token and a zero login count is appended, and no session token is ever issued |
| Accounts.VerifyEmail | Backend/index.js:228-241 | with no holder of the token the reply is 400 and nothing changes; otherwise the first holder becomes verified with its token cleared, no other user changes, and the reply redirects to `/login?verified=true` |
| Accounts.Login | Backend/index.js:243-274 | the errors come in order: unknown e-mail 401, wrong password 401, unverified 403, each with the store unchanged; on success only that user's `lastLogin` and `loginCount + 1` change and the public fields plus a token for its id and e-mail are returned |
| Accounts.ForgotPassword | Backend/index.js:289-354 | unknown e-mail gives 404 with no change; otherwise only that user's reset token and expiry (`now + 3600000`) change, and the reply depends on mail delivery |
| Accounts.ResetPassword | Backend/index.js:356-377 | with no user holding the token with an expiry strictly after `now` the reply is 400 and nothing changes; otherwise one such user gets the new hash with token and expiry cleared, and nobody else changes |
| Accounts.ResendVerification | Backend/index.js:379-432 | errors in order: empty e-mail 400, unknown 404, already verified 400; otherwise only that user's verification token is replaced and it stays unverified |
| Accounts.GoogleSignIn | Backend/index.js:146-153 | a known e-mail signs in the stored user unchanged; a new one appends a verified user with the Google placeholder secret; the token always carries the given e-mail |
| AccountProperties.RegisterKeepsValid | Backend/index.js:175-185 | registration with a fresh token and id preserves the store invariant (unique e-mails and ids, no token held twice, verified users hold no verification token, reset token and expiry set together) |
| AccountProperties.VerifyEmailKeepsValid | Backend/index.js:231-236 | verification preserves the store invariant |
| AccountProperties.LoginKeepsValid | Backend/index.js:256-259 | a login preserves the store invariant |
| AccountProperties.ForgotPasswordKeepsValid | Backend/index.js:295-300 | a reset request with a fresh token preserves the store invariant |
| AccountProperties.ResetPasswordKeepsValid | Backend/index.js:361-371 | a password reset preserves the store invariant |
| AccountProperties.ResendKeepsValid | Backend/index.js:385-395 | re-sending verification with a fresh token preserves the store invariant |
| AccountProperties.GoogleKeepsValid | Backend/index.js:146-153 | Google find-or-create with a fresh id preserves the store invariant |
| AccountProperties.VerificationTokenSingleUse | Backend/index.js:231-236 | a held verification token succeeds once and the same token replayed is refused with 400 |
| AccountProperties.ResetTokenSingleUse | Backend/index.js:361-371 | a usable reset token succeeds once and is refused with 400 on any later attempt |
| AccountProperties.ResetWindowIsStrict | Backend/index.js:292-366 | a reset link issued at time `n` works exactly when the reset happens before `n + 3600000`, and is refused at that instant and after |
| AccountProperties.NewerResetTokenRevokesOlder | Backend/index.js:298-300 | after a second reset request for the same e-mail the first token is refused |
| AccountProperties.GooglePlaceholderNeverMatches | Backend/index.js:146-153 | an account created by Google sign-in is refused with "Invalid credentials" for every password |
| AccountProperties.RegisterVerifyLogin | Backend/index.js:243-261 | after registering, login is refused with 403; after verifying, the first login counts 1 and the second counts 2 with the later time recorded |
| Session.Authenticate | Backend/index.js:120-136 | an absent or empty header is exactly the 401 case; a pass means the header's second space-separated word is non-empty and verifies to the claims; a missing, empty or unverifiable second word is exactly the 403 case |
| Session.CheckAuth | Backend/index.js:435-453 | a header that is absent or does not start with "Bearer " is refused with that message; on a bearer header a missing or empty second word is exactly "Token missing" and an unverifiable one exactly "Invalid or expired token"; an authentic reply carries the claims the second word verifies to |
| Session.MiddlewareOnBearer | Backend/index.js:123-131 | for `Bearer <token>` with a space-free token the middleware passes, to its claims, exactly when the token is non-empty and verifies, and answers 403 otherwise |
| Session.CheckAuthAgreesWithMiddleware | Backend/index.js:435-453 | on a bearer header with a non-empty space-free token `/check-auth` accepts exactly when the middleware does, and an unverifiable token gives "Invalid or expired token" |
| Profiles.CheckUsername | Backend/index.js:459-471 | a missing or empty username is exactly the 400 case; otherwise the reply says whether some profile holds that username |
| Profiles.InitialInfo | Backend/index.js:489-503 | the new profile's name is the e-mail's text before the first '@', every other text field and each of the four social links is "", and every list is empty |
| Profiles.CreateProfile | Backend/index.js:474-510 | a taken username gives 400 "Username already taken" with no change; otherwise one document owned by the caller, with no projects, the initial profile and template "default", is appended and returned with 201 |
| Profiles.GetOwnProfile | Backend/index.js:513-523 | no profile of the caller gives 404; otherwise the reply is 200 with the first stored document the caller owns |
| Profiles.GetPublicProfile | Backend/index.js:574-584 | the reply is 404 exactly when no profile has the username; otherwise it is 200 with the first stored document with that username |
| Profiles.GetProfilePath | Backend/index.js:459-584 | a GET of "check-username" is refused with 400 "Username is required", one of "me" goes to the owner's route behind the middleware (401 without a header), and every other segment reaches the public handler |
| Profiles.CreateProfileReserving | Backend/index.js:474-482 | the intended create refuses a shadowed segment like a taken username and otherwise creates as written |
| ProfileProperties.ShadowedUsernameNeverServed | Backend/index.js:459-584 | as written, a free "me" or "check-username" can be claimed, and a visitor's GET of that name then fails |
| ProfileProperties.ReservingKeepsNoShadowedNames | Backend/index.js:474-482 | the intended create never stores a shadowed segment as a username |
| ProfileProperties.NoShadowedNamesAllServed | Backend/index.js:459-584 | in a store without shadowed usernames, every stored username's GET serves a profile of that name |
| Profiles.UpdateProfileInfo | Backend/index.js:526-545 | no profile gives 404 and no change; otherwise only the caller's document changes, its nested profile replaced whole, and the updated document is returned |
| Profiles.UpdateTemplate | Backend/index.js:548-571 | a present non-empty name outside default/minimal/professional gives 400 before any lookup; an absent or empty one passes; then 404 without a profile; otherwise only the caller's template changes |
| Profiles.AddProject | Backend/index.js:587-606 | no profile gives 404; otherwise only the caller's document changes, by one project (the body over a fresh id and creation time) appended at the end, which is the entry returned with 201 |
| Profiles.UpdateProject | Backend/index.js:608-633 | 404 "Profile not found" first, then 404 "Project not found" when no entry has the id; otherwise exactly the first entry with the id is shallow-merged with the body, in place, and nothing else changes |
| Profiles.DeleteProject | Backend/index.js:635-651 | no profile gives 404; otherwise the caller's projects are those without the id, in order, and the reply is 200 even when none matched |
| ProfileProperties.CreateThenCheck | Backend/index.js:459-510 | a username the check reports free can be created, after which the check reports it taken |
| ProfileProperties.CreateKeepsOk | Backend/index.js:479-482 | profile creation keeps usernames unique and every profile's project ids unique |
| ProfileProperties.UpdateTemplateKeepsOk | Backend/index.js:557-561 | a template update keeps the store invariant |
| ProfileProperties.UpdateProfileInfoKeepsOk | Backend/index.js:530-534 | a nested-profile update keeps the store invariant |
| ProfileProperties.AddProjectKeepsOk | Backend/index.js:593-599 | appending a project under a fresh id keeps the store invariant |
| ProfileProperties.DeleteProjectKeepsOk | Backend/index.js:642-646 | a delete keeps the store invariant |
| ProfileProperties.UpdateProjectKeepsOk | Backend/index.js:615-626 | an edit whose body carries no id keeps the store invariant |
| ProfileProperties.FilterUniqueIds | Backend/index.js:642-644 | filtering a project list with unique ids leaves unique ids |
| ProfileProperties.AddThenDeleteRestores | Backend/index.js:587-651 | adding a project under a fresh id and then deleting that id gives back the original store |
| ProfileProperties.UpdateProfileInfoThenGet | Backend/index.js:513-545 | after a nested-profile update the owner reads back exactly the profile written |
| ProfileProperties.UpdateProjectKeepsIds | Backend/index.js:615-626 | an edit whose body carries no id keeps the number of projects and every project's id |
| ProfileProperties.DeleteRemovesExactly | Backend/index.js:642-644 | after a delete no entry has the id and every entry with another id is still there |
| Showcase.DisplayCategory | Frontend/src/public/ProfessionalTemplate.jsx:18 | a project's chip label is its category, or "Uncategorized" when the entry or its category is missing |
| Showcase.Categories | Frontend/src/public/ProfessionalTemplate.jsx:18 | "all" first, then each label of the listed projects exactly once, in the order of first occurrence |
| Showcase.AllTech | Frontend/src/public/ProfessionalTemplate.jsx:19 | each technology of the present projects exactly once, in the order of first occurrence in the flattened lists |
| Showcase.FilterProjectsAsWritten | Frontend/src/public/ProfessionalTemplate.jsx:21-29 | the kept projects are an order-preserving subsequence, and a project is kept iff its category equals the chip (or the chip is "all"), its title or description contains the query ignoring case, and the tech selection is empty or meets its technologies; every kept project keeps all its copies |
| Showcase.FilterProjects | Frontend/src/public/ProfessionalTemplate.jsx:21-29 | the same filter with the chip compared against the displayed label, so "Uncategorized" selects projects without a category; every kept project keeps all its copies |
| Showcase.ToggleTech | Frontend/src/public/ProfessionalTemplate.jsx:347-353 | an unselected technology is appended at the end; a selected one is removed with every copy, the rest keeping their order and their counts |
| Showcase.MentionedIn | Frontend/src/public/ProfessionalTemplate.jsx:23-24 | an absent text never contains the query, and a present text always contains the empty query |
| Showcase.SearchMatches | Frontend/src/public/ProfessionalTemplate.jsx:23-24 | only an entry with a title or a description can match, and with an empty query every such entry does |
| Showcase.SearchIgnoresCase | Frontend/src/public/ProfessionalTemplate.jsx:23-24 | a query and its lower-case form match the same entries |
| Showcase.TechMatches | Frontend/src/public/ProfessionalTemplate.jsx:25-26 | an empty selection keeps every entry, one chip keeps exactly the entries using it, and an entry with no technologies survives only an empty selection |
| Showcase.CategoryMatchesAsWritten | Frontend/src/public/ProfessionalTemplate.jsx:22 | the stored-category test implies the displayed-label test, and the two agree on every chip but "Uncategorized" |
| Showcase.ToggleKeepsDistinct | Frontend/src/public/ProfessionalTemplate.jsx:347-353 | toggling keeps the selection free of duplicates |
| Showcase.ToggleTwice | Frontend/src/public/ProfessionalTemplate.jsx:347-353 | toggling an unselected technology twice restores the selection exactly |
| Showcase.ResetShowsAllDescribed | Frontend/src/public/ProfessionalTemplate.jsx:444-448 | after "reset filters" the code's filter shows a project exactly when it is present and has a title or a description, and the corrected filter agrees |
| Showcase.ResetShowsEverything | Frontend/src/public/ProfessionalTemplate.jsx:444-448 | after "reset filters" the code's filter shows a listing of titled projects whole, in order |
| Showcase.FixAgreesOffUncategorized | Frontend/src/public/ProfessionalTemplate.jsx:18-22 | the corrected filter differs from the code only on the "Uncategorized" chip |
| Showcase.UncategorizedChipShowsNothing | Frontend/src/public/ProfessionalTemplate.jsx:18-22 | a project without a category offers the "Uncategorized" chip, and selecting it shows nothing |
| Showcase.EveryChipShowsSomething | Frontend/src/public/ProfessionalTemplate.jsx:18-22 | with the corrected filter every offered chip shows at least one project of a non-empty titled listing |
| Showcase.EveryTechChipShowsSomething | Frontend/src/public/ProfessionalTemplate.jsx:19-27 | every offered technology chip, selected alone, shows exactly the titled projects that use it, and at least one |
| Showcase.DisplayName | Frontend/src/public/ProfessionalTemplate.jsx:59 | the shown name is the profile name if non-empty, else the username if non-empty, else "My Profile"; never empty |
| Showcase.NewProfileDisplayName | Backend/index.js:489-503 | a freshly created profile is shown under its owner's e-mail local part, or under its username when that part is empty |
| Routes.StripTrailingSlashes | Frontend/src/App.jsx:32 | the result is the path without its maximal run of trailing slashes |
| Routes.NavbarShown | Frontend/src/App.jsx:30-39 | the navbar is shown exactly when the cleaned path has other than one '/' or is itself a listed route |
| Routes.TrailingSlashIrrelevant | Frontend/src/App.jsx:32 | a trailing slash changes neither the cleaned path nor the classification |
| Routes.StripIdempotent | Frontend/src/App.jsx:32 | cleaning a cleaned path changes nothing |
| Routes.ListedRoutesRooted | Frontend/src/App.jsx:25-27 | every listed route starts with '/' |
| Routes.PrefixTestIsDead | Frontend/src/App.jsx:34-36 | for a path with one '/' the "starts with a listed route plus '/'" test never fires |
| Routes.IsPublicProfilePath | Frontend/src/App.jsx:30-38 | a profile path's cleaned form has exactly one '/' and is not itself a listed route |
| Routes.PublicProfileCharacterized | Frontend/src/App.jsx:30-38 | a path is a profile path exactly when its cleaned form has one '/' and is not a listed route |
| Routes.ListedRoutesNeverProfiles | Frontend/src/App.jsx:25-36 | a listed route, with or without a trailing slash, is never a profile path and shows the navbar |
| Routes.AliceIsProfile | Frontend/src/App.jsx:30-38 | "/alice" and "/alice/" are profile paths |
| Routes.SingleSegmentIsProfile | Frontend/src/App.jsx:30-39 | "/" followed by any non-empty slash-free name that is not a listed route is a profile path, with or without a trailing slash, and hides the navbar |
| Routes.ShortPathsAreNotProfiles | Frontend/src/App.jsx:35 | "", "/" and "alice" are not profile paths |
| Routes.NestedPathIsNotProfile | Frontend/src/App.jsx:35 | "/a/b" is not a profile path |
| ProjectForm.HandleChange | Frontend/src/dashboard/ProjectForm.jsx:18-24 | only the named field changes, to the text value or, for the checkbox, to `checked`; the tags never change |
| ProjectForm.HandleAddTech | Frontend/src/dashboard/ProjectForm.jsx:26-34 | the trimmed input is appended and the box cleared exactly when it is non-blank and not yet listed; otherwise nothing changes |
| ProjectForm.RemoveTech | Frontend/src/dashboard/ProjectForm.jsx:36-41 | the tags become an order-preserving subsequence in which the removed tag occurs no more and every other tag occurs as often as before; nothing else changes |
| ProjectForm.AfterSubmit | Frontend/src/dashboard/ProjectForm.jsx:43-65 | the draft resets to the initial one (category "web") only when the parent's call resolved, is kept otherwise, and the form is no longer submitting |
| ProjectForm.CleanTagNotBlank | Frontend/src/dashboard/ProjectForm.jsx:27 | a trimmed non-empty tag is not all whitespace |
| ProjectForm.AppendKeepsClean | Frontend/src/dashboard/ProjectForm.jsx:27-31 | appending a trimmed, non-empty tag not yet listed keeps a clean list clean |
| ProjectForm.AddTechKeepsClean | Frontend/src/dashboard/ProjectForm.jsx:26-34 | the "Add" button keeps the tag list duplicate-free with every tag trimmed and non-empty |
| ProjectForm.RemoveKeepsClean | Frontend/src/dashboard/ProjectForm.jsx:36-41 | removing a tag keeps the tag list clean |
| ProjectForm.ApplyKeepsClean | Frontend/src/dashboard/ProjectForm.jsx:26-41 | any single action keeps the tag list duplicate-free with every tag trimmed and non-empty |
| ProjectForm.RunKeepsClean | Frontend/src/dashboard/ProjectForm.jsx:18-65 | any sequence of actions keeps a clean tag list clean |
| ProjectForm.FromInitialAlwaysClean | Frontend/src/dashboard/ProjectForm.jsx:5-65 | starting from the empty form, the tag list is clean after any sequence of actions |
| ProjectForm.AddThenRemoveRestores | Frontend/src/dashboard/ProjectForm.jsx:26-41 | removing a tag that was just added restores the tag list |
| ProfileForm.InitialData | Frontend/src/dashboard/ProfileForm.jsx:6-20 | each missing text field starts as "", each missing list as []; the links form has exactly the four link keys, each the stored link or "" when it or the links object is missing |
| ProfileForm.InitialState | Frontend/src/dashboard/ProfileForm.jsx:6-38 | the editor opens on the initial data, with the avatar preview equal to the avatar and empty drafts |
| ProfileForm.LoadThenSubmit | Frontend/src/dashboard/ProfileForm.jsx:6-20 | a fully populated profile, loaded and submitted unchanged, is written back as it was |
| ProfileForm.ToProfileInfo | Frontend/src/dashboard/ProfileForm.jsx:156-168 | the submitted profile has every field and link present, and loading it back shows the same text in every field and link |
| ProfileForm.SubmitThenLoad | Frontend/src/dashboard/ProfileForm.jsx:6-20 | form data with the four link keys reloads unchanged from its own submission |
| ProfileForm.HandleChange | Frontend/src/dashboard/ProfileForm.jsx:40-61 | the lists and drafts never change; "socialLinks.k" sets link `k`; "avatar" sets the avatar and the preview; other names keep the preview |
| ProfileForm.SocialLinkChangeIsLocal | Frontend/src/dashboard/ProfileForm.jsx:43-51 | "socialLinks.k" with a dot-free `k` changes link `k` and no other field or link |
| ProfileForm.PlainFieldChangeIsLocal | Frontend/src/dashboard/ProfileForm.jsx:55-59 | "name", "bio" and "passionateText" each change only their own field |
| ProfileForm.HandleSkillChange | Frontend/src/dashboard/ProfileForm.jsx:63-68 | an in-range edit changes only that skill, its list split on commas untrimmed; an out-of-range index changes nothing |
| ProfileForm.HandleEducationChange | Frontend/src/dashboard/ProfileForm.jsx:70-75 | an in-range edit changes only that entry's field, keeping the length and every other entry; out of range changes nothing |
| ProfileForm.EducationEditUndo | Frontend/src/dashboard/ProfileForm.jsx:70-75 | typing a field's old value back into a listed education entry restores the whole form |
| ProfileForm.HandleWorkChange | Frontend/src/dashboard/ProfileForm.jsx:77-82 | an in-range edit changes only that entry, text or checkbox; out of range changes nothing |
| ProfileForm.WorkEditUndo | Frontend/src/dashboard/ProfileForm.jsx:77-82 | putting a field's old value back into a listed work entry restores the whole form |
| ProfileForm.SplitShown | Frontend/src/dashboard/ProfileForm.jsx:383-384 | splitting a list's shown text `join(', ')` on commas gives the parts with the separator's space attached to every part after the first |
| ProfileForm.TrimmedPartsOfShown | Frontend/src/dashboard/ProfileForm.jsx:87 | trimming the comma-separated parts of a shown list of trimmed comma-free parts gives the list back |
| ProfileForm.HandleSkillChangeTrimmed | Frontend/src/dashboard/ProfileForm.jsx:63-68 | the corrected skill edit: only that skill changes, and an edited list has one trimmed part per comma-separated part |
| ProfileForm.TrimmedEditIsStable | Frontend/src/dashboard/ProfileForm.jsx:63-68 | with the corrected edit, entering the text a listed skill's field shows leaves the form unchanged |
| ProfileForm.TrimmedParts | Frontend/src/dashboard/ProfileForm.jsx:87 | one trimmed part per comma-separated part of the input |
| ProfileForm.AddSkill | Frontend/src/dashboard/ProfileForm.jsx:84-98 | a blank name changes nothing; otherwise one skill (name as typed, list split and trimmed) is appended and the draft cleared |
| ProfileForm.AddEducation | Frontend/src/dashboard/ProfileForm.jsx:106-120 | a blank college name changes nothing; otherwise the draft is appended as one entry and cleared |
| ProfileForm.AddWorkExperience | Frontend/src/dashboard/ProfileForm.jsx:128-149 | a blank company name changes nothing; otherwise the draft is appended as one entry and cleared |
| ProfileForm.RemoveSkill | Frontend/src/dashboard/ProfileForm.jsx:100-104 | an in-range index removes exactly that skill: one shorter, the others in order |
| ProfileForm.RemoveEducation | Frontend/src/dashboard/ProfileForm.jsx:122-126 | an in-range index removes exactly that entry: one shorter, the others in order |
| ProfileForm.RemoveWorkExperience | Frontend/src/dashboard/ProfileForm.jsx:151-155 | an in-range index removes exactly that entry: one shorter, the others in order |
| ProfileForm.AddSkillThenRemove | Frontend/src/dashboard/ProfileForm.jsx:84-104 | removing the skill just added restores the skills |
| ProfileForm.AddEducationThenRemove | Frontend/src/dashboard/ProfileForm.jsx:106-126 | removing the education entry just added restores the list |
| ProfileForm.AddWorkThenRemove | Frontend/src/dashboard/ProfileForm.jsx:128-155 | removing the work entry just added restores the list |
| ProfileForm.EditKeepsSpaces | Frontend/src/dashboard/ProfileForm.jsx:63-68 | entering the text a listed skill's field shows stores every part after the first with a leading space, so a list of two or more parts changes |
| ProfileForm.AddTrims | Frontend/src/dashboard/ProfileForm.jsx:84-98 | a new skill whose list is typed as the shown text of trimmed comma-free parts is added with exactly those parts |
| Dashboard.ErrorMessage | Frontend/src/pages/index.jsx:48-59 | the thrown message is the JSON `message` when it is non-empty and "Request failed" in every other case, a non-JSON body included |
| Dashboard.ErrorMessageWithText | Frontend/src/pages/index.jsx:48-59 | the intended reading: the JSON `message`, else the raw text of a non-JSON body, else "Request failed", each only when non-empty |
| Dashboard.TextFallbackOnlyDifference | Frontend/src/pages/index.jsx:48-59 | the code and the intended reading agree on every body except a non-JSON one, where only the intended reading reports the text |
| Dashboard.TextFallbackIsDead | Frontend/src/pages/index.jsx:48-59 | a 500 whose body is the plain text "Internal Server Error" throws "Request failed", where the intended reading gives that text |
| Dashboard.Request | Frontend/src/pages/index.jsx:43-65 | the token is cleared exactly on 401, which throws "Session expired…"; any other non-2xx throws with its status and the JSON message or "Request failed"; 204 gives `{}`; other 2xx the parsed body |
| Dashboard.RequestThrowsIffNotOk | Frontend/src/pages/index.jsx:43-62 | a request throws exactly on a non-2xx status, and a non-401 error carries the status |
| Dashboard.AddProjectRequest | Frontend/src/pages/index.jsx:87-112 | the add-project call never clears the token; it throws exactly on non-2xx, with the status and the JSON message or "Request failed" |
| Dashboard.AddProjectAgreesWithRequestOff401 | Frontend/src/pages/index.jsx:43-111 | off 401 the add-project call and the generic helper end the same way on every response |
| Dashboard.ExpiredSessionOnAddProject | Frontend/src/pages/index.jsx:43-109 | on 401 the generic helper clears the token but the add-project call keeps it and throws an ordinary error |
| Dashboard.Normalise | Frontend/src/pages/index.jsx:166-174 | a fetched profile keeps the server's fields over the defaults, a non-array project list becomes [], and the counter equals the list length |
| Dashboard.HandleAddProject | Frontend/src/pages/index.jsx:136-151 | the returned project is appended at the end, the rest is kept, and the counter becomes the old length plus one |
| Dashboard.OnProjectUpdated | Frontend/src/pages/index.jsx:567-573 | every entry with the updated id is replaced by it; length, other entries and counter are unchanged |
| Dashboard.OnProjectDeletedAsWritten | Frontend/src/pages/index.jsx:575-582 | entries with the id are removed and the counter is set to the old length minus one, whatever was removed |
| Dashboard.OnProjectDeleted | Frontend/src/pages/index.jsx:575-582 | entries with the id are removed, every other entry is kept, and the counter equals the new length |
| Dashboard.ReducersKeepCounter | Frontend/src/pages/index.jsx:575-582 | add, update and the corrected delete each keep the counter equal to the list length |
| Dashboard.DeleteAgreesOnUniqueHit | Frontend/src/pages/index.jsx:575-582 | when the id is listed exactly once the code's delete and the corrected one agree |
| Dashboard.DeleteMissingIdMiscounts | Frontend/src/pages/index.jsx:575-582 | deleting an unlisted id on an empty list leaves the counter at -1 |
| Dashboard.SetupSubmit | Frontend/src/pages/index.jsx:295-299 | the submitted username is the trimmed input, sent exactly when that is non-empty |
| Dashboard.ValidInputSubmittedVerbatim | Frontend/src/pages/index.jsx:306-313 | any input the field accepts (3 to 20 letters and digits) is submitted unchanged |
| Dashboard.HandleCreateProfile | Frontend/src/pages/index.jsx:200-225 | create is sent exactly when the check says the name is free; a taken name sets "Username already taken"; a created profile opens the projects tab with the counter equal to its list; loading always ends |
| Dashboard.OnFetchError | Frontend/src/pages/index.jsx:176-184 | a failed fetch shows the error's message and ends loading; it navigates to the login route exactly when the error carries status 401, opens the setup tab exactly when it carries 404, and keeps the tab otherwise |
| Dashboard.OnFetchErrorFixed | Frontend/src/pages/index.jsx:176-184 | the intended catch block leaves the page as written does and navigates to the login route on an expired session as well as on status 401 |
| Dashboard.ViewOf | Frontend/src/pages/index.jsx:240-276 | loading wins, then an error off the setup tab, then the setup form when there is no username or the setup tab is open, then the dashboard |
| Dashboard.MissingProfileShowsSetup | Frontend/src/pages/index.jsx:176-184 | a 404 on the profile fetch shows the setup form with the server's message, and does not navigate |
| Dashboard.FetchErrorNeverRedirects | Frontend/src/pages/index.jsx:176-184 | as written, no failed status of the profile fetch navigates to the login route |
| Dashboard.ExpiredSessionShowsError | Frontend/src/pages/index.jsx:176-184 | as written, a 401 on the profile fetch stays on the page and shows the error view with "Session expired. Please login again." |
| Dashboard.FixedRedirectsExactlyOn401 | Frontend/src/pages/index.jsx:176-184 | with the intended catch block a failed fetch navigates to the login route exactly on a 401, and ends as written on every other status |
| Dashboard.CreatedProfileShowsDashboard | Frontend/src/pages/index.jsx:200-225 | a free name whose profile is created shows the dashboard proper |
| ProjectList.ParseTechStack | Frontend/src/dashboard/ProjectList.jsx:18 | the parsed list is the comma-separated parts in order with the empty ones dropped: each non-empty part occurs as often as in the text, untrimmed |
| ProjectList.ParseFeatured | Frontend/src/dashboard/ProjectList.jsx:22 | featured is true exactly when the checkbox reads "on" |
| ProjectList.JoinThenParse | Frontend/src/dashboard/ProjectList.jsx:18 | a list of non-empty comma-free entries, joined into the edit field and parsed back, is unchanged |
| ProjectList.UpdatedData | Frontend/src/dashboard/ProjectList.jsx:15-23 | the edit body carries title, description, category, both URLs, the parsed technologies and the checkbox, and no id, images or creation time |
| ProjectList.Overlay | Frontend/src/dashboard/ProjectList.jsx:37 | the entry handed to the page keeps the original id, images and creation time and takes title, description, category, both URLs, technologies and the checkbox from the form |
| ProjectList.SelectedOption | Frontend/src/dashboard/ProjectList.jsx:146-162 | the select submits one of its options: the default value when it is an option, otherwise the first option |
| ProjectList.DefaultFieldsWith | Frontend/src/dashboard/ProjectList.jsx:118-188 | each text field opens on the project's value or "", the technologies joined, the box checked exactly when featured, and the category on the option the select picks |
| ProjectList.DefaultFields | Frontend/src/dashboard/ProjectList.jsx:118-188 | the edit form opens on the project's fields; its category is always one of the eleven options, the stored one when it is an option and "Full Stack" otherwise |
| ProjectList.UntouchedEditWith | Frontend/src/dashboard/ProjectList.jsx:118-188 | saving the pre-filled form untouched changes a fully filled-in project at most in its category, which becomes the option the select picked, and not at all when its category is an option |
| ProjectList.UntouchedEditKeepsProject | Frontend/src/dashboard/ProjectList.jsx:118-188 | saving the edit form untouched changes a fully filled-in project at most in its category, and not at all when the category is one of the eleven options |
| ProjectList.AddFormCategoryLostOnEdit | Frontend/src/dashboard/ProjectList.jsx:146-162 | a project whose category came from the add form comes back from an untouched edit as "Full Stack" |
| ProjectList.UntouchedEditKeepsProjectFixed | Frontend/src/dashboard/ProjectList.jsx:146-162 | with the add form's categories offered as well, an untouched edit keeps every fully filled-in project whose category either form offers |
| ProjectList.HandleUpdateSubmit | Frontend/src/dashboard/ProjectList.jsx:12-43 | on a 2xx reply the overlay goes to the page and the editor closes; otherwise nothing happens |
| ProjectList.HandleDelete | Frontend/src/dashboard/ProjectList.jsx:45-63 | on a 2xx reply the confirmed id goes to the page and the dialog closes; otherwise nothing happens |
| ProjectList.Visible | Frontend/src/dashboard/ProjectList.jsx:73 | the drawn entries are the present ones, as an order-preserving subsequence, each present entry occurring as often as in the list |
| ProjectList.VisibleKeepsPresent | Frontend/src/dashboard/ProjectList.jsx:73 | a list without null entries is drawn whole, and drawing the drawn entries changes nothing |
| ProjectList.ReplaceByIdIsReplaceAt | Frontend/src/pages/index.jsx:570-572 | on a list with unique ids, replacing by id is replacing at the entry's position |
| ProjectList.EditKeepsPageInSync | Frontend/src/dashboard/ProjectList.jsx:36-39 | after a successful edit of entry `k` of the owner's list, the page's list equals the list the server stored |
| ProjectList.UpdateSubmitKeepsPageInSync | Frontend/src/dashboard/ProjectList.jsx:12-43 | saving the edit form of an entry of the stored list is accepted, closes the modal, and the entry handed to the page makes its list equal to the stored one |
| ProjectList.DeleteKeepsPageInSync | Frontend/src/dashboard/ProjectList.jsx:45-63 | confirming a delete is accepted, closes the dialog, and the id handed to the page makes its list equal to the stored one with the counter equal to its length |
| Templates.IsEnabled | Frontend/src/dashboard/TemplateSelector.jsx:120 | a name is enabled exactly when some card with that id is enabled |
| Templates.CatalogueAgreesWithServer | Frontend/src/dashboard/TemplateSelector.jsx:4-26 | the cards are exactly the server's allowed names in the same order, and only "default" is enabled |
| Templates.Click | Frontend/src/dashboard/TemplateSelector.jsx:78 | a click on an enabled card selects it and a click on a disabled card changes nothing |
| Templates.ClickKeepsSelectionEnabled | Frontend/src/dashboard/TemplateSelector.jsx:78 | clicks never move an enabled selection to a disabled layout |
| Templates.ApplyDisabled | Frontend/src/dashboard/TemplateSelector.jsx:120 | apply is enabled exactly when the selection differs from the current template, nothing is in flight, and the selection is enabled |
| Templates.ApplyOnlyToDefault | Frontend/src/dashboard/TemplateSelector.jsx:120 | with this catalogue an enabled apply always moves a profile back to "default" |
| Templates.Resync | Frontend/src/dashboard/TemplateSelector.jsx:33-35 | a new current template becomes the selection, and nothing else changes |
| Templates.ResyncDisablesApply | Frontend/src/dashboard/TemplateSelector.jsx:33-35 | right after a resync apply is disabled, and the synced selection is an enabled card exactly when the stored template is "default" or empty |
| Templates.CurrentTemplate | Frontend/src/pages/index.jsx:619 | the template given to the selector is the stored one when that is non-empty and "default" when it is empty |
| Templates.ApplyWith | Frontend/src/dashboard/TemplateSelector.jsx:37-61 | the callback runs exactly when no error is set, a failure sets "Failed to update template" and stores nothing, a refused header never reaches the callback, and the callback receives the selection |
| Templates.ApplyAsWritten | Frontend/src/dashboard/TemplateSelector.jsx:42-47 | the request as sent fails: nothing is stored, the callback does not run, and the selector shows "Failed to update template" and is no longer submitting |
| Templates.Apply | Frontend/src/dashboard/TemplateSelector.jsx:37-61 | with the bearer header a success hands the selection to the callback, a failure stores nothing and shows the error, and an empty or unsigned token always fails |
| Templates.ApplyAsWrittenAlwaysFails | Frontend/src/dashboard/TemplateSelector.jsx:42-47 | sent as the selector sends it, every apply fails, the store is untouched and the callback never runs |
| Templates.ApplyWithTokenSucceeds | Frontend/src/dashboard/TemplateSelector.jsx:37-61 | with a bearer header carrying a valid non-empty session token of a user with a profile, the allowed selection is stored and handed to the callback |
| Templates.RenderTemplate | Frontend/src/pages/PublicProfilePage.jsx:31-42 | no profile draws nothing; "minimal" and "professional" draw their layouts exactly when stored; anything else draws the default |
| Templates.ServedProfilesRender | Frontend/src/pages/PublicProfilePage.jsx:31-42 | every document the public handler returns for a stored username is drawn, with the default layout for "default", "" or no template |

## Left out

- Password hashing: bcrypt's hash and compare are the `digest` parameter and the `matches` oracle; the cost factor is not modelled.
- JWT signing and verification: a token is represented by its claims `{id, email}`, and verification is the `verify` oracle. The 7-day expiry is left to that oracle.
- E-mail: the Nodemailer transport and the message bodies are I/O. Only delivery success (`mailOk`) is modelled.
- Server plumbing: the Mongoose connection, Express, CORS, static serving, `app.listen` and the Passport/OAuth handshake are left out. Only Google's find-or-create rule and the token it issues are kept.
- Mongoose casting and defaults: the model assumes request-body fields are present and of the schema's type. Object ids are opaque naturals or strings.
- Profiles.CreateProfile: a request without a username (a lookup with `undefined`) is not modelled; the username is a string.
- Profiles.UpdateTemplate: an absent template is stored as "no template". Mongoose's treatment of `$set` with `undefined` is not modelled.
- Concurrency: races between concurrent requests on the same document are not modelled. Each route is one atomic step.
- Server errors: the 500 replies for database failures are not modelled. Only the mail-failure 500s are.
- Client I/O: fetch, axios and localStorage are left out. The response status and body are parameters. `checkAuth` in App.jsx is pure I/O and is not modelled.
- Dashboard.HandleCreateProfile: the created profile is taken as already normalised. Merging it over the default profile is not modelled.
- ProfileForm.HandleChange: only the input names the form renders are modelled. Any other name leaves the state unchanged, whereas the code would set a top-level key of that name.
- ProfileForm.HandleSkillChange, ProfileForm.HandleEducationChange, ProfileForm.HandleWorkChange: the code writes through a shallow copy into shared entry objects. The model treats each edit as a pure update of one entry.
- Accounts.Login: comparing a password against the Google placeholder, which is not a bcrypt hash, is taken to report a mismatch (401), not a thrown error.
- Portfolio.Project: an absent `featured` flag is read as false; the schema gives it no default.
- Dashboard.HandleAddProject: only the success path is modelled. On failure the page shows the message and rethrows, and the form side of that is `ProjectForm.AfterSubmit` with an unresolved call.
- Dashboard.Normalise: every non-array `projects` value is read as having no length. A non-array value that has a `length`, such as a string, would set the counter to that length while the list is [].
- Dashboard.OnFetchError: navigation is represented only by the `toLogin` flag. The redirect taken when `/check-auth` answers 2xx with `authenticated` false is not modelled, because the server never sends that reply.
- ProjectList.UntouchedEditKeepsProject: an untouched edit no longer promises to keep the category. A category outside the eleven options comes back as "Full Stack" (see Findings).
- Profiles.GetPublicProfile: the handler alone. Dispatch among the routes is `Profiles.GetProfilePath` for the shadowed segments only; the setup form's `minLength` and `pattern`, which keep "me" out in the browser, are not modelled.
- ProjectList.HandleUpdateSubmit: the browser's constraint validation (`required` on title and description, `type="url"` on both links) is not modelled. It stops some submits before the handler runs, so the model admits more submits than the page does; every proved property holds for all of them.
- Text.Lower: `toLowerCase` is modelled for ASCII letters only. Other characters are left unchanged.
- Showcase: the sample profile shown when no profile is passed is presentation data and is not modelled.
- ProfessionalTemplate's selected-project modal and menu toggles are presentation state and are not modelled.
- `handleGenerateSite` on the dashboard only waits on a timer and is not modelled.
- Presentation-only files are not modelled: React rendering, CSS, animation, lazy images, `Modal.jsx`, the navbars, the guest home page, the layout, the 404 page, the verify-pending page, `ui/Filter.jsx` and the Vite configuration.
- Admin endpoints and a session-cookie backend are not part of this model. Neither appears in the modelled files.

## Findings

| source | as written | input that shows it | evidently intended | confidence | as-written member | corrected member |
|---|---|---|---|---|---|---|
| Frontend/src/public/ProfessionalTemplate.jsx:18-22 | a project without a category is listed under an "Uncategorized" chip, but the filter compares the chip with the raw category, so that chip matches nothing | one project titled "Portfolio" with no category, chip "Uncategorized", empty query and no technologies selected: nothing is shown | the chip filters on the label it displays, so every offered chip shows its projects | not executed | Showcase.UncategorizedChipShowsNothing | Showcase.EveryChipShowsSomething |
| Frontend/src/pages/index.jsx:575-582 | after a delete the project counter is set to the old length minus one, whether or not an entry was removed (and all entries with the id are removed); no view reads the counter today, since the page draws `profile.projects?.length || 0` (index.jsx:432, 473), and an absent id needs a second confirm before the dialog closes, so the effect is latent | the default profile (no projects) and a delete of id "missing": the counter becomes -1 | the counter equals the length of the filtered list | not executed | Dashboard.DeleteMissingIdMiscounts | Dashboard.ReducersKeepCounter |
| Frontend/src/dashboard/TemplateSelector.jsx:42-47 | the template update is sent with no Authorization header, and the route's middleware answers 401 to every such request; it also uses the relative URL `/api/profiles/me/template`, which reaches the backend only through the development proxy of `vite.config.ts`, while the other dashboard calls use the absolute base URL | any selection, any store: the reply is 401, "Failed to update template" is shown and the callback never runs | send the stored token as a bearer header, as the other dashboard requests do | not executed | Templates.ApplyAsWrittenAlwaysFails | Templates.ApplyWithTokenSucceeds |
| Frontend/src/pages/index.jsx:48-59 | a failed response is read with `response.json()` first and `response.text()` only when that rejects, but the JSON read has already consumed the body, so the text read always rejects and the raw text is never reported | status 500 with the plain-text body "Internal Server Error": the error thrown is "Request failed" | a non-JSON error body is reported by its text, as the comment on the fallback says | not executed | Dashboard.TextFallbackIsDead | Dashboard.ErrorMessageWithText |
| Frontend/src/dashboard/ProjectList.jsx:146-162 | the edit form's category select is uncontrolled and offers eleven values, none of which the add form's select ("web", "mobile", "design", "other") can store, so it opens on its first option | a project added with the default category "web", edited and saved without touching the form: it is stored as "Full Stack" | the edit form offers the values the add form stores, so an untouched save keeps the category | not executed | ProjectList.AddFormCategoryLostOnEdit | ProjectList.UntouchedEditKeepsProjectFixed |
| Frontend/src/pages/index.jsx:176-184 | the catch block navigates to the login route when `err.status` is 401, but the helper throws a 401 as a plain error with no `status`, so the branch is never taken | the profile fetch answered 401: the page stays on the error view with "Session expired. Please login again." | an expired session navigates to the login route | not executed | Dashboard.ExpiredSessionShowsError | Dashboard.FixedRedirectsExactlyOn401 |
| Backend/index.js:459-584 | `GET /api/profiles/check-username` and `GET /api/profiles/me` are registered before `GET /api/profiles/:username`, and the create route accepts both names | a user creates the profile "check-username": the public page's GET gets 400 "Username is required" (for "me", 401 "Authorization header missing") | the create route refuses the shadowed names, so every stored profile is reachable at its username | not executed | ProfileProperties.ShadowedUsernameNeverServed | ProfileProperties.NoShadowedNamesAllServed |
| Frontend/src/dashboard/ProfileForm.jsx:63-68 | a listed skill's field shows its list joined with ", " and every change splits the text on "," without trimming, so the space after each comma is stored and shown again with one more space | a skill with the list ["a", "b"], shown as "a, b": typing "c" at the end stores ["a", " bc"], shown as "a,  bc", and every further keystroke adds a space | trim each part, as "Add Skill" does, so that entering the shown text leaves the list as it was | not executed | ProfileForm.EditKeepsSpaces | ProfileForm.TrimmedEditIsStable |
