# Kamwaalay app core, modelled in Dafny

Kamwaalay is a marketplace app for household services. Customers post jobs and service requests, helpers offer services, and businesses manage teams of workers. The app is a React Native / TypeScript client over a REST API. The repository also holds `scripts/update_gradle_key.py`, which rewrites the release signing block of the Android build file.

This project models the logic that sits under the screens, as Dafny code, and proves what it promises:

- **The Gradle key patch.** An exact replace of every occurrence, with a fallback for a white-space-tolerant pattern, written as one function from file content to the writes and output lines of a run (`GradlePatch`).
- **The HTTP client's pure parts.** Endpoint URL templating (`ApiConstants`); response-envelope shaping, query strings, token lookup and headers (`ApiService`); notification normalisation (`NotificationService`).
- **The app-wide state.**
  - The signed-in user's lifecycle (`Auth.Session`), the service-request store (`AppState.Store`), the theme mode and colour scheme (`Theme.ThemeState`) and the toast listener registry (`Toast.Registry`).
  - Each is a class whose methods update its fields in place.
  - Translation lookup with its English fallback (`Translation`).
- **Navigation.** The root layout's auth and onboarding guard, with the web error-suppression predicate (`RootLayout`), the root redirect (`IndexRedirect`), and the guide's slides and routing (`Guide`).
- **The screens' handlers.** Sign-in, OTP entry, sign-up and password change; the onboarding steps for customers, helpers and businesses; profile editing, bookings and service offerings; job and request creation; adding workers, the workers list and the business dashboard.
  - Each validation is an ordered chain where the first failure wins, followed by the payload it builds.
  - Screens whose handlers update several pieces of React state are classes.

Values that arrive from JSON or through loosely typed props are `Js.Value`s. The `Js` module defines JavaScript truthiness, `a || b`, property reads that throw on `null`/`undefined`, optional chaining and `Array.prototype.join`'s string conversion. A handler or render that would throw yields `None`. `Strings` models the `String.prototype` operations the code relies on, with lemmas about them: `replace` with a string pattern expands `$$`, `$&`, `` $` `` and `$'` in the replacement as JavaScript does, while case mapping covers ASCII letters only and lengths count characters rather than UTF-16 code units (see "Left out"). `ListOps` holds the filter and membership-toggle idioms used on selections.

Clocks (`Date.now()`), storage, the network, the image picker, geocoding and the router's effects are not executed. What they return is a parameter, and a redirect is a returned target.

## Model

| member | source | states |
|---|---|---|
| GradlePatch.SkipSpaces | scripts/update_gradle_key.py:34 | `\s*` in the fallback pattern stops at the first non-white-space character and consumes only white space |
| GradlePatch.BraceFrom | scripts/update_gradle_key.py:34 | `[^}]+\}` ends at the first `}` after its start, and nothing before it is a `}` |
| GradlePatch.MatchLength | scripts/update_gradle_key.py:34-35 | a match of the fallback pattern starts with `release`, names the old key file and ends at a `}` |
| GradlePatch.Patch | scripts/update_gradle_key.py:26-41 | at most one write; nothing is written exactly when neither the exact block nor the pattern is found; the exact path is taken iff the old block occurs, the regex path iff it does not and the pattern matches |
| GradlePatch.ExactReplacesEveryOccurrence | scripts/update_gradle_key.py:26-30 | with the old block present, every occurrence is replaced (the file is cut at the occurrences and glued with the new block) and only the success line is printed, so the fallback is never tried |
| GradlePatch.NoMatchNoWrite | scripts/update_gradle_key.py:31-41 | with no exact block and no pattern match nothing is written, the content is unchanged, and both failure lines are printed |
| GradlePatch.SubstituteWithoutMatch | scripts/update_gradle_key.py:36 | `re.sub` on text without a match returns it unchanged |
| GradlePatch.SubstituteKeepsIndent | scripts/update_gradle_key.py:34-36 | the regex path keeps the indentation before `release`, so the new block's own eight spaces come on top of it |
| GradlePatch.NoMatchWithoutOldKey | scripts/update_gradle_key.py:34-35 | text that does not name the old key file has no match of the pattern |
| GradlePatch.NewBlockLacksOldBlock | scripts/update_gradle_key.py:12-24 | the new block does not contain the old block |
| GradlePatch.NewBlockDashAt | scripts/update_gradle_key.py:19-24 | the new block has exactly one `-` |
| GradlePatch.NewBlockLacksOldKey | scripts/update_gradle_key.py:19-34 | the new block does not name the old key file, so the pattern never matches it |
| GradlePatch.OldBlockFileBecomesNewBlock | scripts/update_gradle_key.py:26-41 | a file holding exactly the old block becomes exactly the new block, and a second run on it replaces nothing |
| GradlePatch.OldBlockNeedsOldKey | scripts/update_gradle_key.py:12-17 | text containing the old block names the old key file, so text that does not name it has no old block |
| GradlePatch.NotAcrossBlock | scripts/update_gradle_key.py:28 | a pattern that has neither the first nor the last character of a block occurs in `a + block + b` only inside one of the three |
| GradlePatch.NoKeyInJoin | scripts/update_gradle_key.py:28 | pieces that do not name the old key file, joined by the new block, do not name it (the name has no space and no `}`, the new block's edges) |
| GradlePatch.SecondRunChangesNothing | scripts/update_gradle_key.py:26-41 | for every file that names the old key file only inside copies of the old block: the first run takes the exact path, and a second run on its result finds neither the block nor the pattern and writes nothing |
| ApiConstants.Path | constants/api.ts:13-176 | every endpoint in the table is a path starting with `/` |
| ApiConstants.JoinHasOneSlash | constants/api.ts:7-182 | the base URL has no trailing `/` and every endpoint a leading one, so the joined URL has exactly one `/` at the seam |
| ApiConstants.BuildApiUrl | constants/api.ts:181-192 | the URL is the base URL plus the endpoint with the parameters applied in key order; without parameters it is the plain concatenation |
| Strings.ReplaceFirstPattern | constants/api.ts:187 | `replace` with a string pattern: only the first occurrence is replaced, by the value's replacement text; a value without `$` is spliced in literally |
| Strings.SubstitutionLiteral | constants/api.ts:187 | a replacement value without `$` is its own replacement text |
| Strings.ReplaceWithMatch | constants/api.ts:187 | replacing with `$&` puts the matched text back, leaving the string unchanged |
| Strings.ReplaceWithDollars | constants/api.ts:187 | replacing with `$$` inserts a single `$` |
| ApiConstants.ApplyFirst | constants/api.ts:186-188 | applying the parameters is replacing the first key's token, then applying the rest |
| ApiConstants.AbsentKeyIgnored | constants/api.ts:186-188 | a key whose `:key` token is not in the URL changes nothing |
| ApiConstants.FirstToken | constants/api.ts:187 | when no `:key` token starts earlier in the URL, the token after `pre` is the first occurrence `replace` finds |
| ApiConstants.ReplaceFirstToken | constants/api.ts:187 | that first token is replaced by a `$`-free value, with the text around it kept |
| ApiConstants.FirstOccurrenceOnly | constants/api.ts:187 | a parameter replaces only the first occurrence of its token; everything after it, later copies of the token included, is kept |
| ApiConstants.MatchValueKeepsToken | constants/api.ts:186-188 | a parameter whose value is `$&` leaves the URL as it was, its `:key` token still in place |
| ApiConstants.TokenAtEnd | constants/api.ts:187 | a token at the end of the URL, with no earlier token of its key, is replaced by a `$`-free value |
| ApiConstants.EarlierValueSubstitutedLater | constants/api.ts:186-188 | keys are applied in order: for a URL ending in `:x` with no earlier `:x` or `:y` token, a value `:y` for `x` is itself substituted by `y`'s value |
| ApiConstants.BaseUrlHasNoToken | constants/api.ts:7-187 | in a URL built on the base URL, from a path without `:` before the token, no `:key` token of a key not starting with `/` starts earlier: the scheme's `:` is followed by `/` |
| ApiConstants.BuiltUrlParam | constants/api.ts:181-192 | for every built URL whose path has no `:` before the token, the parameter replaces exactly its token and keeps the rest |
| ApiConstants.BuiltUrlChain | constants/api.ts:181-192 | for every built URL ending in `:x`, a value `:y` for `x` is replaced in turn by `y`'s value |
| ApiService.ParseBody | services/api.ts:98-117 | a JSON content type or a non-empty text is parsed; a failed parse gives `{}` on the JSON path and `{message: text}` on the text path; an empty text body gives `{}` |
| ApiService.ErrorText | services/api.ts:121-126 | the error text is `data.message` when truthy, else `data.error` when truthy, then the later fallbacks |
| ApiService.FalsyHasNoMessage | services/api.ts:123-124 | a falsy `data.error` has no truthy `message`, so `data.error?.message` never contributes |
| ApiService.ErrorTextPrecedence | services/api.ts:121-126 | the error text is message, then error, then the `errors` array joined with `", "`, then `"HTTP <status>: <statusText>"` |
| ApiService.Payload | services/api.ts:138-145 | the payload is the first of `data`, `result`, `response` that is not `undefined` (a `null` counts), else the whole body |
| ApiService.HandleResponse | services/api.ts:97-152 | a `null` body throws; otherwise success mirrors `ok`; a failure carries the error text, the body's message and `data.data \|\| data`; a success carries the payload and `message \|\| msg` and no error |
| ApiService.FailureHasError | services/api.ts:119-133 | a failed response always carries a truthy error text |
| ApiService.Caught | services/api.ts:199-205 | a thrown request answers with failure, no data and `error.message \|\| 'Network error occurred'` |
| ApiService.Kept | services/api.ts:168-169 | an entry survives the query filter iff its value is neither `undefined` nor `null`, in order |
| ApiService.QueryPair | services/api.ts:170 | each query entry is written `key=value` |
| ApiService.QueryStringEmpty | services/api.ts:168-172 | the query string is empty iff every value is `undefined` or `null` |
| ApiService.WithQuery | services/api.ts:167-175 | `?` and the query string are appended only when that string is non-empty; no query object leaves the URL alone |
| ApiService.AllNullQueryKeepsUrl | services/api.ts:167-175 | a query whose values are all `undefined` or `null` leaves the URL unchanged |
| ApiService.GetUrl | services/api.ts:164-175 | `get` fetches the endpoint with its path parameters filled in and the query string appended |
| ApiService.UserToken | services/api.ts:43-56 | a token taken from the stored user record needs a stored record and is a non-empty string |
| ApiService.FindToken | services/api.ts:33-67 | a non-empty `authToken` entry wins; otherwise the stored user's token; any token found is non-empty |
| ApiService.AfterLookup | services/api.ts:49-54 | storage changes only when the token came from the user record, by copying it to `authToken` |
| ApiService.LookupIsStable | services/api.ts:33-67 | after a successful lookup, the next lookup answers the same token from `authToken` and leaves storage alone |
| ApiService.Headers | services/api.ts:73-91 | JSON `Content-Type` and `Accept` always; `Authorization: Bearer <token>` exactly when auth is included and a token was found; no other header |
| ApiService.TokenStore.GetAuthToken | services/api.ts:33-67 | answers `FindToken` of the old storage and leaves storage as `AfterLookup` says |
| ApiService.TokenStore.BuildHeaders | services/api.ts:73-91 | storage is read and possibly updated only when auth is included, and the headers follow `Headers` |
| Translation.Walk | hooks/useTranslation.ts:14-21 | the key walk of the hook: the empty path is the value itself, and a step succeeds only into a truthy object that holds the key |
| Translation.WalkAppend | hooks/useTranslation.ts:14-21 | walking a key path is walking its prefix and then the rest; a prefix that does not resolve stops the walk |
| Translation.Table | hooks/useTranslation.ts:11 | `translations[language]` selects the language's table; a missing language reads the `"undefined"` key |
| Translation.Translate | hooks/useTranslation.ts:7-38 | a string found along the dotted path in the selected table wins, else a string found in English, else the key itself |
| Translation.T | hooks/useTranslation.ts:7-38 | the two loops over the key's segments return exactly `Translate` |
| Translation.NoLanguageMeansEnglish | hooks/useTranslation.ts:5-28 | with no language selected every key is looked up in English |
| Translation.ThroughStringFallsBack | hooks/useTranslation.ts:15-19 | a path that reaches a string before its last segment does not resolve, so the lookup falls back |
| Toast.Calls | utils/toast.ts:46-48 | `emit` calls each registered listener once, in registry order, with the same message and type |
| Toast.Registry.constructor | utils/toast.ts:5 | the registry starts empty |
| Toast.Registry.Subscribe | utils/toast.ts:15-16 | the listener is appended (a second subscription adds it again) |
| Toast.Registry.Unsubscribe | utils/toast.ts:17-19 | every entry identical to the listener is removed, the rest keep their order |
| Toast.Registry.Emit | utils/toast.ts:46-48 | the calls made are `Calls` of the current registry |
| Toast.Registry.ShowSuccess | utils/toast.ts:25-29 | `success` emits with type success |
| Toast.Registry.ShowError | utils/toast.ts:34-36 | `error` emits with type error |
| Toast.Registry.ShowInfo | utils/toast.ts:41-43 | `info` emits with type info |
| Toast.SubscribeThenUnsubscribe | utils/toast.ts:15-19 | subscribing a new listener and calling the returned function restores the registry |
| Toast.UnsubscribeKeepsOthersCalls | utils/toast.ts:18-47 | after unsubscribing, a call is made iff it was made before and is not to that listener |
| Auth.LoginRecord | contexts/AuthContext.tsx:117-122 | the login record holds exactly an id, the phone number, a `null` type and status `not_started` |
| Auth.AfterSelectUserType | contexts/AuthContext.tsx:136-144 | without a user nothing happens; otherwise the type is set, the status becomes `in_progress` and every other field is kept |
| Auth.AfterUpdateUser | contexts/AuthContext.tsx:146-150 | without a user nothing happens; otherwise patched fields take the patch's values and all others are kept |
| Auth.UpdateUserIdempotent | contexts/AuthContext.tsx:146-150 | merging the same patch twice equals merging it once |
| Auth.AfterCompleteOnboardingAsWritten | contexts/AuthContext.tsx:152-161 | as written: the profile is stored and the status becomes `completed`; the name is the profile's `name` only when the profile has a `userType` field (neither declared profile type has one), otherwise its `ownerName`; every other field is kept |
| Auth.CompleteOnboardingAsWrittenErasesHelperName | contexts/AuthContext.tsx:152-161 | a helper profile (with `name`, without `ownerName`) erases the user's name |
| Auth.AfterCompleteOnboarding | contexts/AuthContext.tsx:152-161 | corrected: the profile is stored, status becomes `completed`, the name is the business `ownerName` or else the helper `name`, all else kept |
| Auth.CompleteOnboardingKeepsHelperName | contexts/AuthContext.tsx:152-161 | corrected: a helper completing onboarding with their own name keeps it |
| Auth.AfterChangePassword | contexts/AuthContext.tsx:163-180 | no user throws `User not found`; a set password that differs throws `Current password is incorrect`; otherwise only the password changes |
| Auth.ChangePasswordTwice | contexts/AuthContext.tsx:163-180 | after a change, the new password is accepted as the current one |
| Auth.PasswordCheckOnlyWhenSet | contexts/AuthContext.tsx:170-172 | any current password is accepted while none is set; a wrong one is refused once one is set |
| Auth.Session.constructor | contexts/AuthContext.tsx:83 | no user before loading |
| Auth.Session.LoadUser | contexts/AuthContext.tsx:90-101 | a non-empty stored record that parses becomes the user; anything else keeps the state |
| Auth.Session.Login | contexts/AuthContext.tsx:112-124 | the user becomes the login record of the argument as passed, and the call resolves to `undefined` |
| Auth.Session.VerifyOtp | contexts/AuthContext.tsx:126-134 | a code is accepted iff it has six characters and a user exists; the user is untouched |
| Auth.Session.SelectUserType | contexts/AuthContext.tsx:136-144 | the user becomes `AfterSelectUserType` of the old one |
| Auth.Session.UpdateUser | contexts/AuthContext.tsx:146-150 | the user becomes `AfterUpdateUser` of the old one |
| Auth.Session.CompleteOnboarding | contexts/AuthContext.tsx:152-161 | the user becomes `AfterCompleteOnboardingAsWritten` of the old one, as the provider does it (a helper's name is erased) |
| Auth.Session.UpdateUserCaptured | contexts/AuthContext.tsx:146-150 | `updateUser` through a closure of an earlier render: the user becomes the captured user merged with the update; without a captured user nothing changes |
| Auth.Session.ChangePassword | contexts/AuthContext.tsx:163-180 | a thrown message leaves the user as it was; otherwise the user becomes the changed record |
| Auth.Session.Logout | contexts/AuthContext.tsx:182-189 | no user afterwards |
| Auth.Session.IsAuthenticated | contexts/AuthContext.tsx:203 | authenticated iff there is a user |
| AppState.NewRequest | contexts/AppContext.tsx:41-48 | a new request copies the screen's data, takes the given id and time, is open and has no applicants |
| AppState.ApplyOne | contexts/AppContext.tsx:55-59 | the `map` callback: only the applicants may change; a request with the id gets the applicant appended at the end, any other is returned as it was |
| AppState.Apply | contexts/AppContext.tsx:55-60 | same length; each request with the id gets the applicant appended, every other request is unchanged |
| AppState.ApplyUnknownId | contexts/AppContext.tsx:55-60 | an id no request has leaves the list as it was |
| AppState.ApplyTwice | contexts/AppContext.tsx:55-60 | applying twice lists the applicant twice (no deduplication) |
| AppState.ApplyKeepsIds | contexts/AppContext.tsx:55-60 | applying changes no request other than by growing its applicant list |
| AppState.Store.constructor | contexts/AppContext.tsx:19 | the list starts empty |
| AppState.Store.AddServiceRequest | contexts/AppContext.tsx:41-53 | exactly the new request is appended |
| AppState.Store.ApplyToServiceRequest | contexts/AppContext.tsx:55-63 | the list becomes `Apply` of the old one |
| AppState.Store.GetServiceRequests | contexts/AppContext.tsx:73 | returns the current list |
| Theme.ModeName | contexts/ThemeContext.tsx:5 | a mode is stored as one of `light`, `dark` and `auto` (`ParseModeName` reads it back) |
| Theme.ParseMode | contexts/ThemeContext.tsx:50-53 | a saved value is adopted iff it is `light`, `dark` or `auto`, and then as that mode |
| Theme.ParseModeName | contexts/ThemeContext.tsx:51-61 | a mode stored by `setThemeMode` is read back as the same mode |
| Theme.Resolve | contexts/ThemeContext.tsx:39-46 | light and dark resolve to themselves; auto is dark iff the system scheme is `dark` |
| Theme.Toggled | contexts/ThemeContext.tsx:68-71 | toggling picks an explicit mode whose scheme differs from the current one |
| Theme.ThemeState.constructor | contexts/ThemeContext.tsx:20-21 | starts in light mode with the light scheme |
| Theme.ThemeState.SetThemeMode | contexts/ThemeContext.tsx:39-66 | the mode is set; the scheme is re-resolved only when the mode changed |
| Theme.ThemeState.SystemChanged | contexts/ThemeContext.tsx:29-36 | a system change moves the scheme only in auto mode |
| Theme.ThemeState.ToggleTheme | contexts/ThemeContext.tsx:68-71 | the mode becomes explicit and the scheme flips |
| Theme.ThemeState.LoadThemePreference | contexts/ThemeContext.tsx:38-57 | a valid saved mode is adopted, and when it differs from the current one the `[themeMode]` effect re-resolves the scheme (a saved `auto` takes the system's); the same mode or anything else leaves the scheme |
| Theme.ToggleTwiceRestoresScheme | contexts/ThemeContext.tsx:68-71 | two toggles bring the scheme back under an explicit mode |
| RootLayout.Guard | app/_layout.tsx:103-190 | nothing while loading; signed out, only protected routes go to login; unverified users go to OTP unless there; verified users on auth screens or the root go home; users without a type go to the user-type screen unless there; incomplete onboarding outside the allowed routes resumes; completed users leave the auth group for the tabs |
| RootLayout.SignedOutOtpScreenGoesToLogin | app/_layout.tsx:118-127 | a signed-out user on the OTP screen is sent to login |
| RootLayout.CompletedUserLeavesOnboarding | app/_layout.tsx:183-188 | an onboarded user in the auth or onboarding group is sent to the tabs |
| RootLayout.TargetPath | app/_layout.tsx:112 | each target's segments join to its path |
| RootLayout.TargetRoute | app/_layout.tsx:111-118 | which of the guard's route tests each target passes |
| RootLayout.RedirectSettles | app/_layout.tsx:103-190 | after any redirect the guard, on the new route, is quiet or repeats the same target |
| RootLayout.UserTypeScreenRedirectsToItself | app/_layout.tsx:140-143 | a verified user without a type on the user-type screen is replaced onto the same screen |
| RootLayout.IsSuppressed | app/_layout.tsx:22-33 | only a string message is suppressed, and every string message naming one of the extension fragments is |
| RootLayout.OnError | app/_layout.tsx:20-41 | a suppressed error returns `true`; otherwise the original handler's answer, else `false` |
| RootLayout.ContentScriptMessageSuppressed | app/_layout.tsx:23-24 | a string message naming `content_script.js` is suppressed |
| RootLayout.NonStringMessageNotSuppressed | app/_layout.tsx:22-32 | a non-string message is never suppressed, even from the content script |
| IndexRedirect.Index | app/index.tsx:6-40 | a spinner exactly while loading; otherwise login, OTP, or the layout's home target |
| IndexRedirect.IndexOrder | app/index.tsx:18-39 | the checks apply in order and each target corresponds to exactly its condition |
| IndexRedirect.AgreesWithGuard | app/index.tsx:18-39 | at the root a signed-in user is sent where the layout guard sends them |
| IndexRedirect.SignedOutAtRoot | app/index.tsx:19-21 | signed out at the root the guard stays quiet and this screen goes to login |
| OtpVerify.SlotInput | app/auth/otp-verify.tsx:65-92 | input holding a non-digit is ignored; otherwise the slot keeps the first digit, or becomes empty |
| OtpVerify.CodeLength | app/auth/otp-verify.tsx:102 | with one-character slots the joined code is as long as the number of filled slots |
| OtpVerify.ErrorText | app/auth/otp-verify.tsx:128-148 | the error's `message`, else its `error`, else the fallback text |
| OtpVerify.VerifiedRedirect | app/auth/otp-verify.tsx:44-56 | only a user whose `isVerified` is `true` is redirected, and each target exactly when: the tabs iff onboarding is completed; the start screen iff it is not and the status is `in_progress` or a user type is set; the user-type screen otherwise |
| OtpVerify.OtpScreen.constructor | app/auth/otp-verify.tsx:25-28 | six empty slots, a 60-second countdown, no error, not verifying |
| OtpVerify.OtpScreen.ClearSlots | app/auth/otp-verify.tsx:124 | a new array of six empty slots, nothing else changed |
| OtpVerify.OtpScreen.HandleOtpChange | app/auth/otp-verify.tsx:65-92 | non-digit input keeps the slots; otherwise a copy with only that slot replaced |
| OtpVerify.OtpScreen.Tick | app/auth/otp-verify.tsx:58-62 | the countdown drops by one and stops at zero |
| OtpVerify.OtpScreen.StartVerify | app/auth/otp-verify.tsx:101-117 | a code is submitted iff it has six characters and no verification is in flight; then the error is cleared |
| OtpVerify.OtpScreen.FinishVerify | app/auth/otp-verify.tsx:117-135 | acceptance keeps the slots; a refusal or a thrown error sets its message and empties the slots; verifying ends |
| OtpVerify.OtpScreen.HandleResend | app/auth/otp-verify.tsx:138-152 | success restarts the countdown and empties the slots; a thrown error only sets its message |
| OtpVerify.CodeReadyIffFilled | app/auth/otp-verify.tsx:102-106 | the code can be submitted exactly when all six slots hold a digit |
| PhoneLogin.IsFormValid | app/auth/phone-login.tsx:100-108 | in OTP mode the form is valid exactly when the contact is usable; in password mode it also needs a non-blank password |
| PhoneLogin.HandleContinue | app/auth/phone-login.tsx:31-79 | refused iff the form is invalid, each reason exactly when it is the first check to fail (an unusable phone or email before a blank password); otherwise phone or email by method, and the password only in password mode |
| PhoneLogin.ErrorText | app/auth/phone-login.tsx:88 | the error's `message` when truthy, else its `error` when truthy, else the default login text |
| PhoneLogin.LoginDataValue | app/auth/phone-login.tsx:59-77 | the object passed to `login`: `authMethod` always, `phone`, `email` and `password` exactly when set, with their values |
| PhoneLogin.SubmitLogin | app/auth/phone-login.tsx:31-85 | refused iff the form is invalid, with the session unchanged; otherwise the session's user becomes the login record holding the whole `loginData` object as its phone number, and the OTP screen is never opened, because `login` resolves to `undefined` |
| PhoneLogin.DummyPhonePasses | app/auth/phone-login.tsx:96-107 | the demo number (line 17) passes the phone check |
| PhoneLogin.OtpValidityIgnoresPassword | app/auth/phone-login.tsx:100-108 | in OTP mode validity depends only on the phone number or the email |
| Signup.ContactFailure | app/auth/signup.tsx:49-62 | the email, phone-required and phone-length checks, each reported exactly when it is the first to fail; none iff the contact is acceptable |
| Signup.PasswordFailure | app/auth/signup.tsx:64-77 | the password-required, length and match checks, each reported exactly when it is the first to fail; none iff all pass |
| Signup.FirstFailure | app/auth/signup.tsx:43-78 | every one of the seven refusals is reported exactly when it is the first check to fail in source order; none iff the form is acceptable |
| Signup.BlankPasswordBeforeLength | app/auth/signup.tsx:64-72 | a password of spaces is refused as missing before its length is checked |
| Signup.RegisterPayload | app/auth/signup.tsx:84-91 | the trimmed name, the trimmed phone or email by method, the password, its confirmation and the role |
| Signup.ErrorText | app/auth/signup.tsx:113-124 | an `Error` gives its message and a string itself; a non-null object its truthy `message`, else its truthy `error`, else its `JSON.stringify` text; anything else the default text |
| Signup.MethodChoice.constructor | app/auth/signup.tsx:19-31 | email sign-up, an empty editable email |
| Signup.MethodChoice.Prefill | app/auth/signup.tsx:35-41 | a user's email locks email sign-up with that address; otherwise nothing changes |
| Signup.MethodChoice.Tap | app/auth/signup.tsx:155-172 | a tap switches the method only while the email is editable |
| ChangePassword.ValidatePassword | app/settings/change-password.tsx:31-45 | the first broken rule in the order length, uppercase, lowercase, digit; none iff the password is strong |
| ChangePassword.StrongIsNotBlank | app/settings/change-password.tsx:54-63 | a strong password is never blank |
| ChangePassword.Check | app/settings/change-password.tsx:47-73 | passes iff the current password is present, the new one strong, confirmed and different; each refusal holds exactly when every earlier check passes and its own fails, in the order current blank, new blank, `validatePassword` (with its problem), mismatch, unchanged |
| ChangePassword.HandleChangePassword | app/settings/change-password.tsx:47-90 | a refusal keeps the form; when the checks pass, a change the context makes is `Done` with the changed user and clears the form, and one it throws is `Failed` with the thrown message (or the default text when empty), the form kept |
| ChangePassword.FailureText | app/settings/change-password.tsx:86 | the thrown error's message when it has one, else the default text; never empty |
| ChangePassword.WrongCurrentPasswordFails | app/settings/change-password.tsx:76-87 | a set password the typed one does not match fails with `Current password is incorrect`, the form kept |
| ChangePassword.NoUserFails | app/settings/change-password.tsx:76-87 | with no user a well-formed change fails with `User not found` |
| Bookings.GetBookings | app/profile/bookings.tsx:27-36 | exactly the customer's own requests, or for anyone else exactly the requests they applied to that are not open |
| Bookings.Bucket | app/profile/bookings.tsx:39-41 | exactly the bookings with the tab's status |
| Bookings.BucketsDisjoint | app/profile/bookings.tsx:39-41 | no booking is in two tabs |
| Bookings.FilteredBookings | app/profile/bookings.tsx:43-69 | a blank query shows the whole bucket; otherwise exactly the bucket's bookings whose service, description or location contains the query, ignoring the case of ASCII letters |
| Bookings.FilteredIsSubsequence | app/profile/bookings.tsx:39-69 | the shown list keeps the order of the bucket, which keeps the order of the bookings |
| Bookings.StatusLabel | app/profile/bookings.tsx:129-133 | `Active` exactly for in progress, `Completed` exactly for completed, `Cancelled` for every other status |
| Bookings.OpenRequestNotBookedByApplicant | app/profile/bookings.tsx:31-35 | an open request never shows for a helper or business |
| ServiceOffer.ToggleServiceType | app/onboarding/helper-steps/step1-service-offer.tsx:139-147 | only the toggled id's membership flips; nothing else in the record changes |
| ServiceOffer.ToggleServiceTypeTwice | app/onboarding/helper-steps/step1-service-offer.tsx:139-147 | toggling an absent id twice restores the record |
| ServiceOffer.SelectLocation | app/onboarding/helper-steps/step1-service-offer.tsx:121-126 | a location whose id is already selected changes nothing; otherwise it is appended; distinct ids stay distinct |
| ServiceOffer.RemoveLocation | app/onboarding/helper-steps/step1-service-offer.tsx:132-137 | exactly the locations with other ids remain |
| ServiceOffer.SelectThenRemove | app/onboarding/helper-steps/step1-service-offer.tsx:121-137 | selecting a new location and removing it leaves the list without that id |
| ServiceOffer.CanAdvance | app/onboarding/helper-steps/step1-service-offer.tsx:149-160 | the three early returns of `handleNext`: it goes on exactly when a service type, a location and a work type are chosen |
| ServiceOffer.ChoicesUnlockNext | app/onboarding/helper-steps/step1-service-offer.tsx:149-160 | after toggling in a new service type, selecting any location and setting a work type, `handleNext` goes on |
| ServiceOffer.RemovingLastLocationBlocks | app/onboarding/helper-steps/step1-service-offer.tsx:132-160 | removing the only selected location blocks `handleNext` again |
| ServiceOffer.SearchStepFor | app/onboarding/helper-steps/step1-service-offer.tsx:62-68 | fetch the trimmed text iff it has at least two characters; clear iff it is blank |
| ServiceOffer.MapLocation | app/onboarding/helper-steps/step1-service-offer.tsx:101-105 | a `null` or `undefined` entry throws; the id and name fall back in source order |
| ServiceOffer.MapLocations | app/onboarding/helper-steps/step1-service-offer.tsx:101-105 | every entry mapped, in order; a throw iff some entry is `null` or `undefined` |
| ServiceOffer.LocationItems | app/onboarding/helper-steps/step1-service-offer.tsx:86-99 | every case of the envelope: with a truthy `locations`, its `data` array, else `locations` itself when an array, else nothing; otherwise the body when an array, else its `data` array, else nothing |
| ServiceOffer.LocationEnvelopesUnwrapped | app/onboarding/helper-steps/step1-service-offer.tsx:86-99 | a list wrapped as the body, as `locations`, as `locations.data` or as `data` is read back unchanged |
| ServiceOffer.LocationSearch.constructor | app/onboarding/helper-steps/step1-service-offer.tsx:56-59 | an empty box, no results, the dropdown closed |
| ServiceOffer.LocationSearch.Type | app/onboarding/helper-steps/step1-service-offer.tsx:242 | typing changes only the text |
| ServiceOffer.LocationSearch.TimerFired | app/onboarding/helper-steps/step1-service-offer.tsx:61-72 | a query of two or more trimmed characters is fetched; a blank box clears; one character changes nothing |
| ServiceOffer.LocationSearch.Received | app/onboarding/helper-steps/step1-service-offer.tsx:86-117 | a successful body gives the mapped list; a failure, a falsy body, or an entry whose mapping throws (the `catch`) gives an empty one; the dropdown is open iff the list is non-empty |
| ServiceOffer.LocationSearch.Select | app/onboarding/helper-steps/step1-service-offer.tsx:121-130 | hands on `SelectLocation`, empties the box and closes the dropdown |
| CompleteProfile.ToggleLanguage | app/onboarding/helper-steps/step3-complete-profile.tsx:124-135 | only the toggled language's membership flips, a missing list counting as empty |
| CompleteProfile.FormattedAddress | app/onboarding/helper-steps/step3-complete-profile.tsx:188-193 | the address is empty exactly when no part is present |
| CompleteProfile.OnePartAlone | app/onboarding/helper-steps/step3-complete-profile.tsx:188-193 | a single present part (street, city or region) is the whole address, with no separator |
| CompleteProfile.AllFourParts | app/onboarding/helper-steps/step3-complete-profile.tsx:188-193 | with all four parts present, the address is street, district, city and region in that order, separated by `, ` |
| CompleteProfile.StreetAndCity | app/onboarding/helper-steps/step3-complete-profile.tsx:188-193 | street and city alone are joined with one separator |
| CompleteProfile.MapConfirm | app/onboarding/helper-steps/step3-complete-profile.tsx:175-206 | with a geocoding result the address and both coordinates change together; otherwise nothing changes |
| CompleteProfile.OpenMap | app/onboarding/helper-steps/step3-complete-profile.tsx:161-173 | re-centres on the stored pin iff both coordinates are truthy |
| CompleteProfile.EquatorPinIsMissing | app/onboarding/helper-steps/step3-complete-profile.tsx:163 | a latitude of exactly 0 counts as no pin |
| CompleteProfile.FormatLanguage | app/onboarding/helper-steps/step3-complete-profile.tsx:111-114 | a `null` or `undefined` entry throws; a string becomes a language with that name; a named entry keeps its name |
| CompleteProfile.LanguageItems | app/onboarding/helper-steps/step3-complete-profile.tsx:100-109 | every case of the envelope: the body when an array, else its `data` array, else a truthy `languages` when an array, else `languages.data \|\| []`; with none of these, an empty list |
| CompleteProfile.LanguageEnvelopesUnwrapped | app/onboarding/helper-steps/step3-complete-profile.tsx:100-109 | a list wrapped as the body, as `data`, as `languages` or as `languages.data` is read back unchanged |
| CompleteProfile.FormatAll | app/onboarding/helper-steps/step3-complete-profile.tsx:111-114 | every entry formatted in order, or a throw caused by a `null` or `undefined` entry |
| CompleteProfile.LoadedLanguages | app/onboarding/helper-steps/step3-complete-profile.tsx:95-121 | a failed response keeps the list; an array body of entries gives one language per entry |
| ProfileVerification.UploadNic | app/onboarding/helper-steps/step2-profile-verification.tsx:37-63 | the NIC file becomes the mock file and nothing else changes |
| ProfileVerification.UploadPhoto | app/onboarding/helper-steps/step2-profile-verification.tsx:65-91 | the photo becomes the mock file and nothing else changes |
| ProfileVerification.HandleNext | app/onboarding/helper-steps/step2-profile-verification.tsx:93-100 | the step is left iff the NIC number is not blank; otherwise the alert text |
| ProfileVerification.UploadsDoNotUnlock | app/onboarding/helper-steps/step2-profile-verification.tsx:93-100 | uploads never change whether the step can be left |
| Stepper.Label | components/ui/stepper.tsx:20 | the step's label when present and non-empty, else `Step n` |
| Stepper.View | components/ui/stepper.tsx:17-56 | step `index` is numbered `index + 1`, active iff it is the current step, completed iff before it, with a connector iff not last |
| Stepper.Steps | components/ui/stepper.tsx:16 | one view per step, none for a negative count |
| Stepper.AtMostOneActive | components/ui/stepper.tsx:18-19 | at most one step is active and none is both active and completed |
| Stepper.ConnectorCount | components/ui/stepper.tsx:56 | every step but the last has a connector |
| HelperProfile.Steps.constructor | app/onboarding/helper-profile.tsx:46 | the counter starts at step 1 |
| HelperProfile.Steps.HandleNext | app/onboarding/helper-profile.tsx:71-75 | the step advances up to 3 and stays in range |
| HelperProfile.Steps.HandleBack | app/onboarding/helper-profile.tsx:77-81 | the step goes back down to 1 and stays in range |
| HelperProfile.Screen | app/onboarding/helper-profile.tsx:130-161 | a step renders a screen iff it is 1, 2 or 3 |
| HelperProfile.LocationLabel | app/onboarding/helper-profile.tsx:100 | the location's area when truthy, else its name |
| HelperProfile.LocationLabels | app/onboarding/helper-profile.tsx:100-110 | one label per location, in order |
| HelperProfile.Offering | app/onboarding/helper-profile.tsx:93-101 | exactly the seven fields: the id `<type>-<stamp>`, the type as service name and category, the description, the parsed rate (`undefined` without one), `month` and the location labels |
| HelperProfile.OfferingIdsDistinct | app/onboarding/helper-profile.tsx:93-101 | offerings of one submission have different ids for different service types |
| HelperProfile.Offerings | app/onboarding/helper-profile.tsx:93-101 | one offering per selected service type, in order |
| HelperProfile.HandleSubmit | app/onboarding/helper-profile.tsx:83-111 | refused iff the user has no truthy name; otherwise exactly the user's name and email, the bio and experience typed, the offerings and the location labels, with no `userType` or `ownerName` |
| HelperProfile.SubmitThroughCompleteOnboarding | app/onboarding/helper-profile.tsx:104-119 | the submitted profile keeps the helper's name through the corrected `completeOnboarding` and loses it through the one as written |
| ProfileEdit.InitialLanguage | app/profile/edit.tsx:96-98 | a number is kept, a string is read by the radix-less `parseInt` (a `0x` prefix in base 16), anything else dropped |
| Strings.ParseIntAuto | app/profile/edit.tsx:97 | `parseInt` with no radix: without a `0x`/`0X` prefix after the sign it reads exactly as `parseInt(s, 10)`; with one it is `NaN` exactly when no hexadecimal digit follows |
| Strings.ParseHexDigits | app/profile/edit.tsx:97 | `0x` or `0X` and hexadecimal digits read as their base-16 value, negated after a minus sign |
| Strings.HexPrefixWithoutDigits | app/profile/edit.tsx:97 | a bare `0x` prefix is `NaN` without a radix, where base 10 reads `0` |
| Strings.ParseIntAutoOfIntToString | app/profile/edit.tsx:97 | without a radix, `parseInt` still reads back every integer's decimal text |
| Strings.ParseIntAutoNonNumeric | app/workers/add.tsx:253-254 | text starting with anything but white space, a sign or a digit is `NaN` |
| ProfileEdit.InitialLanguageList | app/profile/edit.tsx:96-99 | no more entries than the profile's list, each one the parse of an entry; when every entry parses, the result is their parses in the same order |
| ProfileEdit.InitialLanguageListAppend | app/profile/edit.tsx:96-99 | the map-and-filter distributes over concatenation, so kept entries stay in their original order |
| ProfileEdit.InitialLanguages | app/profile/edit.tsx:93-102 | anyone but a helper starts with no languages |
| ProfileEdit.SyncedLanguage | app/profile/edit.tsx:316-322 | an object gives `id || value` and is dropped exactly when that is `null`; a number is kept; a string is kept as its radix-less parse iff it parses; `null`, `undefined` and booleans are dropped; nothing kept is `null` |
| ProfileEdit.SyncedLanguages | app/profile/edit.tsx:314-323 | no more entries than the list, none of them `null`, each derived from an entry; when none is dropped, the result is the entries' values in the same order |
| ProfileEdit.SyncedLanguagesAppend | app/profile/edit.tsx:314-323 | re-syncing distributes over concatenation, so kept entries stay in their original order |
| ProfileEdit.NullObjectDropped | app/profile/edit.tsx:316-322 | an object entry whose `id || value` is `null` is filtered out wherever it stands, the entries around it kept in order |
| ProfileEdit.ObjectWithoutIdStaysUndefined | app/profile/edit.tsx:317-322 | an object entry with neither `id` nor `value` survives as `undefined` |
| ProfileEdit.NormaliseCityId | app/profile/edit.tsx:327-335 | a falsy id becomes `null`, a non-zero number is kept, a string becomes a number iff it parses |
| ProfileEdit.ToggleLanguage | app/profile/edit.tsx:401-412 | only the toggled id's membership flips |
| ProfileEdit.KindOf | app/profile/edit.tsx:446-451 | the user's type compared with `helper`, `user` and `business` |
| ProfileEdit.AgeValue | app/profile/edit.tsx:470 | a blank age is `undefined`; otherwise its radix-less parse, or `null` (JSON's `NaN`) when it does not parse |
| ProfileEdit.HandleSave | app/profile/edit.tsx:445-483 | a blank name refuses iff the user is a helper, customer or business; otherwise each field is set under the user type that owns it, the address only when non-empty |
| WorkerAdd.IdentityFailure | app/workers/add.tsx:203-216 | name, phone and service checks: each refusal holds exactly when its field is blank and the earlier ones are not |
| WorkerAdd.DetailFailure | app/workers/add.tsx:218-241 | experience, age, gender, religion and language checks: each refusal holds exactly when its field is missing and the earlier ones are present |
| WorkerAdd.FirstFailure | app/workers/add.tsx:202-241 | the first failing check in source order: each of the eight refusals holds exactly when its field is missing and every earlier one is present; none iff every required field is present |
| WorkerAdd.TrimOrNull | app/workers/add.tsx:259-260 | `null` iff the text is blank, otherwise the trimmed non-empty text |
| WorkerAdd.WorkerPayload | app/workers/add.tsx:246-261 | trimmed name and phone, the selections and pin address as chosen, the pin's latitude and longitude iff a pin, experience and age by the radix-less `parseInt`, skills and bio trimmed or `null` when blank |
| WorkerAdd.HandleSubmit | app/workers/add.tsx:202-261 | accepted iff acceptable, sending the form's payload with the required fields non-empty; a refusal shows the first failing check's message |
| WorkerAdd.UnreadableExperiencePasses | app/workers/add.tsx:218-253 | an experience `parseInt` cannot read passes the checks and is sent as `NaN` |
| WorkerAdd.GeocodedAddress | app/workers/add.tsx:131-143 | the first result's non-empty name, street, district and city joined with `, `, else the coordinate fallback |
| WorkerAdd.WorkerForm.constructor | app/workers/add.tsx:75-105 | every field at its first value |
| WorkerAdd.WorkerForm.ToggleLanguage | app/workers/add.tsx:186-192 | only the language list changes, the language's membership flipping |
| WorkerAdd.WorkerForm.ToggleService | app/workers/add.tsx:194-200 | only the service selection changes, the service's membership flipping |
| WorkerAdd.WorkerForm.ChooseGender | app/workers/add.tsx:463 | the gender becomes the option lower-cased |
| WorkerAdd.WorkerForm.DropPin | app/workers/add.tsx:145-150 | the pin and its geocoded address are set together |
| WorkerAdd.WorkerForm.AddAnother | app/workers/add.tsx:268-284 | all thirteen fields return to their first values |
| WorkerAdd.WorkerForm.ClearIdentity | app/workers/add.tsx:271-275 | name, phone, services, pin and address are emptied; the other eight fields are kept |
| WorkerAdd.WorkerForm.ClearDetails | app/workers/add.tsx:276-283 | experience, age, gender, religion, languages, skills and bio are emptied and availability is `full_time`; the other five fields are kept |
| WorkerAdd.ResetFormIsRefused | app/workers/add.tsx:203-284 | after "Add Another" the next submission stops at the name check |
| AddWorkers.CompleteLabels | app/onboarding/add-workers.tsx:467 | the labels for one and for two workers, in full |
| AddWorkers.CompleteLabelNoun | app/onboarding/add-workers.tsx:467 | for every roster size: the label ends in `workers)` exactly when there is more than one worker, and is `Complete Setup (1 worker)` exactly when there is one |
| AddWorkers.AppendComplete | app/onboarding/add-workers.tsx:151 | appending a complete worker keeps every worker complete |
| AddWorkers.Check | app/onboarding/add-workers.tsx:123-137 | the first blank field among name, phone and CNIC refuses; all present adds |
| AddWorkers.NewWorker | app/onboarding/add-workers.tsx:139-150 | a draft that passes the checks gives a complete worker |
| AddWorkers.EmptyDraftRefused | app/onboarding/add-workers.tsx:124-161 | a cleared form is refused for the name |
| AddWorkers.Roster.constructor | app/onboarding/add-workers.tsx:52-60 | no workers and an empty form |
| AddWorkers.Roster.ToggleLanguage | app/onboarding/add-workers.tsx:105-111 | only the language selection changes |
| AddWorkers.Roster.HandleAddWorker | app/onboarding/add-workers.tsx:123-164 | a failed check changes nothing; a passing form appends one worker and is cleared |
| AddWorkers.Roster.ClearForm | app/onboarding/add-workers.tsx:154-161 | the eight fields are emptied, the roster kept |
| AddWorkers.Roster.HandleRemoveWorker | app/onboarding/add-workers.tsx:166-168 | exactly the workers with other ids remain, in order |
| ServiceOfferings.Offerings | app/profile/service-offerings.tsx:39-40 | a missing profile or list reads as empty; a present list, even an empty one, is read as it is |
| ServiceOfferings.WithOfferings | app/profile/service-offerings.tsx:75-108 | the profile's other fields are kept and the list replaced |
| ServiceOfferings.AfterAdd | app/profile/service-offerings.tsx:74-80 | the new offering goes at the end, the other fields kept |
| ServiceOfferings.AfterDelete | app/profile/service-offerings.tsx:102-109 | exactly the offerings with other ids remain, in order, the other fields kept |
| ServiceOfferings.DeleteUndoesAdd | app/profile/service-offerings.tsx:74-109 | deleting an offering just added under a fresh id restores the list |
| ServiceOfferings.Check | app/profile/service-offerings.tsx:50-62 | name, category and locations are checked in that order |
| ServiceOfferings.NewOffering | app/profile/service-offerings.tsx:64-72 | the given id and the name as typed; a blank description is left out and any other is trimmed; an empty price is left out and any other kept as typed; category, unit and locations as chosen |
| ServiceOfferings.NameKeepsSpaces | app/profile/service-offerings.tsx:51-66 | the name is checked trimmed but stored as typed: every name with leading or trailing white space is stored different from its trim |
| ServiceOfferings.OfferingForm.constructor | app/profile/service-offerings.tsx:32-37 | empty fields, priced per month |
| ServiceOfferings.OfferingForm.ToggleLocation | app/profile/service-offerings.tsx:42-48 | only the location selection changes |
| ServiceOfferings.OfferingForm.HandleAddService | app/profile/service-offerings.tsx:50-90 | a failed check writes nothing and changes nothing; otherwise the profile with the new offering is written and the form reset but for its unit |
| ServiceOfferings.OfferingForm.ResetForm | app/profile/service-offerings.tsx:83-87 | five fields emptied, the price unit kept |
| AddServiceOffering.HandleAddService | app/profile/add-service-offering.tsx:139-178 | refused iff no service type is selected; otherwise a PUT with status `active` in edit mode, else a POST, carrying the selection, the work type, the rate text when non-empty (else `null`) and the description when non-empty (else `null`) |
| AddServiceOffering.FailureText | app/profile/add-service-offering.tsx:186 | the response's `message`, else its `error`, else the mode's default text |
| AddServiceOffering.ToggleServiceType | app/profile/add-service-offering.tsx:130-137 | only the toggled id's membership flips |
| AddServiceOffering.FindType | app/profile/add-service-offering.tsx:100 | a type of the list whose slug or name is the key, or none iff no type matches |
| AddServiceOffering.FindTypeFirst | app/profile/add-service-offering.tsx:100 | the type found is the first match: no type before it matches |
| AddServiceOffering.Resolve | app/profile/add-service-offering.tsx:100-101 | without the context's list the lookup throws; an unknown key is kept; a known one becomes its id as text |
| AddServiceOffering.NormaliseId | app/profile/add-service-offering.tsx:89-104 | an object with an id gives the id, a number its text, a numeric string itself, another string its lookup; `null` throws |
| AddServiceOffering.NormaliseIds | app/profile/add-service-offering.tsx:89-104 | each entry normalised, in order; a throw iff some entry throws |
| AddServiceOffering.SlugNeedsServiceTypes | app/profile/add-service-offering.tsx:42-101 | without the context's list a slug fails the whole load while numeric ids load |
| AddServiceOffering.Listing | app/profile/add-service-offering.tsx:84 | a truthy `listing`, else a truthy `service_listing`, else the body itself |
| AddServiceOffering.LoadServiceListing | app/profile/add-service-offering.tsx:83-123 | a non-empty service-type list loads iff every entry normalises and sets those ids; otherwise a single type loads iff it resolves and sets that one id; with neither the selection is left alone; work type, rate (as text) and description are set to the listing's values iff present |
| JobCreate.Message | app/job/create.tsx:189-196 | every check's message is non-empty, so a failed check always stops the handler |
| JobCreate.FirstError | app/job/create.tsx:185-198 | the else-if chain settles on the first failing check in source order; none iff every check passes |
| JobCreate.UserId | app/job/create.tsx:203 | the user's id when truthy, else `guest`; never falsy |
| JobCreate.Job | app/job/create.tsx:202-216 | the job carries the form's fields as typed, the pin's latitude and longitude iff a pin, the typed salary as budget iff one was typed |
| JobCreate.JobScreen.constructor | app/job/create.tsx:181-182 | no form error, not submitting |
| JobCreate.JobScreen.HandleCreate | app/job/create.tsx:185-225 | a failed check shows its message and calls nothing; otherwise the job is passed on, the attempt resolves or fails with no form error, and submitting ends |
| JobCreate.ServiceTypeName | app/job/create.tsx:97-99 | a string entry as it is, otherwise the first truthy of name, slug and label, else `''`; a `null` or `undefined` entry throws |
| JobCreate.ServiceTypeNames | app/job/create.tsx:97-99 | every entry mapped in order; a throw iff an entry is `null` or `undefined` |
| JobCreate.FetchedServiceTypes | app/job/create.tsx:89-109 | only truthy names are kept; no data leaves the list |
| JobCreate.StringListKept | app/job/create.tsx:95-100 | a list of strings keeps its non-empty strings, in order |
| JobCreate.UnnamedEntriesDropped | app/job/create.tsx:98-100 | unnamed objects and empty strings are dropped and a slug-only entry keeps its slug |
| RequestsCreate.HandleCreate | app/requests/create.tsx:39-70 | the four form checks in order, then the user check; otherwise the request carries the form and the user's id and name |
| RequestsCreate.ButtonMirrorsChecks | app/requests/create.tsx:183-187 | the button is enabled exactly when no form check refuses |
| RequestsCreate.MissingUserNeverSubmits | app/requests/create.tsx:32-60 | with no user in the app context no request is ever added |
| RequestsCreate.Create | app/requests/create.tsx:39-70 | `handleCreate` against the store: its outcome is `HandleCreate`; an accepted request is appended by `addServiceRequest` as one open request with the form's service name, and a refusal leaves the store unchanged |
| OnboardingStart.FirstRefusal | app/onboarding/start.tsx:209-224 | name, city and pin are checked in that order; none iff all present |
| OnboardingStart.ButtonMirrorsChecks | app/onboarding/start.tsx:518 | the button is disabled exactly while saving or when a check would refuse |
| OnboardingStart.ProfileUpdate | app/onboarding/start.tsx:229-235 | exactly the trimmed name, the city, the address and the pin's coordinates |
| OnboardingStart.Redirect | app/onboarding/start.tsx:240-248 | helpers go to the helper profile, businesses to the business profile, everyone else to the tabs |
| OnboardingStart.AfterContinueAsWritten | app/onboarding/start.tsx:237-248 | as written, a customer ends with the pre-save user plus a completed status |
| OnboardingStart.ContinueAsWrittenLosesName | app/onboarding/start.tsx:237-248 | a customer without a stored name ends with no name and no pin address |
| OnboardingStart.Updated | app/onboarding/start.tsx:229-237 | a field the profile update sets takes its new value, every other field keeps the user's, the onboarding status included |
| OnboardingStart.WithStatus | app/onboarding/start.tsx:245 | the onboarding status becomes `completed` and every other field is kept |
| OnboardingStart.AfterContinue | app/onboarding/start.tsx:229-248 | corrected: the profile fields are merged, then a customer's status becomes completed |
| OnboardingStart.ContinueKeepsProfile | app/onboarding/start.tsx:229-248 | both agree for helpers and businesses; the corrected one keeps the entered name, which the written one loses |
| OnboardingStart.ErrorText | app/onboarding/start.tsx:250-258 | an `Error`'s message, a string itself, an object's `message`, `error` or text, otherwise the default |
| OnboardingStart.FilteredCities | app/onboarding/start.tsx:266-268 | exactly the cities whose name contains the query ignoring the case of ASCII letters, in order |
| OnboardingStart.EmptyQueryKeepsAll | app/onboarding/start.tsx:266-268 | an empty query keeps every city |
| OnboardingStart.StartScreen.constructor | app/onboarding/start.tsx:40-57 | empty fields, no city, no pin, not loading |
| OnboardingStart.StartScreen.Prefill | app/onboarding/start.tsx:73-89 | each truthy stored field is taken, the pin only with both coordinates; the rest stays |
| OnboardingStart.StartScreen.HandleContinue | app/onboarding/start.tsx:209-264 | a refusal changes nothing; otherwise the session's user becomes `AfterContinueAsWritten` (for a customer, the delayed write through the pre-save closure) and the redirect follows the user's type |
| Nic.NicInput | app/onboarding/business-profile.tsx:396-397 | the field holds exactly the digits of the first 13 typed characters, in the order typed (a filter on digits, a subsequence of that prefix); digits within the limit are kept as typed |
| Nic.DigitsOfIsFilter | app/onboarding/business-profile.tsx:397 | removing every non-digit is the same as filtering on digits |
| Nic.NicInputStable | app/onboarding/business-profile.tsx:396-397 | filtering a filtered value changes nothing |
| Nic.TypedNicTrimmed | app/onboarding/business-profile.tsx:396-397 | a value the field holds is its own trim and blank only when empty |
| Nic.Extension | app/onboarding/business-profile.tsx:198-199 | the lower-cased text after the last dot |
| Strings.SplitLastPiece | app/onboarding/business-profile.tsx:198 | the last piece of a split on one character is what follows its last occurrence, however many precede it |
| Nic.ExtensionAfterDot | app/onboarding/business-profile.tsx:198-199 | any name's extension is the lower-cased text after its last dot |
| Nic.MimeType | app/onboarding/business-profile.tsx:200-203 | pdf, png and gif get their types; everything else is sent as JPEG |
| Nic.NativeUpload | app/onboarding/business-profile.tsx:205-209 | the picked uri, the stored name or `nic.<ext>`, and the extension's type |
| Nic.UploadOfDottedName | app/onboarding/business-profile.tsx:198-209 | a file without a stored name goes up as `nic.<ext>`, its extension after the last dot lower-cased, with that extension's type |
| BusinessProfile.FirstRefusal | app/onboarding/business-profile.tsx:151-170 | business name, pin, image and a 13-digit number are checked in that order |
| BusinessProfile.ButtonMirrorsChecks | app/onboarding/business-profile.tsx:396-411 | for a number the field can hold, the button is disabled exactly while saving or when a check would refuse |
| BusinessProfile.BlankNumberEnablesButton | app/onboarding/business-profile.tsx:405-411 | thirteen spaces would enable the button, and the check at line 167 would refuse them |
| BusinessProfile.ProfileRecord | app/onboarding/business-profile.tsx:175-183 | exactly seven fields: the business name, the owner's name or `''`, one location that is also the business address, no offerings, and the pin's latitude and longitude (`undefined` without a pin) |
| BusinessProfile.CompletionKeepsOwnerName | app/onboarding/business-profile.tsx:175-185 | completing onboarding with this record keeps a named user's name, before and after the correction |
| BusinessProfile.VerificationRequest | app/onboarding/business-profile.tsx:188-211 | the trimmed number and the native upload of the picked image, named by the stored name or else `nic.<ext>` |
| BusinessProfile.ResultToast | app/onboarding/business-profile.tsx:219-228 | the first toast of each ending: success, the response's message or the rejection default, or the thrown default |
| BusinessProfile.AttemptEnding | app/onboarding/business-profile.tsx:219-230 | a failure shows its one toast and stays; a success goes to `/` only when `refreshProfile()` resolves, otherwise the success toast is followed by the catch toast and the screen stays |
| BusinessProfile.NoRefreshNeverLeaves | app/onboarding/business-profile.tsx:219-230 | with no `refreshProfile` in the auth context, no attempt leaves the screen and a success ends on `Failed to complete onboarding` |
| BusinessVerification.HandleSubmit | app/onboarding/business.tsx:64-131 | the image is checked, then the number; otherwise the trimmed number is sent with the upload, warning iff its format is non-standard |
| BusinessVerification.FormatNeverBlocks | app/onboarding/business.tsx:82-90 | a number of non-standard format is still sent, with a warning |
| BusinessVerification.TypedNumberFormat | app/onboarding/business.tsx:80-86 | a number the field (line 224) can hold never has the dashed form, and is standard iff it has 13 digits |
| BusinessVerification.PickedName | app/onboarding/business.tsx:55-56 | the part of the uri after its last slash: it holds no slash, and a uri without one is its own name |
| BusinessVerification.PickedNameAfterSlash | app/onboarding/business.tsx:55-56 | whatever precedes the last slash, the name is the text after it |
| BusinessVerification.ResultToast | app/onboarding/business.tsx:143-154 | the first toast of each ending: success, the response's message or its default, or the error's message or its default |
| BusinessVerification.AttemptEnding | app/onboarding/business.tsx:143-157 | a failure shows its one toast and stays; a success reaches `/business/dashboard` only when `refreshProfile()` resolves, otherwise the success toast is followed by the refresh error's toast and the screen stays |
| BusinessVerification.NoRefreshNeverLeaves | app/onboarding/business.tsx:143-157 | with no `refreshProfile` in the auth context, no attempt reaches the dashboard and a success ends on the refresh error's toast |
| Guide.AudienceOf | app/guide.tsx:142-145 | a guest iff there is no user; a worker or a business iff the type, lower-cased, is `helper` or `business`; a customer otherwise |
| Guide.ActiveSlides | app/guide.tsx:20-145 | a guest gets the intro slides, a worker the worker slides, a business the business slides and a customer the customer slides, each iff; every set has four slides and only its last is marked last |
| Guide.TypeCaseIgnored | app/guide.tsx:142 | the type `Helper` gets the worker slides |
| Guide.ButtonLabel | app/guide.tsx:245-247 | `Next` except on the last slide; there `Get Started` iff the audience is a customer and `Start Onboarding` iff it is not |
| Guide.CompletionRoute | app/guide.tsx:168-185 | nothing is routed when `completeGuide` is missing; a guest goes to sign-up, a worker to the helper profile or the start screen by status, a business to its profile, a customer to the tabs |
| Guide.GuideScreen.constructor | app/guide.tsx:136-145 | the screen starts on the first slide of the audience's set |
| Guide.GuideScreen.HandleNext | app/guide.tsx:158-166 | completes iff on the last slide; otherwise moves to the next slide |
| Guide.LabelMatchesNext | app/guide.tsx:158-247 | the button reads `Next` exactly on the slides where pressing it advances |
| WorkersIndex.ExtractWorkers | app/workers/index.tsx:64-73 | the first array among the body, `workers.data`, `workers` and `data`; otherwise none |
| WorkersIndex.EnvelopesUnwrapped | app/workers/index.tsx:64-73 | each known envelope gives back the list it wraps |
| WorkersIndex.WorkerList.constructor | app/workers/index.tsx:40-41 | no workers, loading |
| WorkersIndex.WorkerList.FetchWorkers | app/workers/index.tsx:54-82 | the list is replaced only after a successful response with a body; loading ends |
| WorkersIndex.Names | app/workers/index.tsx:92 | each element's `name`, in order; a throw iff an element is `null` or `undefined` |
| WorkersIndex.ServiceTypes | app/workers/index.tsx:89-95 | `''` without listings; a `null` or `undefined` worker throws |
| WorkersIndex.NamesOfTypesNamed | app/workers/index.tsx:92 | service types named `names` map back to those names |
| WorkersIndex.ServiceTypesOfNamed | app/workers/index.tsx:89-95 | a first listing with types named `names` shows the first two of them joined with `, ` |
| WorkersIndex.FirstWord | app/workers/index.tsx:105 | a space-free prefix of the label, empty iff the label is empty or starts with a space |
| WorkersIndex.DetailParts | app/workers/index.tsx:98-106 | one part per present item, in order: the services when non-empty, `<years>y exp` when the years are truthy, the label's first word when the label is truthy; a throw iff the services throw or the label is truthy but not a string |
| WorkersIndex.Details | app/workers/index.tsx:107 | the parts joined with ` • `, or `No details` exactly when there is no part or a single empty one; never empty |
| Strings.JoinEmpty | app/workers/index.tsx:107 | with a non-empty separator a join is empty iff there is no part or one empty part |
| WorkersIndex.GetWorkerDetails | app/workers/index.tsx:98-108 | the pushing loop gives exactly `Details` |
| WorkersIndex.ZeroExperienceOmitted | app/workers/index.tsx:104 | zero years shows the same line as none recorded |
| WorkersIndex.DetailsInOrder | app/workers/index.tsx:98-107 | with all three parts the line is services, years and first word joined with ` • ` |
| WorkersIndex.DisplayName | app/workers/index.tsx:172 | `name` when truthy, else `full_name` |
| BusinessDashboard.Dashboard.constructor | app/business/dashboard.tsx:42-43 | no workers, loading |
| BusinessDashboard.Dashboard.Counters | app/business/dashboard.tsx:56-59 | the worker count is the list's length; bookings are 0 |
| BusinessDashboard.Dashboard.Shown | app/business/dashboard.tsx:219 | at most the first five workers, in order |
| BusinessDashboard.Dashboard.FetchWorkers | app/business/dashboard.tsx:62-90 | the list is replaced by the same extraction as the workers screen only after a successful response with a body |
| BusinessDashboard.FreshDashboardWithoutEndpoint | app/business/dashboard.tsx:56-65 | with no workers endpoint the dashboard counts and shows no workers |
| BusinessDashboard.Element0 | app/business/dashboard.tsx:233 | an array's first element, `undefined` for an empty one |
| BusinessDashboard.ServicesPart | app/business/dashboard.tsx:233 | a `null` or `undefined` worker throws; `''` where the optional chain stops; a first listing's service-type array gives the names of its first two types joined with `, ` (a throw iff one of them is `null` or `undefined`); a non-array type list throws |
| BusinessDashboard.ReligionPart | app/business/dashboard.tsx:235 | throws iff the label is present but not a string; a missing label gives `''`; a string label gives its first word |
| BusinessDashboard.Candidates | app/business/dashboard.tsx:232-235 | the services part, `<years>y exp` or `''` by the years' truthiness, and the religion word, in that order; a throw iff the services or the label throw |
| BusinessDashboard.Details | app/business/dashboard.tsx:232-236 | the non-empty parts joined with ` • `, or `No details` exactly when all three are empty; never empty |
| BusinessDashboard.SameDetailsAsWorkerList | app/business/dashboard.tsx:232-236 | for a worker of the expected shape both screens write the same line |
| BusinessDashboard.LeadingSpaceLabel | app/business/dashboard.tsx:235-236 | a label starting with a space leaves a trailing separator on the workers screen but not here |
| BusinessDashboard.DisplayName | app/business/dashboard.tsx:229 | `full_name` when truthy, else `name` |
| BusinessDashboard.TitlesDiffer | app/business/dashboard.tsx:229 | the two screens' titles differ exactly when both names are truthy and different |
| NotificationService.RawList | services/notification.service.ts:27-42 | the body when it is an array, else its `notifications` array, else its `data` array, otherwise none |
| NotificationService.IdText | services/notification.service.ts:45 | always text: the clock's id when the id is missing, a non-empty string id itself, a number in decimal |
| NotificationService.Normalize | services/notification.service.ts:44-52 | exactly the seven fields, each with its fallback chain; the id is `IdText` of the entry's id |
| NotificationService.EmptyEntryDefaults | services/notification.service.ts:45-51 | an entry without fields gets every default |
| NotificationService.NormalizeStable | services/notification.service.ts:44-52 | a normalized entry is unchanged by a second pass |
| NotificationService.NormalizeAllStable | services/notification.service.ts:44-52 | normalizing a normalized list changes nothing |
| NotificationService.NormalizeAll | services/notification.service.ts:44 | every entry normalized, same length and order; a throw iff an entry is `null` or `undefined` |
| NotificationService.UnreadCount | services/notification.service.ts:58 | `unread_count`, else `unreadCount`, else 0 |
| NotificationService.GetNotifications | services/notification.service.ts:23-64 | a failed or body-less response is returned unchanged; otherwise only `data` is replaced, by the list and the unread count |
| NotificationService.ListFollowsRaw | services/notification.service.ts:44-59 | the returned list has one normalized entry per raw entry, in order |
| NotificationService.GetNotificationsStable | services/notification.service.ts:23-64 | running it on its own output changes nothing |

## Left out

- Rendering, styles, animations and layout arithmetic: these are presentation, not logic. This includes the OTP box widths and the guide's `Math.round` of the scroll offset, which set the slide index on a swipe.
- Floating point: `parseFloat` prices and rates, `Number(...)` and `NaN`, map coordinates and deltas, and `toFixed` address fallbacks.
  - `Js.Value` numbers are integers.
  - A parse that would give `NaN` is `None` or `null`.
  - Coordinates are opaque values or reals.
- Storage (`AsyncStorage`), `fetch`, `FormData`, the image picker, `expo-location` and `Linking` are foreign I/O. Their results are parameters, and storage is a map held by `ApiService.TokenStore`.
- Timers: the OTP countdown is a `Tick` method, and the 300 ms location-search debounce is a `TimerFired` method. The 100 ms delay of the onboarding start screen is not a timer here: `OnboardingStart.StartScreen.HandleContinue` runs the delayed code at once, through the closure of the render that started the save (`Auth.Session.UpdateUserCaptured`).
- `Date.now()` and `new Date().toISOString()` are parameters. `NotificationService.GetNotifications` takes one clock reading for all entries.
- Alerts, toasts shown by screens, and focus changes are UI effects. Screens return their message or outcome instead.
- The web error handlers of `app/_layout.tsx`: only `window.onerror` (`RootLayout.OnError`) is modelled. The `onunhandledrejection` handler, the `addEventListener` handlers and the installation of the handlers are global mutation of browser objects.
- The web blob upload path of the NIC screens: it goes through `fetch` and `FormData`. Only the native upload record is modelled (`Nic.NativeUpload`).
- Array-like objects (with a `length` and indexed keys) are treated as non-arrays, as `Array.isArray` treats them.
- A `userType` that is not a string, whose `toLowerCase()` throws in the guide, is treated as no type.
- Translation tables: arrays and inherited properties inside a table are not modelled. A table is nested string-keyed objects.
- `checkTokenAndLogout` in `app/onboarding/start.tsx` (lines 99-119) only reads storage and logs out.
- The format check of `app/onboarding/business.tsx` (lines 82-89) only logs. `BusinessVerification.FormatNeverBlocks` states that it does not block, and `BusinessVerification.TypedNumberFormat` states that it warns exactly for a typed number shorter than 13 digits.
- The city and language fetches of `app/profile/edit.tsx` are network plumbing around state setters.
- `markAsRead` and `getUnreadCount` in `services/notification.service.ts` only forward to the API.
- The auth context has no `resendOTP`, `register`, `completeGuide` or `refreshProfile`, and the app context has no `user`, `language`, `serviceTypes` or `addJob`. `API_ENDPOINTS` has no `WORKERS` entry. In the app, calling such a member throws, and reading such a field gives `undefined`.
  - The model keeps each as an optional parameter or a thrown value.
  - The consequences are stated where they matter: `RequestsCreate.MissingUserNeverSubmits`, `Guide.CompletionRoute`, `AddServiceOffering.SlugNeedsServiceTypes`, `BusinessDashboard.FreshDashboardWithoutEndpoint`, and `BusinessProfile.NoRefreshNeverLeaves` and `BusinessVerification.NoRefreshNeverLeaves` (a successful submission shows its success toast, then the catch toast, and stays on the screen).
- The `try`/`catch` blocks around `router.replace` in `app/_layout.tsx`: a redirect is a returned value here, so nothing can throw.
- JobCreate.FetchedServiceTypes: states only that every kept name is truthy and that a falsy body gives no list. The per-entry mapping and its order are stated by `JobCreate.ServiceTypeName` and `JobCreate.StringListKept`.
- CompleteProfile.LoadedLanguages: states the failure case and the length for an array body whose entries are all present. The envelope choice is in `CompleteProfile.LanguageItems`, and the per-entry formatting is in `CompleteProfile.FormatLanguage`.
- ServiceOffer.MapLocation: states the throwing case, the id when the entry's `id` is truthy, and the empty-name default. The `location_id`, `name` and `area_name` fallbacks are in its body but not in its contract.
- Bookings.GetBookings: states membership. The order is kept because it is a filter, which `Bookings.FilteredIsSubsequence` states for the search.
- RequestsCreate.HandleCreate: the user's id and name are carried as their string conversions, because the request record declares them as strings.
- OnboardingStart.StartScreen.Prefill: a stored name and pin address are taken as their string conversions, because the form fields are text inputs.
- Signup.MethodChoice.Prefill: only a non-empty string email locks the form. A truthy non-string email, which the app would also put into the text field, is treated as absent.
- SecondRunChangesNothing: idempotence is proved for the exact path, for files that name the old key file only inside copies of the old block. After the pattern path, a second run is not proved to change nothing, because text between two matches may still name the old key file.
- UserToken: only a non-empty string `user.token` counts as a token. The app returns any truthy `token` (`user.token || null`), and a non-string one then goes to `AsyncStorage.setItem` and into the `Bearer` header, whose behaviour on non-strings is not modelled.
- FilteredBookings: `toLowerCase` is modelled on the ASCII letters only (`Strings.ToLower`), so a search that differs from the text only in the case of a non-ASCII letter matches in the app and not in the model.
- FilteredCities: the same ASCII-only case folding as `Bookings.FilteredBookings`.
- ValidatePassword: lengths are counted in characters (code points), while JavaScript's `.length` counts UTF-16 code units, so a character outside the Basic Multilingual Plane (an emoji) counts once here and twice in the app. A password of four emoji passes the app's 8-character check and fails the model's.
- Signup.FirstFailure: the 10-character phone check and the 8-character password check count code points, with the same UTF-16 difference as `ChangePassword.ValidatePassword`.
- PhoneLogin.HandleContinue: the 10-character phone check counts code points, with the same UTF-16 difference.
- SearchStepFor: the two-character threshold counts code points, with the same UTF-16 difference.
- DropPin: the pin and its geocoded address are set in one step. In the app the pin is set first and the address only after `reverseGeocode` resolves, so the moment when the new pin shows beside the old address is not modelled.

## Findings

The screens and the session (`Auth.Session.CompleteOnboarding`, `OnboardingStart.StartScreen.HandleContinue`) follow the code as written. The corrected functions state the intended behaviour next to them.

| source | as written | input that shows it | evidently intended | confidence | as-written member | corrected member |
|---|---|---|---|---|---|---|
| contexts/AuthContext.tsx:152-161 | `completeOnboarding` sets `name` to `profileData.ownerName` unless the profile has a `userType` field. Neither profile type declares one, so a helper profile (which has `name` and no `ownerName`) sets the user's name to `undefined` | a signed-in helper named "Ali" completes onboarding with a helper profile whose `name` is "Ali" | take the helper profile's `name` for a helper profile, and `ownerName` for a business profile | high (not executed) | Auth.CompleteOnboardingAsWrittenErasesHelperName | Auth.CompleteOnboardingKeepsHelperName |
| app/onboarding/start.tsx:237-248 | for a customer, the delayed redirect calls the `updateUser` captured before the save. That closure merges `{onboardingStatus: 'completed'}` into the pre-save user and overwrites the name, city and pin address just saved | a customer with no stored name saves the name "Sara", a city and an address, then the delayed code runs | merge the completed status into the user as just saved | high (not executed) | OnboardingStart.ContinueAsWrittenLosesName | OnboardingStart.ContinueKeepsProfile |
