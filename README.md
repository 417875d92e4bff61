# Gymunity trainer portal — a Dafny model of its client-side logic

Gymunity's trainer portal is an Angular web application. In it, fitness trainers:

- register and log in;
- keep a public profile with a cover image and branding colours;
- build programs out of weeks, days and exercises;
- chat with their clients and with an assistant bot.

This project models the logic the browser runs itself: services, guards, interceptors, form validators, submit gates and the small state machines of the screens. It proves what that logic promises. Everything the server, the router or the browser does arrives as an input.

The layout follows the program, one module per source file:

- **Support modules:**
  - `Common`: `Option`, and JavaScript's truthiness, `trim`, `indexOf`, `includes`, `split`, `join` and `filter` on sequences.
  - `Json`: JavaScript values and property access.
  - `Forms`: files, `FormData` fields and the Angular validators used here.
  - `Http`: requests and error responses.
  - `ChatModels` and `ProgramModels`: the data records of the chat and of programs.
- **Services:**
  - `Notifications`: the toast and notification store.
  - `AuthService`: session storage and the user id carried by the token.
  - `TrainerService`: image URLs and error messages.
  - `TranslationService`: the current language and key lookup.
- **Guards and interceptors:**
  - `RoleGuard`.
  - `AuthInterceptor`: the bearer header.
  - `ErrorInterceptor`: the status-to-message rules and the 401 logout.
  - `MockDataInterceptor`: the routing rule and the well-formedness of the mock program.
- **Screens:**
  - `PasswordRules`: the three password rules of the portal, compared with each other.
  - `AccountSettings`, `ForgotPassword`, `Register`, `Settings` and `TrainerProfile`: the form screens.
  - `TrainerProfileModal`, `ProgramDetail`, `ProgramDetailModal` and `DashboardSidebar`: the profile and program views.
  - `ChatList`, `ChatDetail`, `ChatbotWidget`, `NewChatModal` and `Sidebar`: chat and navigation.

How the source is represented:

- **Components and services with fields:** a component or service whose fields change is a class with those fields. Each handler is a method whose `modifies` clause names the fields it may change. Its `ensures` clauses give the new state, or tie it to a specification function that lemmas describe.
- **Pure decisions:** validators, normalisers, message selection and routing are functions that name their results. Lemmas state their properties: round trips, idempotence, precedence, and "nothing else changes".
- **Requests, emits and navigations** are returned values.
- **Browser storage** is a `map<string, string>`.
- **Events** are method calls:
  - an HTTP reply calls a success or failure handler;
  - a SignalR event calls an event method;
  - a timer that fires calls an "elapsed" method, and a pending timer is a boolean flag.
- **The dashboard's program list** is an `array`, because `loadProgramDetails` writes into it in place.

## Model

| member | source | states |
|---|---|---|
| Notifications.UnreadCount | src/app/core/services/notification.service.ts:63-66 | the unread count never exceeds the number of entries |
| Notifications.MarkRead | src/app/core/services/notification.service.ts:38-44 | markAsRead keeps the length of the list |
| Notifications.MarkAllRead | src/app/core/services/notification.service.ts:46-50 | markAllAsRead keeps the length and leaves no unread entry |
| Notifications.MarkReadEffect | src/app/core/services/notification.service.ts:38-44 | markAsRead sets the read flag exactly on the entries with that id; every other field, the order and the length are kept |
| Notifications.MarkReadIdempotent | src/app/core/services/notification.service.ts:38-44 | marking an id read twice is the same as marking it once |
| Notifications.MarkReadUnread | src/app/core/services/notification.service.ts:38-44 | after markAsRead(id) the unread entries are exactly the unread entries with another id, in their order |
| Notifications.MarkAllReadEffect | src/app/core/services/notification.service.ts:46-50 | markAllAsRead keeps every entry except its flag, and the unread count becomes 0 |
| Notifications.WithoutEffect | src/app/core/services/notification.service.ts:52-56 | removeNotification keeps exactly the entries with another id, in their old order; an unknown id changes nothing |
| Notifications.UnreadCountPrepend | src/app/core/services/notification.service.ts:25-36 | putting an unread entry in front adds one to the unread count |
| Notifications.NotificationService.constructor | src/app/core/services/notification.service.ts:17-20 | the service starts with no entries and a counter of 0 |
| Notifications.NotificationService.UpdateUnreadCount | src/app/core/services/notification.service.ts:63-66 | the counter is set to the number of unread entries; the list is unchanged |
| Notifications.NotificationService.AddNotification | src/app/core/services/notification.service.ts:25-36 | one unread entry with the given fields goes in front of the old list; the counter stays equal to the unread count |
| Notifications.NotificationService.MarkAsRead | src/app/core/services/notification.service.ts:38-44 | the list becomes MarkRead of the old list and the counter the unread count of the entries with another id |
| Notifications.NotificationService.MarkAllAsRead | src/app/core/services/notification.service.ts:46-50 | every entry is read and the counter is 0 |
| Notifications.NotificationService.RemoveNotification | src/app/core/services/notification.service.ts:52-56 | the entries with the id are removed; the counter invariant is kept |
| Notifications.NotificationService.ClearAll | src/app/core/services/notification.service.ts:58-61 | the list is empty and the counter is 0 |
| Notifications.NotificationService.ShowSuccess | src/app/core/services/notification.service.ts:68-72 | exactly one unread success entry is added in front, with a toast of the same title and message |
| Notifications.NotificationService.ShowError | src/app/core/services/notification.service.ts:74-77 | an error toast only; the list and the counter cannot change (no modifies clause) |
| Notifications.NotificationService.ShowWarning | src/app/core/services/notification.service.ts:79-81 | a warning toast only; the list and the counter cannot change |
| Notifications.NotificationService.ShowInfo | src/app/core/services/notification.service.ts:83-85 | an info toast only; the list and the counter cannot change |
| PasswordRules.WeakPassword | src/app/features/dashboard/account-settings/account-settings.component.ts:85-97 | an empty value is never weak; a non-empty one is weak exactly when an upper-case letter, a lower-case letter, a digit or one of !@#$%^&* is missing |
| PasswordRules.LookaheadWithoutTerminators | src/app/features/auth/forgot-password.component.ts:51 | without a line terminator in the text, a `(?=.*[C])` lookahead succeeds exactly when the text holds a member of C |
| PasswordRules.PatternTestIsRegex | src/app/features/auth/forgot-password.component.ts:51 | the character-class scans agree with the regular expression's meaning on every text |
| PasswordRules.PatternTestMeans | src/app/features/auth/forgot-password.component.ts:46-53 | the pattern accepts exactly a text of eight or more characters with all four classes and no line terminator |
| PasswordRules.MatchRulesDiffer | src/app/features/auth/forgot-password.component.ts:69-78 | the reset-screen match rule and the account-settings/registration rule disagree exactly when one password is empty and the other is not |
| PasswordRules.StrengthSymbolsArePatternSymbols | src/app/features/dashboard/account-settings/account-settings.component.ts:89-96 | every symbol the strength check counts is also in the pattern's symbol class |
| PasswordRules.StrongPasswordMatchesPattern | src/app/features/dashboard/account-settings/account-settings.component.ts:63-67 | a password account settings accepts passes the registration/reset pattern unless it holds a line terminator |
| PasswordRules.PatternAcceptsWeakPassword | src/app/features/auth/register.component.ts:45 | a password whose only symbol is `(` passes the pattern but is weak for account settings |
| PasswordRules.PatternAcceptsSample | src/app/features/auth/register.component.ts:45 | a password with one character of each class passes the pattern |
| PasswordRules.StrongPasswordWithLineBreak | src/app/features/dashboard/account-settings/account-settings.component.ts:85-97 | a password with a line break can be strong for account settings yet fail the pattern |
| AccountSettings.TabFromName | src/app/features/dashboard/account-settings/account-settings.component.ts:43-47 | a text names a tab exactly when it is one of the four tab names, and then that tab |
| AccountSettings.TabNameRoundTrip | src/app/features/dashboard/account-settings/account-settings.component.ts:43-47 | every tab is read back from its own name |
| AccountSettings.AdoptTab | src/app/features/dashboard/account-settings/account-settings.component.ts:43-47 | a query parameter naming a tab is adopted; anything else (absent, empty, unknown) leaves the tab unchanged |
| AccountSettings.NewPasswordValidMeans | src/app/features/dashboard/account-settings/account-settings.component.ts:63-67 | the new-password control is valid exactly when the value has eight or more characters and all four classes |
| AccountSettings.ChangePasswordFormValidMeans | src/app/features/dashboard/account-settings/account-settings.component.ts:99-108 | a valid change-password form carries the same strong password twice and a current password |
| AccountSettings.AccountSettingsPage.constructor | src/app/features/dashboard/account-settings/account-settings.component.ts:17-29 | the profile tab is active, nothing is loading, no message or delete confirmation is shown, and the user id is the one read from the auth service |
| AccountSettings.AccountSettingsPage.OnQueryParams | src/app/features/dashboard/account-settings/account-settings.component.ts:43-47 | the active tab becomes AdoptTab of the old tab and the parameter; nothing else changes |
| AccountSettings.AccountSettingsPage.SwitchTab | src/app/features/dashboard/account-settings/account-settings.component.ts:110-114 | the tab is set and both messages are cleared |
| AccountSettings.AccountSettingsPage.SubmitUpdateProfile | src/app/features/dashboard/account-settings/account-settings.component.ts:127-143 | an invalid form sets its error and sends nothing, loading unchanged; a valid one sends its fields, clears both messages and starts loading |
| AccountSettings.AccountSettingsPage.SubmitChangePassword | src/app/features/dashboard/account-settings/account-settings.component.ts:170-186 | an invalid form (mismatch included) sends nothing; a valid one sends the three passwords and starts loading |
| AccountSettings.AccountSettingsPage.SubmitResetPassword | src/app/features/dashboard/account-settings/account-settings.component.ts:205-222 | an invalid form sends nothing; a valid one sends e-mail, token and both passwords and starts loading |
| AccountSettings.AccountSettingsPage.SubmitDeleteProfile | src/app/features/dashboard/account-settings/account-settings.component.ts:241-253 | without a user id the error is `User ID not found`, nothing is sent and loading is unchanged; with one that id is sent and loading starts |
| AccountSettings.AccountSettingsPage.CancelDelete | src/app/features/dashboard/account-settings/account-settings.component.ts:272-275 | the delete confirmation is closed and the error cleared |
| ForgotPassword.ResetRulesMeans | src/app/features/auth/forgot-password.component.ts:46-55 | the reset rules hold exactly for a pattern-conforming password typed twice the same |
| ForgotPassword.GroupValidateAsWritten | src/app/features/auth/forgot-password.component.ts:69-78 | as written: a mismatch marks the confirm control; a match leaves the mark as it was |
| ForgotPassword.GroupValidate | src/app/features/auth/forgot-password.component.ts:69-78 | the corrected validator: the confirm mark is set exactly on a mismatch of two non-empty passwords |
| ForgotPassword.EditNewPasswordAsWritten | src/app/features/auth/forgot-password.component.ts:69-78 | as written: the new password is set, the confirmation kept, and the mark stays set once set, or is set on a mismatch |
| ForgotPassword.EditNewPassword | src/app/features/auth/forgot-password.component.ts:69-78 | corrected: the new password is set, the confirmation kept, and the mark is exactly the mismatch |
| ForgotPassword.EditConfirm | src/app/features/auth/forgot-password.component.ts:54-55 | the confirmation is set, the new password kept, and the mark is exactly the mismatch, since the control revalidates itself |
| ForgotPassword.MarkConsistentPreserved | src/app/features/auth/forgot-password.component.ts:69-78 | with the corrected validator both edits keep the mark consistent, and then the form is valid exactly when the rules hold |
| ForgotPassword.StaleMismatchAsWritten | src/app/features/auth/forgot-password.component.ts:74 | as written, correcting the new password after a mismatch leaves the form invalid although the rules hold |
| ForgotPassword.ForgotPasswordPage.constructor | src/app/features/auth/forgot-password.component.ts:16-23 | the page starts on the e-mail step with empty forms and no token |
| ForgotPassword.ForgotPasswordPage.CheckResetLink | src/app/features/auth/forgot-password.component.ts:58-67 | the reset step is entered exactly when both parameters are present; the e-mail is the decoded one; the token is kept even when decoding fails |
| ForgotPassword.ForgotPasswordPage.OnNewPasswordInput | src/app/features/auth/forgot-password.component.ts:46-55 | the new password changes, the confirmation is kept, and the mark stays consistent with the corrected validator (the as-written stale mark is under Left out) |
| ForgotPassword.ForgotPasswordPage.OnConfirmInput | src/app/features/auth/forgot-password.component.ts:38-56 | the confirmation changes and the form state is revalidated, keeping the mark consistent |
| ForgotPassword.ForgotPasswordPage.GoBack | src/app/features/auth/forgot-password.component.ts:166-175 | from the reset step back to the e-mail step with token and e-mail cleared, the form reset to empty and untouched, and no navigation; otherwise a navigation to the login page with nothing else changed |
| ForgotPassword.ForgotPasswordPage.OnSendResetLink | src/app/features/auth/forgot-password.component.ts:81-88 | an invalid e-mail form is marked touched and sends nothing; a valid one sends the e-mail and starts loading |
| ForgotPassword.ForgotPasswordPage.OnResetPassword | src/app/features/auth/forgot-password.component.ts:116-133 | an invalid form or a missing token or e-mail sends nothing; otherwise the request carries the token, the e-mail and both passwords |
| Register.RegisterFormValidMeans | src/app/features/auth/register.component.ts:35-61 | a valid form has user and full name of three or more characters, an e-mail, a pattern-conforming password equal to the confirmation, and a photo |
| Register.RegisterPage.constructor | src/app/features/auth/register.component.ts:17-21 | the page starts with no file, untouched and not loading |
| Register.RegisterPage.OnFileSelected | src/app/features/auth/register.component.ts:63-74 | the first chosen file becomes the photo; no file changes nothing |
| Register.RegisterPage.OnSubmit | src/app/features/auth/register.component.ts:76-116 | an invalid form is marked touched and sends nothing; a valid one sends userName, email, fullName, password, confirmPassword, profilePhoto and role `2`, in that order |
| Settings.ProfileCheck | src/app/features/settings/settings.component.ts:55-60 | the checks run as user name, e-mail, full name and the first failure gives its alert; none when all pass |
| Settings.ProfileFields | src/app/features/settings/settings.component.ts:62-66 | the three text fields come first, in order, and a fourth field exactly when a file is selected |
| Settings.ProfilePhotoSentIffSelected | src/app/features/settings/settings.component.ts:66 | a profilePhoto field is sent exactly when a file was selected, and it carries that file |
| Settings.SettingsPage.constructor | src/app/features/settings/settings.component.ts:17-41 | the list panel is shown, nothing is loading, the forms are empty and no file is chosen |
| Settings.SettingsPage.Open | src/app/features/settings/settings.component.ts:45-47 | the active panel becomes the given one |
| Settings.SettingsPage.OnFileChange | src/app/features/settings/settings.component.ts:49-52 | the first chosen file or none |
| Settings.SettingsPage.UpdateProfile | src/app/features/settings/settings.component.ts:54-77 | a failed check gives its alert and sends nothing with loading unchanged; otherwise the fields are sent and loading starts |
| Settings.SettingsPage.ChangePassword | src/app/features/settings/settings.component.ts:79-90 | a mismatch alerts and sends nothing with loading unchanged; otherwise the three passwords are sent |
| Settings.SettingsPage.ResetPassword | src/app/features/settings/settings.component.ts:92-104 | a mismatch alerts and sends nothing with loading unchanged; otherwise the four fields are sent |
| Settings.SettingsPage.OnRequestSucceeded | src/app/features/settings/settings.component.ts:70-74 | loading ends and the list panel is shown |
| Settings.SettingsPage.OnRequestFailed | src/app/features/settings/settings.component.ts:75 | loading ends and the panel stays as it was |
| Settings.SettingsPage.DeleteTrainerProfile | src/app/features/settings/settings.component.ts:106-110 | without a user id the alert `User ID not found` and no lookup; otherwise a lookup of that id and loading starts |
| Settings.SettingsPage.OnProfileFound | src/app/features/settings/settings.component.ts:111-118 | no profile id alerts and stops; a declined confirmation stops; otherwise the delete of that id is requested |
| TrainerProfile.FormValidMeans | src/app/features/profile/trainer-profile.component.ts:271-279 | a valid form has a handle of 3 to 50 characters, a bio of at most 500 and a years value from 0 to 50 |
| TrainerProfile.CheckCoverFile | src/app/features/profile/trainer-profile.component.ts:311-325 | a file over 5 MB is too large whatever its type; otherwise a type outside the five image types is refused; else no problem |
| TrainerProfile.FiveMegabytesAccepted | src/app/features/profile/trainer-profile.component.ts:311-316 | a PNG of exactly 5 MB passes both checks |
| TrainerProfile.YearsText | src/app/features/profile/trainer-profile.component.ts:355 | no years value gives `0`; a number gives its decimal text |
| TrainerProfile.SubmitFields | src/app/features/profile/trainer-profile.component.ts:351-367 | the submit carries between four and seven fields |
| TrainerProfile.GetSubmitField | src/app/features/profile/trainer-profile.component.ts:351-367 | FormData.get on the submit finds a required field in the required part, else in the optional part |
| TrainerProfile.GetOptionalField | src/app/features/profile/trainer-profile.component.ts:357-367 | each optional field is found exactly when its value is present |
| TrainerProfile.SubmitFieldsByName | src/app/features/profile/trainer-profile.component.ts:351-367 | the submit always carries userId, handle, bio and yearsExperience, and coverImage, videoIntroUrl and brandingColors exactly when present |
| TrainerProfile.TrainerProfilePage.constructor | src/app/features/profile/trainer-profile.component.ts:250-257 | the page starts loading, not editing, with no profile, file or message |
| TrainerProfile.TrainerProfilePage.LoadProfile | src/app/features/profile/trainer-profile.component.ts:281-302 | without a user id loading stops with its error and no lookup; otherwise the lookup of that id |
| TrainerProfile.TrainerProfilePage.OnProfileLoaded | src/app/features/profile/trainer-profile.component.ts:287-299 | the profile (or none) is kept and loading ends |
| TrainerProfile.TrainerProfilePage.OnFileSelect | src/app/features/profile/trainer-profile.component.ts:304-333 | no file changes nothing; otherwise the error is cleared and the file kept only when CheckCoverFile finds no problem, the old file staying otherwise |
| TrainerProfile.TrainerProfilePage.OnSubmit | src/app/features/profile/trainer-profile.component.ts:335-372 | an invalid form or a missing user id sends nothing and sets its message; otherwise the fields are sent as an update exactly when editing an existing profile |
| TrainerProfile.TrainerProfilePage.OnSaved | src/app/features/profile/trainer-profile.component.ts:375-383 | the saved profile is shown, editing ends and the file and preview are dropped |
| TrainerProfile.TrainerProfilePage.OnSaveFailed | src/app/features/profile/trainer-profile.component.ts:384-389 | submitting ends with the error's message or the fixed one |
| TrainerProfile.TrainerProfilePage.EditProfile | src/app/features/profile/trainer-profile.component.ts:393-407 | editing starts and the form is filled from the profile when there is one |
| TrainerProfile.TrainerProfilePage.CancelEdit | src/app/features/profile/trainer-profile.component.ts:409-415 | editing ends; message, preview and file are cleared, and the form is rebuilt with its initial values and no control touched |
| TrainerService.ResolveImageUrl | src/app/core/services/trainer.service.ts:93-97 | absent or empty gives none; an http-prefixed URL is kept; anything else gets the host prefix with no slash added |
| TrainerService.ResolveImageUrlIdempotent | src/app/core/services/trainer.service.ts:93-97 | resolving a resolved URL changes nothing |
| TrainerService.ResolveImageUrls | src/app/core/services/trainer.service.ts:85-91 | the two image URLs are resolved and every other field is kept |
| TrainerService.ResolveImageUrlsIdempotent | src/app/core/services/trainer.service.ts:85-91 | resolving a profile twice is resolving it once |
| TrainerService.HandleError | src/app/core/services/trainer.service.ts:100-115 | a body message wins, else an errors array joined with `, `, else the default; with no body status 0 gives the network message |
| TrainerService.HandleErrorIgnoresStatusWithBody | src/app/core/services/trainer.service.ts:103-109 | with a body the status does not matter |
| TrainerService.HandleErrorNonEmpty | src/app/core/services/trainer.service.ts:100-112 | the message is non-empty whenever the body holds no errors list |
| TrainerProfileModal.TrimOr | src/app/shared/components/trainer-profile-modal/trainer-profile-modal.component.ts:77-80 | the trimmed piece when it is non-blank, else the fallback |
| TrainerProfileModal.BrandingColors | src/app/shared/components/trainer-profile-modal/trainer-profile-modal.component.ts:72-82 | no colour text gives the two defaults; neither colour is ever empty |
| TrainerProfileModal.BrandingColorsOfPair | src/app/shared/components/trainer-profile-modal/trainer-profile-modal.component.ts:77-80 | two pieces give the two colours, each trimmed or defaulted |
| TrainerProfileModal.BrandingColorsIgnoresRest | src/app/shared/components/trainer-profile-modal/trainer-profile-modal.component.ts:77-81 | pieces after the second are ignored |
| TrainerProfileModal.BrandingColorsOfOne | src/app/shared/components/trainer-profile-modal/trainer-profile-modal.component.ts:77-80 | a single piece sets only the primary colour |
| TrainerProfileModal.BrandingColorsRoundTrip | src/app/shared/components/trainer-profile-modal/trainer-profile-modal.component.ts:72-82 | two trimmed, non-empty colours joined by a comma come back exactly |
| TrainerProfileModal.ShouldLoad | src/app/shared/components/trainer-profile-modal/trainer-profile-modal.component.ts:42-46 | no load when closed, without an id or with id 0; a load always has a non-zero id |
| TrainerProfileModal.TrainerProfileModalState.constructor | src/app/shared/components/trainer-profile-modal/trainer-profile-modal.component.ts:31-36 | closed, with no id, no profile and not loading |
| TrainerProfileModal.TrainerProfileModalState.OnChanges | src/app/shared/components/trainer-profile-modal/trainer-profile-modal.component.ts:42-46 | a load of the id starts exactly when the modal is open and the id is truthy |
| TrainerProfileModal.TrainerProfileModalState.OnProfileLoaded | src/app/shared/components/trainer-profile-modal/trainer-profile-modal.component.ts:48-62 | the profile is shown and loading ends |
| TrainerProfileModal.TrainerProfileModalState.OnProfileFailed | src/app/shared/components/trainer-profile-modal/trainer-profile-modal.component.ts:48-62 | loading ends |
| TrainerProfileModal.TrainerProfileModalState.CurrentColors | src/app/shared/components/trainer-profile-modal/trainer-profile-modal.component.ts:72-82 | without a profile the default colours |
| AuthService.FirstTruthyMeans | src/app/core/services/auth.service.ts:96-105 | the `a || b || c` chain finds nothing exactly when no listed claim is set, else the first one set |
| AuthService.TokenUserId | src/app/core/services/auth.service.ts:96-105 | a decode failure gives nothing; any id found is non-empty |
| AuthService.TokenUserIdPrecedence | src/app/core/services/auth.service.ts:96-105 | userId first, then sub, then nameidentifier, else nothing |
| AuthService.ResolvedUserId | src/app/core/services/auth.service.ts:94-105 | the response id when non-empty; else the token's claim; `` on a decode failure or when no claim is set |
| AuthService.UserIdFromStorage | src/app/core/services/auth.service.ts:133-151 | the stored id when truthy; without a token nothing; otherwise the token's claim, nothing on a decode failure |
| AuthService.AfterLogin | src/app/core/services/auth.service.ts:106-117 | token, user id and user are written and every other key is kept |
| AuthService.UserIdAfterLogin | src/app/core/services/auth.service.ts:94-151 | after a login getUserIdFromToken gives back the resolved id, or nothing when it was empty |
| AuthService.LogoutForgets | src/app/core/services/auth.service.ts:64-78 | after logout there is no token and no user id |
| AuthService.StartupUser | src/app/core/services/auth.service.ts:120-123 | no user when the stored text is missing or empty; otherwise construction fails exactly when parsing throws, and a user found is the parsed one |
| AuthService.AuthServiceState.constructor | src/app/core/services/auth.service.ts:16-19 | storage is kept; the user is StartupUser of it; authenticated exactly when a non-empty token is stored; construction needs the stored user text to parse |
| AuthService.AuthServiceState.Logout | src/app/core/services/auth.service.ts:64-70 | the three keys are removed, the user cleared and the session unauthenticated |
| AuthService.AuthServiceState.GetToken | src/app/core/services/auth.service.ts:72-74 | some token exactly when the token key is stored, and then the stored text |
| AuthService.AuthServiceState.HasToken | src/app/core/services/auth.service.ts:76-78 | a token is stored and it is not the empty text |
| AuthService.AuthServiceState.IsTrainer | src/app/core/services/auth.service.ts:84-92 | never together with isClient |
| AuthService.AuthServiceState.IsClient | src/app/core/services/auth.service.ts:89-91 | a signed-in user whose role is not Trainer |
| AuthService.AuthServiceState.HandleAuthResponse | src/app/core/services/auth.service.ts:94-118 | storage becomes AfterLogin; the user is the response with the resolved id; the session is authenticated |
| AuthService.AuthServiceState.GetUserIdFromToken | src/app/core/services/auth.service.ts:133-151 | the stored user id when non-empty; without a token nothing; a token whose decoding throws gives nothing; otherwise the first truthy claim among userId, sub and nameidentifier; never the empty text |
| RoleGuard.RoleGuard | src/app/core/guards/role.guard.ts:6-25 | no user goes to the login page; a set, differing role goes to /unauthorized; everyone else passes with no navigation |
| RoleGuard.TrainerRouteAdmitsTrainers | src/app/core/guards/role.guard.ts:17-24 | a Trainer route admits exactly the sessions isTrainer holds for |
| AuthInterceptor.SetAuthorization | src/app/core/interceptors/auth.interceptor.ts:13-17 | `setHeaders` through `HttpHeaders.set`: the Authorization entry holds the value and is the only header whose name lower-cases to `authorization`; headers under other names are kept and none is added |
| AuthInterceptor.Intercept | src/app/core/interceptors/auth.interceptor.ts:7-21 | with a token and a URL not naming google, `Bearer <token>` is the one Authorization header, in whatever case an earlier one was written; otherwise the request is unchanged; method, URL and headers under other names are kept |
| AuthInterceptor.InterceptReplacesOtherCase | src/app/core/interceptors/auth.interceptor.ts:13-17 | an earlier `authorization` header in another case is replaced by the bearer header, not kept beside it |
| AuthInterceptor.BearerHeaderCarriesToken | src/app/core/interceptors/auth.interceptor.ts:12-18 | the header is `Bearer ` followed by exactly the token |
| AuthInterceptor.InterceptIdempotent | src/app/core/interceptors/auth.interceptor.ts:12-18 | intercepting twice sets the header once |
| ErrorInterceptor.FixedMessage | src/app/core/interceptors/error.interceptor.ts:24-33 | the statuses with a fixed message are exactly 401, 403, 404 and 500 |
| ErrorInterceptor.ErrorMessage | src/app/core/interceptors/error.interceptor.ts:17-37 | a client-side error gives its own message; a fixed status its fixed text; else the body message when truthy; else the default |
| ErrorInterceptor.FixedMessageIgnoresBody | src/app/core/interceptors/error.interceptor.ts:28-33 | the fixed texts win over any server body |
| ErrorInterceptor.ServerMessageNonEmpty | src/app/core/interceptors/error.interceptor.ts:34-36 | a server error without a fixed text ends with a non-empty message |
| ErrorInterceptor.Intercept | src/app/core/interceptors/error.interceptor.ts:10-43 | exactly one error notification is shown; a logout happens exactly on a server-side 401, with a move to the login page; the same error is rethrown |
| MockDataInterceptor.Week1WellFormed | src/app/core/interceptors/mock-data.interceptor.ts:26-141 | the mock program's first week points at its program and its days and exercises are numbered from 1 |
| MockDataInterceptor.MockProgramWellFormed | src/app/core/interceptors/mock-data.interceptor.ts:26-141 | every week, day and exercise of the mock program records its parent's id, and the numbering runs from 1 |
| MockDataInterceptor.Route | src/app/core/interceptors/mock-data.interceptor.ts:143-160 | a profile URL gets the profile for any method; a GET for one program gets the program; anything else is handed on unchanged |
| MockDataInterceptor.NonGetPassesUnlessProfile | src/app/core/interceptors/mock-data.interceptor.ts:154-159 | a request that is not a GET reaches the server unless it is for a profile |
| MockDataInterceptor.RoutedProgramWellFormed | src/app/core/interceptors/mock-data.interceptor.ts:154-156 | every program the interceptor hands out is well formed |
| TranslationService.StoredLanguage | src/app/core/services/translation.service.ts:19-21 | the stored language when truthy, else `en` |
| TranslationService.WalkConcat | src/app/core/services/translation.service.ts:71-73 | walking a path in two parts is walking it whole |
| TranslationService.WalkUndefined | src/app/core/services/translation.service.ts:71-73 | once a step is undefined the rest of the path is too |
| TranslationService.GetNestedProperty | src/app/core/services/translation.service.ts:71-73 | a key without a dot is one property access; from undefined every key is undefined |
| TranslationService.NestedStep | src/app/core/services/translation.service.ts:71-73 | a dotted key is the first segment's property, then the rest looked up inside it |
| TranslationService.NestedOfJoin | src/app/core/services/translation.service.ts:71-73 | a key joined from dot-free segments walks exactly those segments |
| TranslationService.NestedArrayElement | src/app/core/services/translation.service.ts:71-73 | a key `segment.i` reads element i of the array stored under segment |
| Json.Prop | src/app/core/services/translation.service.ts:72 | objects give their own properties; arrays and strings give `length`; null, booleans and numbers give undefined, as does undefined |
| Json.PropArrayIndex | src/app/core/services/translation.service.ts:72 | the decimal rendering of an in-range position reads the array element there |
| Json.PropArrayNonIndex | src/app/core/services/translation.service.ts:72 | a key that is neither `length` nor a decimal index finds nothing in an array |
| TranslationService.EmptyTableFindsNothing | src/app/core/services/translation.service.ts:45-52 | an empty table has no entry under any key |
| TranslationService.ExpandLiteral | src/app/core/services/translation.service.ts:54-58 | a replacement without `$` is inserted literally |
| TranslationService.ReplaceFirst | src/app/core/services/translation.service.ts:54-58 | without an occurrence the text is unchanged |
| TranslationService.ReplaceFirstLiteral | src/app/core/services/translation.service.ts:54-58 | only the first occurrence is replaced: the text before it (holding none) and after it are kept |
| TranslationService.ApplyParams | src/app/core/services/translation.service.ts:54-58 | no parameters leave the text unchanged; one parameter replaces the first occurrence of its placeholder |
| TranslationService.ApplyParamsConcat | src/app/core/services/translation.service.ts:54-58 | applying parameters in two parts is applying them all, in order |
| TranslationService.ApplyParamsNoPlaceholders | src/app/core/services/translation.service.ts:54-58 | a text with none of the placeholders is unchanged |
| TranslationService.Translate | src/app/core/services/translation.service.ts:45-61 | a missing or falsy entry gives the key; with no parameters the entry as it is; a text entry with parameters gets them applied in order; replace on a non-text entry is the TypeError, and only then |
| TranslationService.MissingTableGivesKey | src/app/core/services/translation.service.ts:45-52 | without a table for the language every key translates to itself |
| TranslationService.Table | src/app/core/services/translation.service.ts:47 | the table is always truthy; the loaded table when truthy, else the empty object |
| TranslationService.TranslationServiceState.constructor | src/app/core/services/translation.service.ts:9-17 | the language comes from storage and no table is loaded |
| TranslationService.TranslationServiceState.OnTranslationsLoaded | src/app/core/services/translation.service.ts:23-33 | a loaded table is kept under its language; a failed load changes nothing |
| TranslationService.TranslationServiceState.SetLanguage | src/app/core/services/translation.service.ts:35-43 | the language is stored and current, getLanguage returns it and a restart reads it back unless it is empty |
| TranslationService.TranslationServiceState.GetLanguage | src/app/core/services/translation.service.ts:41-43 | the current language |
| TranslationService.TranslationServiceState.IsArabic | src/app/core/services/translation.service.ts:63-69 | never together with isEnglish |
| TranslationService.TranslationServiceState.IsEnglish | src/app/core/services/translation.service.ts:67-69 | never when the language is `ar` |
| TranslationService.TranslationServiceState.ReplaceEach | src/app/core/services/translation.service.ts:54-58 | the loop gives ApplyParams of the text and the parameters |
| TranslationService.TranslationServiceState.Get | src/app/core/services/translation.service.ts:45-61 | the result is Translate of the entry found under the dotted key in the current table |
| ProgramDetail.NextNumber | src/app/features/dashboard/program-detail/program-detail.component.ts:254-258 | one more than the count, 1 when there are none |
| ProgramDetail.NextWeekNumberIsNew | src/app/features/dashboard/program-detail/program-detail.component.ts:254-258 | with weeks numbered 1, 2, ... the proposed number is not taken |
| ProgramDetail.DayTitle | src/app/features/dashboard/program-detail/program-detail.component.ts:278-286 | the title when given, else `Day` and the day number: its digits, `null` for a cleared input, `undefined` when unset; never empty |
| ProgramDetail.ClearedDayNumberTitle | src/app/features/dashboard/program-detail/program-detail.component.ts:283-284 | a cleared Day-No input with a blank title gives `Day null` |
| ProgramDetail.DefaultExerciseForm | src/app/features/dashboard/program-detail/program-detail.component.ts:209 | three sets of twelve reps, 60 seconds of rest, no %1RM, empty tempo, notes and data, and the given video URL |
| ProgramDetail.NumberOrZero | src/app/features/dashboard/program-detail/program-detail.component.ts:326-328 | NaN and 0 both become 0; any other number is kept |
| ProgramDetail.Clamp | src/app/features/dashboard/program-detail/program-detail.component.ts:330-334 | the result lies in the range, and equals the input when the input does |
| ProgramDetail.Percent1RM | src/app/features/dashboard/program-detail/program-detail.component.ts:330-334 | a null field or NaN gives none; otherwise the number clamped to 0..100 |
| ProgramDetail.ClampIdempotent | src/app/features/dashboard/program-detail/program-detail.component.ts:330-334 | clamping twice is clamping once |
| ProgramDetail.DayExerciseIdsHas | src/app/features/dashboard/program-detail/program-detail.component.ts:232-242 | each exercise of each day contributes its id |
| ProgramDetail.WeekExerciseIdsHas | src/app/features/dashboard/program-detail/program-detail.component.ts:232-242 | each exercise of each day of each week contributes its id |
| ProgramDetail.ProgramDetailPage.constructor | src/app/features/dashboard/program-detail/program-detail.component.ts:205-212 | no program, an empty cache and closed forms |
| ProgramDetail.ProgramDetailPage.OnProgramSelected | src/app/features/dashboard/program-detail/program-detail.component.ts:217-219 | the program is shown; the ids fetched are exactly its truthy exercise ids not yet cached, each once |
| ProgramDetail.ProgramDetailPage.AddWeek | src/app/features/dashboard/program-detail/program-detail.component.ts:254-258 | without a program id nothing; else the next week number |
| ProgramDetail.ProgramDetailPage.OpenCreateDay | src/app/features/dashboard/program-detail/program-detail.component.ts:266-271 | for a week with an id the form holds the next day number, title `Day n` and empty notes; without an id nothing changes |
| ProgramDetail.ProgramDetailPage.OnDayNumberInput | src/app/features/dashboard/program-detail/program-detail.component.ts:85 | the Day-No field holds the number typed, or null when the input holds none; the other fields are kept |
| ProgramDetail.ProgramDetailPage.CancelCreateDay | src/app/features/dashboard/program-detail/program-detail.component.ts:273-276 | the day form is closed |
| ProgramDetail.ProgramDetailPage.CreateDaySubmit | src/app/features/dashboard/program-detail/program-detail.component.ts:278-288 | without a week id nothing; otherwise the request for that week has the day number, the title or `Day <n>`, and the notes or the empty text |
| ProgramDetail.ProgramDetailPage.OpenAddExercise | src/app/features/dashboard/program-detail/program-detail.component.ts:296-300 | the add-exercise form opens for that day |
| ProgramDetail.ProgramDetailPage.PrepareAddExercise | src/app/features/dashboard/program-detail/program-detail.component.ts:302-315 | the form starts over with the exercise's video, if any |
| ProgramDetail.ProgramDetailPage.SubmitAddExercise | src/app/features/dashboard/program-detail/program-detail.component.ts:322-352 | no chosen exercise sends nothing; else order index count+1, sets, reps and rest through NumberOrZero and the clamped %1RM |
| ProgramDetail.ProgramDetailPage.PrefetchExercises | src/app/features/dashboard/program-detail/program-detail.component.ts:232-242 | without a program nothing; otherwise the ids fetched are exactly the truthy exercise ids of the program not yet cached, each once |
| ProgramDetail.ProgramDetailPage.OnExerciseFetched | src/app/features/dashboard/program-detail/program-detail.component.ts:232-242 | the exercise is cached under its id |
| ProgramDetail.ProgramDetailPage.ResolveExerciseName | src/app/features/dashboard/program-detail/program-detail.component.ts:244-247 | a falsy id gives `Unknown Exercise`; else the cached name, else `Exercise <id>`; never empty |
| ProgramDetail.ProgramDetailPage.ResolveExerciseThumbnail | src/app/features/dashboard/program-detail/program-detail.component.ts:249-252 | the cached thumbnail, or the empty text |
| ProgramDetailModal.ToggleId | src/app/shared/components/program-detail-modal/program-detail-modal.component.ts:81-87 | the same id collapses; another id becomes the single expanded one |
| ProgramDetailModal.ToggleTwice | src/app/shared/components/program-detail-modal/program-detail-modal.component.ts:81-87 | toggling twice restores nothing-expanded or that same item |
| ProgramDetailModal.ProgramTypeLabel | src/app/shared/components/program-detail-modal/program-detail-modal.component.ts:40-45 | 1..4 give Workout, Nutrition, Hybrid, Challenge; anything else `Program` |
| ProgramDetailModal.ProgramTypeIcon | src/app/shared/components/program-detail-modal/program-detail-modal.component.ts:101-109 | 1..4 give their icons; anything else `bi-diagram-3` |
| ProgramDetailModal.LabelAndIconAgree | src/app/shared/components/program-detail-modal/program-detail-modal.component.ts:97-109 | two types share a label exactly when they share an icon |
| ProgramDetailModal.ShouldLoad | src/app/shared/components/program-detail-modal/program-detail-modal.component.ts:51-55 | no load when closed, without an id or with id 0; a load always has a non-zero id |
| ProgramDetailModal.ProgramDetailModalState.constructor | src/app/shared/components/program-detail-modal/program-detail-modal.component.ts:31-38 | closed, with nothing loaded and nothing expanded |
| ProgramDetailModal.ProgramDetailModalState.OnChanges | src/app/shared/components/program-detail-modal/program-detail-modal.component.ts:51-55 | a load starts exactly when open with a truthy id |
| ProgramDetailModal.ProgramDetailModalState.OnProgramLoaded | src/app/shared/components/program-detail-modal/program-detail-modal.component.ts:57-71 | the program is shown and loading ends |
| ProgramDetailModal.ProgramDetailModalState.OnProgramFailed | src/app/shared/components/program-detail-modal/program-detail-modal.component.ts:57-71 | loading ends |
| ProgramDetailModal.ProgramDetailModalState.ToggleWeek | src/app/shared/components/program-detail-modal/program-detail-modal.component.ts:81-83 | that week flips, other weeks collapse, the expanded day is kept |
| ProgramDetailModal.ProgramDetailModalState.ToggleDay | src/app/shared/components/program-detail-modal/program-detail-modal.component.ts:85-87 | that day flips, other days collapse, the expanded week is kept |
| ProgramDetailModal.ProgramDetailModalState.IsWeekExpanded | src/app/shared/components/program-detail-modal/program-detail-modal.component.ts:89-91 | with nothing expanded no week is; a week is expanded only when it is the expanded one |
| ProgramDetailModal.ProgramDetailModalState.IsDayExpanded | src/app/shared/components/program-detail-modal/program-detail-modal.component.ts:93-95 | with nothing expanded no day is; a day is expanded only when it is the expanded one |
| DashboardSidebar.FirstIndexFrom | src/app/features/dashboard/dashboard-sidebar/dashboard-sidebar.component.ts:45 | the index found holds the id and no earlier one does; none exactly when no element has it |
| DashboardSidebar.DashboardSidebarState.constructor | src/app/features/dashboard/dashboard-sidebar/dashboard-sidebar.component.ts:13-17 | the programs as given and nothing expanded |
| DashboardSidebar.DashboardSidebarState.FindIndex | src/app/features/dashboard/dashboard-sidebar/dashboard-sidebar.component.ts:45 | the loop finds the first index holding the id, or none when no element has it |
| DashboardSidebar.DashboardSidebarState.ToggleProgram | src/app/features/dashboard/dashboard-sidebar/dashboard-sidebar.component.ts:23-35 | a falsy id changes nothing; the expanded program collapses; another is expanded and its details requested exactly when the list has no weeks for it |
| DashboardSidebar.DashboardSidebarState.ToggleWeek | src/app/features/dashboard/dashboard-sidebar/dashboard-sidebar.component.ts:37-40 | a falsy id changes nothing; otherwise that week flips; programs are untouched |
| DashboardSidebar.DashboardSidebarState.OnProgramDetailsLoaded | src/app/features/dashboard/dashboard-sidebar/dashboard-sidebar.component.ts:42-52 | only the first entry with the id is replaced in place; with no match the array is unchanged |
| DashboardSidebar.LoadedProgramNeedsNoFetch | src/app/features/dashboard/dashboard-sidebar/dashboard-sidebar.component.ts:31-47 | after the write-back, expanding the program again needs no fetch when the details have weeks |
| ChatModels.Code | src/app/core/models/chat.models.ts:7-12 | every message type has a code from 1 to 4 |
| ChatList.ChatFilter | src/app/shared/components/chat-list/chat-list.component.ts:279-288 | a blank query gives the threads as they are; the result is never longer |
| ChatList.ChatFilterIsSubsequence | src/app/shared/components/chat-list/chat-list.component.ts:279-288 | the filtered chats are a subsequence of the threads |
| ChatList.ChatFilterMembers | src/app/shared/components/chat-list/chat-list.component.ts:283-286 | under a non-blank query a thread is kept exactly when it has a name containing the lowered query |
| ChatList.ChatListState.constructor | src/app/shared/components/chat-list/chat-list.component.ts:239-246 | the threads given, no query, no filtered chats yet and nobody online |
| ChatList.ChatListState.FilterChats | src/app/shared/components/chat-list/chat-list.component.ts:279-288 | the filtered chats become ChatFilter of threads and query |
| ChatList.ChatListState.OnThreadsChanged | src/app/shared/components/chat-list/chat-list.component.ts:272-277 | new threads are taken and filtered again |
| ChatList.ChatListState.OnOnlineStatus | src/app/shared/components/chat-list/chat-list.component.ts:261-265 | the user is online exactly when the event says so; other users are unchanged |
| ChatList.ChatListState.IsUserOnline | src/app/shared/components/chat-list/chat-list.component.ts:290-292 | a missing or empty id is never online; any other id is online exactly when it is in the online set |
| ChatDetail.IsImageType | src/app/shared/components/chat-detail/chat-detail.component.ts:454-456 | true exactly for Video (3) and FormCheck (4) |
| ChatDetail.ChatDetailState.constructor | src/app/shared/components/chat-detail/chat-detail.component.ts:373-386 | the thread and user given, empty content, nobody typing, no throttle timer and no indicator timer |
| ChatDetail.ChatDetailState.IsOwnMessage | src/app/shared/components/chat-detail/chat-detail.component.ts:450-452 | exactly when the sender is the current user |
| ChatDetail.ChatDetailState.NotifyStoppedTyping | src/app/shared/components/chat-detail/chat-detail.component.ts:468-474 | the timer is cleared; the stop is sent for a thread with a truthy id |
| ChatDetail.ChatDetailState.SendMessage | src/app/shared/components/chat-detail/chat-detail.component.ts:436-448 | blank content or no thread changes nothing; otherwise one text request with the trimmed content and no media, the content cleared and typing stopped |
| ChatDetail.ChatDetailState.OnTyping | src/app/shared/components/chat-detail/chat-detail.component.ts:458-466 | a typing notice is sent and the timer started exactly when a thread with a truthy id is open and no timer is active |
| ChatDetail.ChatDetailState.OnTypingTimerElapsed | src/app/shared/components/chat-detail/chat-detail.component.ts:462-464 | the timer is cleared |
| ChatDetail.ChatDetailState.OnTypingEvent | src/app/shared/components/chat-detail/chat-detail.component.ts:402-414 | the typing flag is set, and its three-second timer restarted, only for another user in the current thread; otherwise both are unchanged |
| ChatDetail.ChatDetailState.OnTypingIndicatorElapsed | src/app/shared/components/chat-detail/chat-detail.component.ts:408-411 | a pending indicator timer fires: the typing flag is cleared; with no timer pending the flag is unchanged |
| ChatDetail.ChatDetailState.OnOnlineStatus | src/app/shared/components/chat-detail/chat-detail.component.ts:417-424 | the online flag follows only events for the thread's other user |
| ChatbotWidget.AnswerText | src/app/shared/components/chatbot-widget/chatbot-widget.component.ts:96-112 | the answer when the reply succeeded with a non-empty answer, else the fixed error text; never empty |
| ChatbotWidget.KeepsSettled | src/app/shared/components/chatbot-widget/chatbot-widget.component.ts:94 | a settled message survives the filter |
| ChatbotWidget.DropsPlaceholder | src/app/shared/components/chatbot-widget/chatbot-widget.component.ts:94 | a loading placeholder is filtered out |
| ChatbotWidget.AnswerReplacesPlaceholder | src/app/shared/components/chatbot-widget/chatbot-widget.component.ts:92-131 | after a question and its placeholder the filter leaves the transcript with the question and no placeholder |
| ChatbotWidget.ChatbotWidgetState.constructor | src/app/shared/components/chatbot-widget/chatbot-widget.component.ts:24-27 | closed, with no messages, no input and not loading |
| ChatbotWidget.ChatbotWidgetState.Init | src/app/shared/components/chatbot-widget/chatbot-widget.component.ts:42-50 | the welcome message is appended |
| ChatbotWidget.ChatbotWidgetState.ToggleChat | src/app/shared/components/chatbot-widget/chatbot-widget.component.ts:52-62 | isOpen flips and nothing else changes |
| ChatbotWidget.ChatbotWidgetState.SendMessage | src/app/shared/components/chatbot-widget/chatbot-widget.component.ts:64-88 | blank input changes nothing; otherwise the untrimmed user message and a loading placeholder are appended, the input cleared and loading set |
| ChatbotWidget.ChatbotWidgetState.SelectSuggestedQuestion | src/app/shared/components/chatbot-widget/chatbot-widget.component.ts:135-140 | the question becomes the input |
| ChatbotWidget.ChatbotWidgetState.OnAnswer | src/app/shared/components/chatbot-widget/chatbot-widget.component.ts:92-116 | the loading entries are dropped and exactly one bot message with AnswerText is appended; loading ends |
| ChatbotWidget.ChatbotWidgetState.OnAskFailed | src/app/shared/components/chatbot-widget/chatbot-widget.component.ts:117-131 | the loading entries are dropped and exactly one connection-error message appended; loading ends |
| ChatbotWidget.ChatbotWidgetState.ClearChat | src/app/shared/components/chatbot-widget/chatbot-widget.component.ts:142-149 | exactly one bot message remains |
| NewChatModal.NormalizeArrayResp | src/app/shared/components/new-chat-modal/new-chat-modal.component.ts:126-133 | a falsy value gives []; an array itself; else the first of data, value and result that is an array; else [] |
| NewChatModal.NormalizeFromCandidates | src/app/shared/components/new-chat-modal/new-chat-modal.component.ts:126-133 | the result is the content of the value or of one of its three wrappers: nothing is invented |
| NewChatModal.NormalizeIdempotent | src/app/shared/components/new-chat-modal/new-chat-modal.component.ts:126-133 | a normalised list normalises to itself |
| NewChatModal.NormalizeUnwraps | src/app/shared/components/new-chat-modal/new-chat-modal.component.ts:129-131 | a list under any of the three names is unwrapped |
| NewChatModal.NormalizePrefersData | src/app/shared/components/new-chat-modal/new-chat-modal.component.ts:129 | when several names hold lists the data one wins |
| NewChatModal.NewChatModalState.constructor | src/app/shared/components/new-chat-modal/new-chat-modal.component.ts:114-124 | no trainers, no error, and the load starts at once |
| NewChatModal.NewChatModalState.LoadTrainers | src/app/shared/components/new-chat-modal/new-chat-modal.component.ts:135-137 | loading starts and the error is cleared |
| NewChatModal.NewChatModalState.OnTrainersLoaded | src/app/shared/components/new-chat-modal/new-chat-modal.component.ts:141-147 | the trainers are the normalised reply and loading ends |
| NewChatModal.NewChatModalState.OnTrainersFailed | src/app/shared/components/new-chat-modal/new-chat-modal.component.ts:148-154 | no trainers, loading ends, and the non-empty message of the error or the fixed text |
| Sidebar.GoTo | src/app/shared/components/sidebar/sidebar.component.ts:28-36 | programs and packages go to /dashboard with that tab; a slash target goes by URL verbatim; anything else is navigated to |
| Sidebar.GoToRecoversTarget | src/app/shared/components/sidebar/sidebar.component.ts:28-36 | the target can be read back from the navigation |
| Sidebar.GoToInjective | src/app/shared/components/sidebar/sidebar.component.ts:28-36 | different targets give different navigations |
| Sidebar.GoToKind | src/app/shared/components/sidebar/sidebar.component.ts:28-36 | a navigation is by URL exactly for slash targets that are not a dashboard tab |
| Sidebar.Logout | src/app/shared/components/sidebar/sidebar.component.ts:23-26 | the session keys are removed and the navigation goes to the login page |

## Left out

- HTTP traffic and RxJS plumbing. Subscriptions, `takeUntil`, change detection and lifecycle hooks are not modelled. A reply is a call to the matching success or failure handler. The wrapper services (program, package, account, chat, chatbot, home and exercise-library) only build URLs, so they are not modelled.
- Timers. Typing throttling in chat-detail is a flag, and `setTimeout` is an "elapsed" method called by the environment. The chatbot's suggested question sets the input; the delayed send that follows is a later `SendMessage` call. Toast lifetimes, the delayed redirect after registration and the chatbot's scroll and focus delays are not modelled.
- The DOM and browser APIs. Not modelled: toast markup, `alert` and `confirm` (a confirmation is a boolean input), `FileReader` previews, `window.scrollTo`, scrolling to the last message, and the Google sign-in script.
- JWT decoding. Splitting the token, `atob` and `JSON.parse` form one supplied function, `string -> DecodeResult`, which may fail. `JSON.stringify` of the stored user is a supplied function too. So is `JSON.parse` of the stored user at start-up, `string -> ParseResult`, where `ParseError` stands for a throw.
- `decodeURIComponent` in the reset-link check is a supplied function that may fail.
- Angular's `Validators.email` is a boolean input giving its verdict. `required`, `minLength`, `maxLength`, `min` and `max` are written out as predicates.
- Regular expressions. The password pattern is modelled by its meaning, not by a regex engine.
- Unicode. Strings are sequences of code points, not UTF-16 units, so lengths differ for characters outside the Basic Multilingual Plane. `toLowerCase` in the chat search is ASCII-only. `trim` removes exactly ECMAScript's white space and line terminators.
- Floating point. `Number(...)` is a supplied `string -> Option<int>`, where None is NaN. The RPE field of an exercise (a decimal) is not sent in the model. The `toFixed` size text of the cover-image error is an input.
- `Date.now()`, `new Date()` and `Math.random()`. A notification's id and timestamp are parameters. Chatbot messages carry no timestamp in the model.
- `selectTrainer`, `close`, `toggleSidebar` and the other `@Output` emitters only forward a value to the parent, so they are not modelled.
- chat-detail's `ngOnInit` call to `setCurrentThread` and its loading of messages go to the chat service, which is not part of this model.
- `signalr.service.ts` is an empty placeholder. The typing and online events that chat-detail subscribes to are taken as inputs.
- account-settings' reply handlers (the success and error messages after a request returns) are not modelled. Only the submit gates and the requests they send are.
- Fetching the translation files is not modelled. A loaded table arrives through `OnTranslationsLoaded`.
- AuthService.AuthServiceState.constructor: when `JSON.parse` throws on the stored user, the source's service fails to construct. A failed construction is not a state of the class, so the constructor requires `StartupUser(...).Some?`. `StartupUser` states when the throw happens.
- ForgotPassword.ForgotPasswordPage.OnNewPasswordInput: the page runs the corrected group validator `EditNewPassword`, so the confirmation's mismatch mark follows the two passwords. As written, a stale mark survives: `x`, then confirmation `Abcdefg1!`, then `Abcdefg1!` leaves the form invalid, and `onResetPassword` only marks it touched. `EditNewPasswordAsWritten` and `StaleMismatchAsWritten` model that behaviour (see Findings).
- Json.Prop: `v?.[key]` reads own object properties, array elements, `length` of arrays and strings, and string characters. Inherited properties such as `constructor` or `toString`, and properties of numbers and booleans, are undefined in the model. So `GetNestedProperty`, `Translate` and `Get` treat a key such as `constructor` as missing.
- The mock program leaves out the decimal price, RPE and %1RM figures, and `maxClients`, `thumbnailUrl`, `createdAt`, `updatedAt`, `trainerUserName` and `trainerHandle`.
- ProgramDetail.ProgramDetailPage.PrefetchExercises: the ids come in the visiting order of the nested `forEach`, each once. The contract states which ids are fetched and that none repeats, but not their order.
- ProgramDetail.DefaultExerciseForm: the form's `restSeconds` starts as the number 60 in the source. The model keeps every field as typed text, so it starts as `60` the text. `Number` reads both the same.
- ProgramDetail.ProgramDetailPage.SubmitAddExercise: the %1RM is clamped over integers. The source clamps a floating-point number.
- AccountSettings.AccountSettingsPage.SubmitDeleteProfile: the id is returned as text. The `parseInt` of the request is not applied.
- Settings.SettingsPage.OnRequestFailed: the `alert` text of the failure is not returned.
- The login, home, dashboard shell, programs, packages, clients, earnings, inbox, exercise-library and navbar screens, the routes and the date pipe are declarative or display-only, so they are not modelled.

## Findings

| source | as written | input that shows it | evidently intended | confidence | as-written member | corrected member |
|---|---|---|---|---|---|---|
| src/app/features/auth/forgot-password.component.ts:69-78 | on a mismatch the group validator calls `setErrors` on the confirmation control, and nothing ever clears that mark: only typing into the confirmation re-runs the control's own validation | new password `x`, confirmation `Abcdefg1!`, then new password corrected to `Abcdefg1!` | the confirmation's mismatch mark follows the mismatch, so the form becomes valid once the two passwords agree | not executed | ForgotPassword.StaleMismatchAsWritten | ForgotPassword.MarkConsistentPreserved |
