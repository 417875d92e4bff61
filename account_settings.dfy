/**
 * The account-settings screen: four tabs (profile, change password, reset
 * password, delete profile), the form rules of each tab and the guards that
 * run before a request is sent. A request is returned as an output value;
 * its reply is not modelled.
 */
module AccountSettings {
  import opened Common
  import opened Forms
  import opened PasswordRules

  datatype Tab = UpdateProfile | ChangePassword | ResetPassword | DeleteProfile

  /** The name a tab has in the `tab` query parameter. */
  function TabName(t: Tab): string
  {
    match t
    case UpdateProfile => "update-profile"
    case ChangePassword => "change-password"
    case ResetPassword => "reset-password"
    case DeleteProfile => "delete-profile"
  }

  /** The tab a query-parameter value names, if it names one. */
  function TabFromName(s: string): (r: Option<Tab>)
    ensures r.Some? ==> TabName(r.value) == s
    ensures r.None? ==> forall t: Tab :: TabName(t) != s
  {
    if s == "update-profile" then Some(UpdateProfile)
    else if s == "change-password" then Some(ChangePassword)
    else if s == "reset-password" then Some(ResetPassword)
    else if s == "delete-profile" then Some(DeleteProfile)
    else None
  }

  lemma TabNameRoundTrip(t: Tab)
    ensures TabFromName(TabName(t)) == Some(t)
  {
  }

  /** The tab after a `tab` query parameter arrives: adopted only when it names a tab. */
  function AdoptTab(current: Tab, param: Option<string>): (r: Tab)
    ensures param.Some? && (exists t: Tab :: TabName(t) == param.value) ==> TabName(r) == param.value
    ensures (param.None? || forall t: Tab :: TabName(t) != param.value) ==> r == current
  {
    if param.Some? && param.value != "" then
      match TabFromName(param.value)
      case Some(t) => t
      case None => current
    else current
  }

  /** The `newPassword` control: required, eight characters or more, and not weak. */
  predicate NewPasswordValid(v: string)
  {
    Required(v) && MinLength(v, 8) && !WeakPassword(v)
  }

  /** A new password is valid exactly when it has eight characters and all four classes. */
  lemma NewPasswordValidMeans(v: string)
    ensures NewPasswordValid(v) <==> |v| >= 8 && HasAllClasses(v, IsStrengthSymbol)
  {
  }

  /** The profile form; `emailAccepted` is the verdict of `Validators.email`. */
  predicate UpdateProfileFormValid(fullName: string, userName: string, email: string, emailAccepted: bool)
  {
    Required(fullName) && MinLength(fullName, 3) &&
    Required(userName) && MinLength(userName, 3) &&
    Required(email) && emailAccepted
  }

  /** The change-password form, including the group's match rule. */
  predicate ChangePasswordFormValid(currentPassword: string, newPassword: string, confirm: string)
  {
    Required(currentPassword) && NewPasswordValid(newPassword) && Required(confirm) &&
    !Mismatch(newPassword, confirm)
  }

  /** The reset-password form, including the group's match rule. */
  predicate ResetPasswordFormValid(email: string, emailAccepted: bool, token: string, newPassword: string, confirm: string)
  {
    Required(email) && emailAccepted && Required(token) &&
    NewPasswordValid(newPassword) && Required(confirm) && !Mismatch(newPassword, confirm)
  }

  /** A valid password form carries the same, strong password twice. */
  lemma ChangePasswordFormValidMeans(currentPassword: string, newPassword: string, confirm: string)
    ensures ChangePasswordFormValid(currentPassword, newPassword, confirm) <==>
      currentPassword != "" && confirm == newPassword &&
      |newPassword| >= 8 && HasAllClasses(newPassword, IsStrengthSymbol)
  {
    NewPasswordValidMeans(newPassword);
  }

  datatype UpdateProfileRequest = UpdateProfileRequest(userName: string, email: string, fullName: string, profilePhoto: Option<File>)
  datatype ChangePasswordRequest = ChangePasswordRequest(currentPassword: string, newPassword: string, confirmNewPassword: string)
  datatype ResetPasswordRequest = ResetPasswordRequest(email: string, token: string, newPassword: string, confirmNewPassword: string)

  const UpdateProfileInvalid := "Please fill in all required fields correctly"
  const PasswordFormInvalid := "Please fill in all fields correctly. Passwords must match and meet strength requirements."
  const UserIdNotFound := "User ID not found"

  class AccountSettingsPage {
    var activeTab: Tab
    var isLoading: bool
    var successMessage: string
    var errorMessage: string
    var showDeleteConfirmation: bool
    /** `currentUser?.id`, read once from the auth service. */
    var currentUserId: Option<string>

    constructor (userId: Option<string>)
      ensures activeTab == UpdateProfile && !isLoading && successMessage == "" && errorMessage == ""
      ensures !showDeleteConfirmation && currentUserId == userId
    {
      activeTab := UpdateProfile;
      isLoading := false;
      successMessage := "";
      errorMessage := "";
      showDeleteConfirmation := false;
      currentUserId := userId;
    }

    /** The `queryParams` subscription of `ngOnInit`. */
    method OnQueryParams(tab: Option<string>)
      modifies this`activeTab
      ensures activeTab == AdoptTab(old(activeTab), tab)
    {
      activeTab := AdoptTab(activeTab, tab);
    }

    method SwitchTab(tab: Tab)
      modifies this`activeTab, this`errorMessage, this`successMessage
      ensures activeTab == tab && errorMessage == "" && successMessage == ""
    {
      activeTab := tab;
      errorMessage := "";
      successMessage := "";
    }

    /** `submitUpdateProfile` up to the request it sends. */
    method SubmitUpdateProfile(fullName: string, userName: string, email: string, emailAccepted: bool,
                               selectedFile: Option<File>)
      returns (sent: Option<UpdateProfileRequest>)
      modifies this`isLoading, this`errorMessage, this`successMessage
      ensures !UpdateProfileFormValid(fullName, userName, email, emailAccepted) ==>
        sent.None? && errorMessage == UpdateProfileInvalid &&
        isLoading == old(isLoading) && successMessage == old(successMessage)
      ensures UpdateProfileFormValid(fullName, userName, email, emailAccepted) ==>
        sent == Some(UpdateProfileRequest(userName, email, fullName, selectedFile)) &&
        isLoading && errorMessage == "" && successMessage == ""
    {
      if !UpdateProfileFormValid(fullName, userName, email, emailAccepted) {
        errorMessage := UpdateProfileInvalid;
        return None;
      }
      isLoading := true;
      errorMessage := "";
      successMessage := "";
      sent := Some(UpdateProfileRequest(userName, email, fullName, selectedFile));
    }

    /** `submitChangePassword` up to the request it sends. */
    method SubmitChangePassword(currentPassword: string, newPassword: string, confirm: string)
      returns (sent: Option<ChangePasswordRequest>)
      modifies this`isLoading, this`errorMessage, this`successMessage
      ensures !ChangePasswordFormValid(currentPassword, newPassword, confirm) ==>
        sent.None? && errorMessage == PasswordFormInvalid &&
        isLoading == old(isLoading) && successMessage == old(successMessage)
      ensures ChangePasswordFormValid(currentPassword, newPassword, confirm) ==>
        sent == Some(ChangePasswordRequest(currentPassword, newPassword, confirm)) &&
        isLoading && errorMessage == "" && successMessage == ""
    {
      if !ChangePasswordFormValid(currentPassword, newPassword, confirm) {
        errorMessage := PasswordFormInvalid;
        return None;
      }
      isLoading := true;
      errorMessage := "";
      successMessage := "";
      sent := Some(ChangePasswordRequest(currentPassword, newPassword, confirm));
    }

    /** `submitResetPassword` up to the request it sends. */
    method SubmitResetPassword(email: string, emailAccepted: bool, token: string, newPassword: string, confirm: string)
      returns (sent: Option<ResetPasswordRequest>)
      modifies this`isLoading, this`errorMessage, this`successMessage
      ensures !ResetPasswordFormValid(email, emailAccepted, token, newPassword, confirm) ==>
        sent.None? && errorMessage == PasswordFormInvalid &&
        isLoading == old(isLoading) && successMessage == old(successMessage)
      ensures ResetPasswordFormValid(email, emailAccepted, token, newPassword, confirm) ==>
        sent == Some(ResetPasswordRequest(email, token, newPassword, confirm)) &&
        isLoading && errorMessage == "" && successMessage == ""
    {
      if !ResetPasswordFormValid(email, emailAccepted, token, newPassword, confirm) {
        errorMessage := PasswordFormInvalid;
        return None;
      }
      isLoading := true;
      errorMessage := "";
      successMessage := "";
      sent := Some(ResetPasswordRequest(email, token, newPassword, confirm));
    }

    /**
     * `submitDeleteProfile` up to the request: with no user id it only sets
     * the error; otherwise it sends the id (the request's `parseInt` is not
     * modelled, so the id is returned as text).
     */
    method SubmitDeleteProfile() returns (sent: Option<string>)
      modifies this`isLoading, this`errorMessage, this`successMessage
      ensures !PresentText(currentUserId) ==>
        sent.None? && errorMessage == UserIdNotFound &&
        isLoading == old(isLoading) && successMessage == old(successMessage)
      ensures PresentText(currentUserId) ==>
        sent == currentUserId && isLoading && errorMessage == "" && successMessage == ""
    {
      if !PresentText(currentUserId) {
        errorMessage := UserIdNotFound;
        return None;
      }
      isLoading := true;
      errorMessage := "";
      successMessage := "";
      sent := currentUserId;
    }

    method CancelDelete()
      modifies this`showDeleteConfirmation, this`errorMessage
      ensures !showDeleteConfirmation && errorMessage == ""
    {
      showDeleteConfirmation := false;
      errorMessage := "";
    }
  }
}
