/**
 * The settings screen: a list of panels, each with a small form bound to
 * the component's fields. Before a request is built the profile form is
 * checked field by field in a fixed order, and both password forms check
 * that the two new passwords agree. The `updateProfile` and `changePassword`
 * requests go to members the auth service does not define, so they are
 * modelled as the requests themselves, returned to the caller.
 */
module Settings {
  import opened Common
  import opened Forms

  datatype Panel = List | Update | Change | Reset | Delete

  datatype ProfileData = ProfileData(userName: string, email: string, fullName: string)
  datatype ChangePasswordData = ChangePasswordData(currentPassword: string, newPassword: string, confirmNewPassword: string)
  datatype ResetPasswordData = ResetPasswordData(email: string, token: string, newPassword: string, confirmNewPassword: string)

  const UserNameAlert := "Username is required (min 3 chars)"
  const EmailAlert := "Email is required"
  const FullNameAlert := "Full name required"
  const MismatchAlert := "Passwords do not match"
  const UserIdAlert := "User ID not found"
  const NoProfileAlert := "No trainer profile found"

  /** A name field passes when it is given and three characters or longer. */
  predicate NameOk(s: string) { s != "" && |s| >= 3 }

  /**
   * The alert `updateProfile` raises, if any: the checks run in the order
   * user name, e-mail, full name, and the first failure is the one reported.
   */
  function ProfileCheck(d: ProfileData): (alert: Option<string>)
    ensures alert == Some(UserNameAlert) <==> !NameOk(d.userName)
    ensures alert == Some(EmailAlert) <==> NameOk(d.userName) && d.email == ""
    ensures alert == Some(FullNameAlert) <==> NameOk(d.userName) && d.email != "" && !NameOk(d.fullName)
    ensures alert.None? <==> NameOk(d.userName) && d.email != "" && NameOk(d.fullName)
  {
    if d.userName == "" || |d.userName| < 3 then Some(UserNameAlert)
    else if d.email == "" then Some(EmailAlert)
    else if d.fullName == "" || |d.fullName| < 3 then Some(FullNameAlert)
    else None
  }

  /** The profile request: the three text fields, then the photo only when a file is selected. */
  function ProfileFields(d: ProfileData, photo: Option<File>): (fields: seq<FormField>)
    ensures |fields| == if photo.Some? then 4 else 3
    ensures fields[..3] == [FormField("userName", TextValue(d.userName)),
                            FormField("email", TextValue(d.email)),
                            FormField("fullName", TextValue(d.fullName))]
  {
    [FormField("userName", TextValue(d.userName)),
     FormField("email", TextValue(d.email)),
     FormField("fullName", TextValue(d.fullName))] +
    (if photo.Some? then [FormField("profilePhoto", FileValue(photo.value))] else [])
  }

  /** A `profilePhoto` field is sent exactly when a file was selected, and it carries that file. */
  lemma ProfilePhotoSentIffSelected(d: ProfileData, photo: Option<File>)
    ensures (exists i :: 0 <= i < |ProfileFields(d, photo)| && ProfileFields(d, photo)[i].name == "profilePhoto")
            <==> photo.Some?
    ensures forall i :: 0 <= i < |ProfileFields(d, photo)| && ProfileFields(d, photo)[i].name == "profilePhoto" ==>
            ProfileFields(d, photo)[i].value == FileValue(photo.value)
  {
    var fields := ProfileFields(d, photo);
    assert fields[0].name == "userName" && fields[1].name == "email" && fields[2].name == "fullName";
    if photo.Some? {
      assert fields[3].name == "profilePhoto";
    }
  }

  datatype ChangePasswordRequest = ChangePasswordRequest(currentPassword: string, newPassword: string, confirmNewPassword: string)
  datatype ResetPasswordRequest = ResetPasswordRequest(email: string, token: string, newPassword: string, confirmNewPassword: string)

  class SettingsPage {
    var activePanel: Panel
    var loading: bool
    var profileData: ProfileData
    var profileFile: Option<File>
    var changeData: ChangePasswordData
    var resetData: ResetPasswordData

    constructor ()
      ensures activePanel == List && !loading && profileFile.None?
      ensures profileData == ProfileData("", "", "")
      ensures changeData == ChangePasswordData("", "", "")
      ensures resetData == ResetPasswordData("", "", "", "")
    {
      activePanel := List;
      loading := false;
      profileData := ProfileData("", "", "");
      profileFile := None;
      changeData := ChangePasswordData("", "", "");
      resetData := ResetPasswordData("", "", "", "");
    }

    method Open(panel: Panel)
      modifies this`activePanel
      ensures activePanel == panel
    {
      activePanel := panel;
    }

    /** `onFileChange`: the first chosen file, or none. */
    method OnFileChange(files: seq<File>)
      modifies this`profileFile
      ensures profileFile == if files != [] then Some(files[0]) else None
    {
      profileFile := if files != [] then Some(files[0]) else None;
    }

    /** `updateProfile` up to the request. */
    method UpdateProfile() returns (alert: Option<string>, sent: Option<seq<FormField>>)
      modifies this`loading
      ensures alert == ProfileCheck(profileData)
      ensures alert.Some? ==> sent.None? && loading == old(loading)
      ensures alert.None? ==> sent == Some(ProfileFields(profileData, profileFile)) && loading
    {
      alert := ProfileCheck(profileData);
      if alert.Some? {
        return alert, None;
      }
      sent := Some(ProfileFields(profileData, profileFile));
      loading := true;
    }

    /** `changePassword` up to the request; nothing else is checked. */
    method ChangePassword() returns (alert: Option<string>, sent: Option<ChangePasswordRequest>)
      modifies this`loading
      ensures changeData.newPassword != changeData.confirmNewPassword ==>
        alert == Some(MismatchAlert) && sent.None? && loading == old(loading)
      ensures changeData.newPassword == changeData.confirmNewPassword ==>
        alert.None? && loading &&
        sent == Some(ChangePasswordRequest(changeData.currentPassword, changeData.newPassword, changeData.confirmNewPassword))
    {
      if changeData.newPassword != changeData.confirmNewPassword {
        return Some(MismatchAlert), None;
      }
      loading := true;
      alert := None;
      sent := Some(ChangePasswordRequest(changeData.currentPassword, changeData.newPassword, changeData.confirmNewPassword));
    }

    /** `resetPassword` up to the request; nothing else is checked. */
    method ResetPassword() returns (alert: Option<string>, sent: Option<ResetPasswordRequest>)
      modifies this`loading
      ensures resetData.newPassword != resetData.confirmNewPassword ==>
        alert == Some(MismatchAlert) && sent.None? && loading == old(loading)
      ensures resetData.newPassword == resetData.confirmNewPassword ==>
        alert.None? && loading &&
        sent == Some(ResetPasswordRequest(resetData.email, resetData.token, resetData.newPassword, resetData.confirmNewPassword))
    {
      if resetData.newPassword != resetData.confirmNewPassword {
        return Some(MismatchAlert), None;
      }
      loading := true;
      alert := None;
      sent := Some(ResetPasswordRequest(resetData.email, resetData.token, resetData.newPassword, resetData.confirmNewPassword));
    }

    /** A profile or password request succeeded: back to the list. */
    method OnRequestSucceeded()
      modifies this`loading, this`activePanel
      ensures !loading && activePanel == List
    {
      loading := false;
      activePanel := List;
    }

    /** A request failed: the panel stays open. */
    method OnRequestFailed()
      modifies this`loading
      ensures !loading
    {
      loading := false;
    }

    /** `deleteTrainerProfile` up to the profile lookup; `userId` is what the token yields. */
    method DeleteTrainerProfile(userId: Option<string>) returns (alert: Option<string>, lookup: Option<string>)
      modifies this`loading
      ensures !PresentText(userId) ==> alert == Some(UserIdAlert) && lookup.None? && loading == old(loading)
      ensures PresentText(userId) ==> alert.None? && lookup == userId && loading
    {
      if !PresentText(userId) {
        return Some(UserIdAlert), None;
      }
      loading := true;
      alert := None;
      lookup := userId;
    }

    /**
     * The profile lookup answered with `profileId` (None when the reply has no
     * profile); `confirmed` is the user's answer to the confirmation dialog.
     */
    method OnProfileFound(profileId: Option<int>, confirmed: bool) returns (alert: Option<string>, deleteId: Option<int>)
      modifies this`loading
      ensures (profileId.None? || profileId.value == 0) ==> alert == Some(NoProfileAlert) && deleteId.None? && !loading
      ensures profileId.Some? && profileId.value != 0 && !confirmed ==> alert.None? && deleteId.None? && !loading
      ensures profileId.Some? && profileId.value != 0 && confirmed ==>
        alert.None? && deleteId == profileId && loading == old(loading)
    {
      if profileId.None? || profileId.value == 0 {
        loading := false;
        return Some(NoProfileAlert), None;
      }
      if !confirmed {
        loading := false;
        return None, None;
      }
      alert := None;
      deleteId := profileId;
    }
  }
}
