/**
 * The trainer registration screen: its form rules, and the multipart
 * request `onSubmit` builds field by field when the form is valid.
 */
module Register {
  import opened Common
  import opened Forms
  import opened PasswordRules

  /**
   * The registration form; `emailAccepted` is the verdict of
   * `Validators.email`, and `photo` is the `profilePhoto` control's value.
   */
  predicate RegisterFormValid(userName: string, email: string, emailAccepted: bool, fullName: string,
                              password: string, confirm: string, photo: Option<File>)
  {
    Required(userName) && MinLength(userName, 3) &&
    Required(email) && emailAccepted &&
    Required(fullName) && MinLength(fullName, 3) &&
    Required(password) && MinLength(password, 8) && PatternAccepts(password) &&
    Required(confirm) &&
    photo.Some? &&
    !Mismatch(password, confirm)
  }

  /** What a valid registration form guarantees about its values. */
  lemma RegisterFormValidMeans(userName: string, email: string, emailAccepted: bool, fullName: string,
                               password: string, confirm: string, photo: Option<File>)
    ensures RegisterFormValid(userName, email, emailAccepted, fullName, password, confirm, photo) <==>
      |userName| >= 3 && |fullName| >= 3 && email != "" && emailAccepted && photo.Some? &&
      PatternTest(password) && confirm == password
  {
  }

  /** The field names of the registration request, in the order they are appended. */
  const RegisterFieldNames := ["userName", "email", "fullName", "password", "confirmPassword", "profilePhoto", "role"]

  /** `role` is sent as the text `2`, the trainer role. */
  const TrainerRoleCode := "2"

  class RegisterPage {
    var isLoading: bool
    var touched: bool
    var selectedFile: Option<File>

    constructor ()
      ensures !isLoading && !touched && selectedFile.None?
    {
      isLoading := false;
      touched := false;
      selectedFile := None;
    }

    /** `onFileSelected`: the first chosen file, if any, becomes the photo. */
    method OnFileSelected(files: seq<File>)
      modifies this`selectedFile
      ensures files != [] ==> selectedFile == Some(files[0])
      ensures files == [] ==> selectedFile == old(selectedFile)
    {
      if files != [] {
        selectedFile := Some(files[0]);
      }
    }

    /**
     * `onSubmit` up to the request: an invalid form is only marked touched;
     * a valid one gives the seven fields in their order.
     */
    method OnSubmit(userName: string, email: string, emailAccepted: bool, fullName: string,
                    password: string, confirm: string)
      returns (sent: Option<seq<FormField>>)
      modifies this`isLoading, this`touched
      ensures !RegisterFormValid(userName, email, emailAccepted, fullName, password, confirm, selectedFile) ==>
        sent.None? && touched && isLoading == old(isLoading)
      ensures RegisterFormValid(userName, email, emailAccepted, fullName, password, confirm, selectedFile) ==>
        sent.Some? && isLoading && touched == old(touched) &&
        sent.value == [FormField("userName", TextValue(userName)),
                       FormField("email", TextValue(email)),
                       FormField("fullName", TextValue(fullName)),
                       FormField("password", TextValue(password)),
                       FormField("confirmPassword", TextValue(confirm)),
                       FormField("profilePhoto", FileValue(selectedFile.value)),
                       FormField("role", TextValue(TrainerRoleCode))]
      ensures sent.Some? ==> Names(sent.value) == RegisterFieldNames
    {
      if !RegisterFormValid(userName, email, emailAccepted, fullName, password, confirm, selectedFile) {
        touched := true;
        return None;
      }
      isLoading := true;
      var fields := [FormField("userName", TextValue(userName)),
                     FormField("email", TextValue(email)),
                     FormField("fullName", TextValue(fullName)),
                     FormField("password", TextValue(password)),
                     FormField("confirmPassword", TextValue(confirm)),
                     FormField("profilePhoto", FileValue(selectedFile.value)),
                     FormField("role", TextValue(TrainerRoleCode))];
      assert forall i :: 0 <= i < |fields| ==> Names(fields)[i] == RegisterFieldNames[i];
      sent := Some(fields);
    }
  }
}
