/**
 * The trainer's own profile screen: the profile form and its rules, the
 * cover-image checks, and the submit that builds the multipart request and
 * chooses between creating and updating the profile.
 */
module TrainerProfile {
  import opened Common
  import opened Forms
  import opened TrainerService

  /** The values of the profile form; the number input is None when it is empty. */
  datatype ProfileForm = ProfileForm(
    handle: string,
    bio: string,
    yearsExperience: Option<int>,
    videoIntroUrl: Option<string>,
    brandingColors: Option<string>)

  /** The form as `initializeForm` builds it. */
  const InitialForm := ProfileForm("", "", Some(0), Some(""), Some(""))

  /** The form's validators: handle required, 3 to 50 characters; bio at most 500; years required, 0 to 50. */
  predicate FormValid(f: ProfileForm)
  {
    Required(f.handle) && MinLength(f.handle, 3) && MaxLength(f.handle, 50) &&
    MaxLength(f.bio, 500) &&
    RequiredNumber(f.yearsExperience) && MinNumber(f.yearsExperience, 0) && MaxNumber(f.yearsExperience, 50)
  }

  lemma FormValidMeans(f: ProfileForm)
    ensures FormValid(f) <==>
      3 <= |f.handle| <= 50 && |f.bio| <= 500 &&
      f.yearsExperience.Some? && 0 <= f.yearsExperience.value <= 50
  {
  }

  /** The largest cover image accepted, in bytes: 5 MB. */
  const MaxCoverSize: nat := 5 * 1024 * 1024

  const AcceptedImageTypes := ["image/jpeg", "image/jpg", "image/png", "image/gif", "image/webp"]

  datatype FileProblem = TooLarge | WrongType

  /** `onFileSelect`'s checks: the size first, then the MIME type. */
  function CheckCoverFile(file: File): (p: Option<FileProblem>)
    ensures p == Some(TooLarge) <==> file.size > MaxCoverSize
    ensures p == Some(WrongType) <==> file.size <= MaxCoverSize && file.mimeType !in AcceptedImageTypes
    ensures p.None? <==> file.size <= MaxCoverSize && file.mimeType in AcceptedImageTypes
  {
    if file.size > MaxCoverSize then Some(TooLarge)
    else if file.mimeType !in AcceptedImageTypes then Some(WrongType)
    else None
  }

  /** A file of exactly 5 MB passes the size check. */
  lemma FiveMegabytesAccepted(name: string)
    ensures CheckCoverFile(File(name, 5242880, "image/png")).None?
  {
  }

  const SizeErrorPrefix := "File size exceeds 5MB limit. File size: "
  const TypeErrorPrefix := "Invalid file type. Accepted formats: JPG, PNG, GIF, WebP. Got: "

  /** The message for a problem; `sizeInMb` is the size as `toFixed(2)` renders it, followed by `MB`. */
  function ProblemMessage(p: FileProblem, file: File, sizeInMb: string): string
  {
    match p
    case TooLarge => SizeErrorPrefix + sizeInMb + "MB"
    case WrongType => TypeErrorPrefix + file.mimeType
  }

  /** `String(yearsExperience || 0)`: an empty input and 0 both give `"0"`. */
  function YearsText(y: Option<int>): (t: string)
    ensures y.None? ==> t == "0"
    ensures y.Some? ==> t == IntToString(y.value)
  {
    if y.Some? && y.value != 0 then IntToString(y.value) else "0"
  }

  /** The optional trailing fields: each one only when its value is present (truthy). */
  function OptionalFields(f: ProfileForm, cover: Option<File>): seq<FormField>
  {
    (if cover.Some? then [FormField("coverImage", FileValue(cover.value))] else []) +
    (if PresentText(f.videoIntroUrl) then [FormField("videoIntroUrl", TextValue(f.videoIntroUrl.value))] else []) +
    (if PresentText(f.brandingColors) then [FormField("brandingColors", TextValue(f.brandingColors.value))] else [])
  }

  /** The four fields every submit carries, in their order. */
  function RequiredFields(userId: string, f: ProfileForm): seq<FormField>
  {
    [FormField("userId", TextValue(userId)),
     FormField("handle", TextValue(f.handle)),
     FormField("bio", TextValue(f.bio)),
     FormField("yearsExperience", TextValue(YearsText(f.yearsExperience)))]
  }

  /** The multipart body of the submit, field by field. */
  function SubmitFields(userId: string, f: ProfileForm, cover: Option<File>): (fields: seq<FormField>)
    ensures 4 <= |fields| <= 7
  {
    RequiredFields(userId, f) + OptionalFields(f, cover)
  }

  /** Get on the submit's fields: the required ones are looked at first, then the optional ones. */
  lemma GetSubmitField(userId: string, f: ProfileForm, cover: Option<File>, name: string)
    ensures Get(SubmitFields(userId, f, cover), name) ==
      if name == "userId" then Some(TextValue(userId))
      else if name == "handle" then Some(TextValue(f.handle))
      else if name == "bio" then Some(TextValue(f.bio))
      else if name == "yearsExperience" then Some(TextValue(YearsText(f.yearsExperience)))
      else Get(OptionalFields(f, cover), name)
  {
    var h := RequiredFields(userId, f);
    GetConcat(h, OptionalFields(f, cover), name);
    assert h == [h[0]] + ([h[1]] + ([h[2]] + [h[3]]));
    GetConcat([h[0]], [h[1]] + ([h[2]] + [h[3]]), name);
    GetConcat([h[1]], [h[2]] + [h[3]], name);
    GetConcat([h[2]], [h[3]], name);
    GetSingle(h[0], name);
    GetSingle(h[1], name);
    GetSingle(h[2], name);
    GetSingle(h[3], name);
  }

  /** Get on the optional fields: each is found exactly when its value is present. */
  lemma GetOptionalField(f: ProfileForm, cover: Option<File>, name: string)
    ensures Get(OptionalFields(f, cover), name) ==
      if name == "coverImage" && cover.Some? then Some(FileValue(cover.value))
      else if name == "videoIntroUrl" && PresentText(f.videoIntroUrl) then Some(TextValue(f.videoIntroUrl.value))
      else if name == "brandingColors" && PresentText(f.brandingColors) then Some(TextValue(f.brandingColors.value))
      else None
  {
    var c := if cover.Some? then [FormField("coverImage", FileValue(cover.value))] else [];
    var v := if PresentText(f.videoIntroUrl) then [FormField("videoIntroUrl", TextValue(f.videoIntroUrl.value))] else [];
    var b := if PresentText(f.brandingColors) then [FormField("brandingColors", TextValue(f.brandingColors.value))] else [];
    GetConcat(c + v, b, name);
    GetConcat(c, v, name);
    if cover.Some? { GetSingle(c[0], name); }
    if PresentText(f.videoIntroUrl) { GetSingle(v[0], name); }
    if PresentText(f.brandingColors) { GetSingle(b[0], name); }
  }

  /**
   * What `formData.get(name)` gives on the submit: the four required fields
   * always, and each optional field exactly when its value is present.
   */
  lemma SubmitFieldsByName(userId: string, f: ProfileForm, cover: Option<File>)
    ensures Get(SubmitFields(userId, f, cover), "userId") == Some(TextValue(userId))
    ensures Get(SubmitFields(userId, f, cover), "handle") == Some(TextValue(f.handle))
    ensures Get(SubmitFields(userId, f, cover), "bio") == Some(TextValue(f.bio))
    ensures Get(SubmitFields(userId, f, cover), "yearsExperience") == Some(TextValue(YearsText(f.yearsExperience)))
    ensures Get(SubmitFields(userId, f, cover), "coverImage") ==
            if cover.Some? then Some(FileValue(cover.value)) else None
    ensures Get(SubmitFields(userId, f, cover), "videoIntroUrl") ==
            if PresentText(f.videoIntroUrl) then Some(TextValue(f.videoIntroUrl.value)) else None
    ensures Get(SubmitFields(userId, f, cover), "brandingColors") ==
            if PresentText(f.brandingColors) then Some(TextValue(f.brandingColors.value)) else None
  {
    GetSubmitField(userId, f, cover, "userId");
    GetSubmitField(userId, f, cover, "handle");
    GetSubmitField(userId, f, cover, "bio");
    GetSubmitField(userId, f, cover, "yearsExperience");
    GetSubmitField(userId, f, cover, "coverImage");
    GetSubmitField(userId, f, cover, "videoIntroUrl");
    GetSubmitField(userId, f, cover, "brandingColors");
    GetOptionalField(f, cover, "coverImage");
    GetOptionalField(f, cover, "videoIntroUrl");
    GetOptionalField(f, cover, "brandingColors");
  }

  /** The request the submit sends: an update of an existing profile, or a create. */
  datatype SaveRequest = CreateProfile(fields: seq<FormField>) | UpdateProfile(profileId: int, fields: seq<FormField>)

  const FormIncomplete := "Please fill in all required fields."
  const UnknownUser := "Unable to identify user. Please login again."
  const SaveFailed := "Failed to save profile. Please try again."

  class TrainerProfilePage {
    var profile: Option<TrainerProfileResponse>
    var loading: bool
    var isSubmitting: bool
    var isEditing: bool
    var errorMessage: string
    var imagePreview: Option<string>
    var selectedFile: Option<File>
    var touched: bool
    var form: ProfileForm

    constructor ()
      ensures profile.None? && loading && !isSubmitting && !isEditing && errorMessage == ""
      ensures imagePreview.None? && selectedFile.None? && !touched && form == InitialForm
    {
      profile := None;
      loading := true;
      isSubmitting := false;
      isEditing := false;
      errorMessage := "";
      imagePreview := None;
      selectedFile := None;
      touched := false;
      form := InitialForm;
    }

    /** `loadProfile` up to the lookup: without a user id the screen stops loading with an error. */
    method LoadProfile(userId: Option<string>) returns (lookup: Option<string>)
      modifies this`loading, this`errorMessage
      ensures !PresentText(userId) ==> lookup.None? && !loading && errorMessage == UnknownUser
      ensures PresentText(userId) ==> lookup == userId && loading == old(loading) && errorMessage == old(errorMessage)
    {
      if !PresentText(userId) {
        loading := false;
        errorMessage := UnknownUser;
        return None;
      }
      lookup := userId;
    }

    /** The lookup answered: a profile, or None when it failed (no profile yet, the form is shown). */
    method OnProfileLoaded(p: Option<TrainerProfileResponse>)
      modifies this`profile, this`loading
      ensures profile == p && !loading
    {
      profile := p;
      loading := false;
    }

    /**
     * `onFileSelect`: with no file nothing changes; otherwise the error is
     * cleared and the file is kept only if it passes both checks.
     */
    method OnFileSelect(files: seq<File>, sizeInMb: string)
      modifies this`errorMessage, this`selectedFile
      ensures files == [] ==> errorMessage == old(errorMessage) && selectedFile == old(selectedFile)
      ensures files != [] && CheckCoverFile(files[0]).Some? ==>
        errorMessage == ProblemMessage(CheckCoverFile(files[0]).value, files[0], sizeInMb) &&
        selectedFile == old(selectedFile)
      ensures files != [] && CheckCoverFile(files[0]).None? ==>
        errorMessage == "" && selectedFile == Some(files[0])
    {
      if files == [] {
        return;
      }
      var file := files[0];
      errorMessage := "";
      var problem := CheckCoverFile(file);
      if problem.Some? {
        errorMessage := ProblemMessage(problem.value, file, sizeInMb);
        return;
      }
      selectedFile := Some(file);
    }

    /**
     * `onSubmit` up to the request: an invalid form or a missing user id
     * stops it with its message; otherwise the fields are assembled and an
     * update is chosen exactly when editing an existing profile.
     */
    method OnSubmit(userId: Option<string>) returns (sent: Option<SaveRequest>)
      modifies this`touched, this`errorMessage, this`isSubmitting
      ensures !FormValid(form) ==>
        sent.None? && touched && errorMessage == FormIncomplete && isSubmitting == old(isSubmitting)
      ensures FormValid(form) && !PresentText(userId) ==>
        sent.None? && errorMessage == UnknownUser && touched == old(touched) && isSubmitting == old(isSubmitting)
      ensures FormValid(form) && PresentText(userId) ==>
        sent.Some? && isSubmitting && errorMessage == "" && touched == old(touched) &&
        sent.value.fields == SubmitFields(userId.value, form, selectedFile) &&
        (sent.value.UpdateProfile? <==> isEditing && profile.Some?) &&
        (sent.value.UpdateProfile? ==> sent.value.profileId == profile.value.id)
    {
      if !FormValid(form) {
        touched := true;
        errorMessage := FormIncomplete;
        return None;
      }
      if !PresentText(userId) {
        errorMessage := UnknownUser;
        return None;
      }
      isSubmitting := true;
      errorMessage := "";
      var fields := SubmitFields(userId.value, form, selectedFile);
      if isEditing && profile.Some? {
        sent := Some(UpdateProfile(profile.value.id, fields));
      } else {
        sent := Some(CreateProfile(fields));
      }
    }

    /** The save succeeded with the returned profile. */
    method OnSaved(p: TrainerProfileResponse)
      modifies this`isSubmitting, this`profile, this`isEditing, this`imagePreview, this`selectedFile
      ensures !isSubmitting && profile == Some(p) && !isEditing && imagePreview.None? && selectedFile.None?
    {
      isSubmitting := false;
      profile := Some(p);
      isEditing := false;
      imagePreview := None;
      selectedFile := None;
    }

    /** The save failed; `message` is the error's message. */
    method OnSaveFailed(message: Option<string>)
      modifies this`isSubmitting, this`errorMessage
      ensures !isSubmitting && errorMessage == OrText(message, SaveFailed)
    {
      isSubmitting := false;
      errorMessage := OrText(message, SaveFailed);
    }

    /** `editProfile`: the form is filled from the existing profile, if there is one. */
    method EditProfile()
      modifies this`isEditing, this`form
      ensures isEditing
      ensures profile.Some? ==> form == ProfileForm(profile.value.handle, profile.value.bio,
                                  Some(profile.value.yearsExperience), profile.value.videoIntroUrl,
                                  profile.value.brandingColors)
      ensures profile.None? ==> form == old(form)
    {
      isEditing := true;
      if profile.Some? {
        form := ProfileForm(profile.value.handle, profile.value.bio, Some(profile.value.yearsExperience),
                            profile.value.videoIntroUrl, profile.value.brandingColors);
      }
    }

    /**
     * `cancelEdit`: leaves editing, drops the chosen file and its preview and
     * rebuilds the form; the new form's controls are untouched.
     */
    method CancelEdit()
      modifies this`isEditing, this`errorMessage, this`imagePreview, this`selectedFile, this`form, this`touched
      ensures !isEditing && errorMessage == "" && imagePreview.None? && selectedFile.None? && form == InitialForm
      ensures !touched
    {
      isEditing := false;
      errorMessage := "";
      imagePreview := None;
      selectedFile := None;
      form := InitialForm;
      touched := false;
    }
  }
}
