/**
 * The forgot-password screen. Step one asks for an e-mail address and sends a
 * reset link; step two, entered from that link, takes the new password. The
 * reset form's match validator writes its error onto the confirm control as
 * well as returning it; `ResetFormState` models the form with that extra mark.
 */
module ForgotPassword {
  import opened Common
  import opened Forms
  import opened PasswordRules

  datatype Step = EmailStep | ResetStep

  /** The `newPassword` control's own validators: required, min length 8, the pattern. */
  predicate NewPasswordControlValid(v: string)
  {
    Required(v) && MinLength(v, 8) && PatternAccepts(v)
  }

  /** The reset form as its validators describe it (what a user expects to be checked). */
  predicate ResetRulesHold(newPassword: string, confirm: string)
  {
    NewPasswordControlValid(newPassword) && Required(confirm) &&
    !MismatchWhenBothGiven(newPassword, confirm)
  }

  /** The rules accept exactly a pattern-conforming password typed twice. */
  lemma ResetRulesMeans(newPassword: string, confirm: string)
    ensures ResetRulesHold(newPassword, confirm) <==>
      confirm == newPassword && PatternTest(newPassword)
  {
  }

  /**
   * The reset form's state: the two values, and whether the confirm control
   * carries the `passwordMismatch` error that the group validator put there
   * with `setErrors` (it replaces the control's own errors).
   */
  datatype ResetFormState = ResetFormState(newPassword: string, confirm: string, confirmMarked: bool)

  const InitialResetForm := ResetFormState("", "", false)

  /** `resetForm.invalid` is false: every control and the group are free of errors. */
  predicate FormValid(st: ResetFormState)
  {
    NewPasswordControlValid(st.newPassword) &&
    Required(st.confirm) && !st.confirmMarked &&
    !MismatchWhenBothGiven(st.newPassword, st.confirm)
  }

  /** The group validator as written: on a mismatch it marks the confirm control; otherwise it leaves it. */
  function GroupValidateAsWritten(st: ResetFormState): (r: ResetFormState)
    ensures r.newPassword == st.newPassword && r.confirm == st.confirm
    ensures r.confirmMarked == (st.confirmMarked || MismatchWhenBothGiven(st.newPassword, st.confirm))
  {
    if MismatchWhenBothGiven(st.newPassword, st.confirm) then st.(confirmMarked := true) else st
  }

  /** Typing into `newPassword`, as written: only the new control and then the group are validated. */
  function EditNewPasswordAsWritten(st: ResetFormState, v: string): (r: ResetFormState)
    ensures r.newPassword == v && r.confirm == st.confirm
    ensures r.confirmMarked == (st.confirmMarked || MismatchWhenBothGiven(v, st.confirm))
  {
    GroupValidateAsWritten(st.(newPassword := v))
  }

  /** The group validator as intended: the confirm control's mark follows the mismatch both ways. */
  function GroupValidate(st: ResetFormState): (r: ResetFormState)
    ensures r.newPassword == st.newPassword && r.confirm == st.confirm
    ensures r.confirmMarked == MismatchWhenBothGiven(st.newPassword, st.confirm)
  {
    st.(confirmMarked := MismatchWhenBothGiven(st.newPassword, st.confirm))
  }

  /** Typing into `newPassword`. */
  function EditNewPassword(st: ResetFormState, v: string): (r: ResetFormState)
    ensures r.newPassword == v && r.confirm == st.confirm
    ensures r.confirmMarked == MismatchWhenBothGiven(v, st.confirm)
  {
    GroupValidate(st.(newPassword := v))
  }

  /** Typing into `confirmNewPassword`: its own validation drops the mark, then the group runs. */
  function EditConfirm(st: ResetFormState, v: string): (r: ResetFormState)
    ensures r.confirm == v && r.newPassword == st.newPassword
    ensures r.confirmMarked == MismatchWhenBothGiven(st.newPassword, v)
  {
    GroupValidate(st.(confirm := v, confirmMarked := false))
  }

  /** The mark agrees with the match rule. */
  predicate MarkConsistent(st: ResetFormState)
  {
    st.confirmMarked == MismatchWhenBothGiven(st.newPassword, st.confirm)
  }

  /** Both edits keep the mark consistent, and in a consistent state validity is the rules' verdict. */
  lemma MarkConsistentPreserved(st: ResetFormState, v: string)
    ensures MarkConsistent(InitialResetForm)
    ensures MarkConsistent(EditNewPassword(st, v)) && MarkConsistent(EditConfirm(st, v))
    ensures MarkConsistent(st) ==> (FormValid(st) <==> ResetRulesHold(st.newPassword, st.confirm))
  {
  }

  /**
   * As written, a stale mark survives: type `x`, then `Abcdefg1!` as
   * confirmation (mismatch, the confirm control is marked), then correct the
   * new password to `Abcdefg1!`. The rules hold, yet the form stays invalid
   * until the confirmation is typed again.
   */
  lemma StaleMismatchAsWritten()
    ensures var st := EditNewPasswordAsWritten(
              GroupValidateAsWritten(InitialResetForm.(newPassword := "x", confirm := "Abcdefg1!")),
              "Abcdefg1!");
            ResetRulesHold(st.newPassword, st.confirm) && !FormValid(st)
  {
    var s := "Abcdefg1!";
    var marked := GroupValidateAsWritten(ResetFormState("x", s, false));
    assert MismatchWhenBothGiven("x", s);
    assert marked == ResetFormState("x", s, true);
    var st := EditNewPasswordAsWritten(marked, s);
    assert st == ResetFormState(s, s, true);
    PatternAcceptsSample();
  }

  datatype ResetRequest = ResetRequest(email: string, token: string, newPassword: string, confirmNewPassword: string)

  const InvalidResetLink := "Invalid reset link. Please request a new one."
  const LoginRoute := "/auth/login"

  class ForgotPasswordPage {
    var step: Step
    var resetToken: Option<string>
    var resetEmail: Option<string>
    var isLoading: bool
    var emailFormTouched: bool
    var resetFormTouched: bool
    var resetForm: ResetFormState

    /** The mark on the confirm control agrees with the match rule. */
    ghost predicate Valid()
      reads this
    {
      MarkConsistent(resetForm)
    }

    constructor ()
      ensures Valid() && step == EmailStep && resetToken.None? && resetEmail.None?
      ensures !isLoading && !emailFormTouched && !resetFormTouched && resetForm == InitialResetForm
    {
      step := EmailStep;
      resetToken := None;
      resetEmail := None;
      isLoading := false;
      emailFormTouched := false;
      resetFormTouched := false;
      resetForm := InitialResetForm;
    }

    /**
     * `checkResetLink`: the reset step is entered when both parameters are
     * present. `decode` is `decodeURIComponent`, None when it throws; the
     * token is assigned before the decoding, so it stays set on a throw.
     */
    method CheckResetLink(token: Option<string>, email: Option<string>, decode: string -> Option<string>)
      modifies this`step, this`resetToken, this`resetEmail
      ensures !(PresentText(token) && PresentText(email)) ==>
        step == old(step) && resetToken == old(resetToken) && resetEmail == old(resetEmail)
      ensures PresentText(token) && PresentText(email) ==> resetToken == token
      ensures PresentText(token) && PresentText(email) && decode(email.value).Some? ==>
        resetEmail == decode(email.value) && step == ResetStep
      ensures PresentText(token) && PresentText(email) && decode(email.value).None? ==>
        resetEmail == old(resetEmail) && step == old(step)
    {
      if PresentText(token) && PresentText(email) {
        resetToken := token;
        var decoded := decode(email.value);
        if decoded.Some? {
          resetEmail := decoded;
          step := ResetStep;
        }
      }
    }

    method OnNewPasswordInput(v: string)
      requires Valid()
      modifies this`resetForm
      ensures Valid()
      ensures resetForm.newPassword == v && resetForm.confirm == old(resetForm.confirm)
    {
      MarkConsistentPreserved(resetForm, v);
      resetForm := EditNewPassword(resetForm, v);
    }

    method OnConfirmInput(v: string)
      requires Valid()
      modifies this`resetForm
      ensures Valid()
      ensures resetForm.confirm == v && resetForm.newPassword == old(resetForm.newPassword)
    {
      MarkConsistentPreserved(resetForm, v);
      resetForm := EditConfirm(resetForm, v);
    }

    /** `goBack`: returns the route it navigates to, if any; `reset()` leaves the form empty and untouched. */
    method GoBack() returns (nav: Option<string>)
      modifies this`step, this`resetToken, this`resetEmail, this`resetForm, this`resetFormTouched
      ensures old(step) == ResetStep ==>
        nav.None? && step == EmailStep && resetToken.None? && resetEmail.None? && resetForm == InitialResetForm &&
        !resetFormTouched
      ensures old(step) == EmailStep ==>
        nav == Some(LoginRoute) && step == old(step) && resetToken == old(resetToken) &&
        resetEmail == old(resetEmail) && resetForm == old(resetForm) && resetFormTouched == old(resetFormTouched)
      ensures old(Valid()) ==> Valid()
    {
      if step == ResetStep {
        step := EmailStep;
        resetToken := None;
        resetEmail := None;
        resetForm := InitialResetForm;
        resetFormTouched := false;
        nav := None;
      } else {
        nav := Some(LoginRoute);
      }
    }

    /** `onSendResetLink` up to the request; `emailAccepted` is the verdict of `Validators.email`. */
    method OnSendResetLink(email: string, emailAccepted: bool) returns (sent: Option<string>)
      modifies this`isLoading, this`emailFormTouched
      ensures !(Required(email) && emailAccepted) ==>
        sent.None? && emailFormTouched && isLoading == old(isLoading)
      ensures Required(email) && emailAccepted ==>
        sent == Some(email) && isLoading && emailFormTouched == old(emailFormTouched)
    {
      if !(Required(email) && emailAccepted) {
        emailFormTouched := true;
        return None;
      }
      isLoading := true;
      sent := Some(email);
    }

    /**
     * `onResetPassword` up to the request: an invalid form is only marked
     * touched; a missing token or e-mail gives the error toast's text.
     */
    method OnResetPassword() returns (sent: Option<ResetRequest>, error: Option<string>)
      modifies this`isLoading, this`resetFormTouched
      ensures !FormValid(resetForm) ==>
        sent.None? && error.None? && resetFormTouched && isLoading == old(isLoading)
      ensures FormValid(resetForm) && !(PresentText(resetToken) && PresentText(resetEmail)) ==>
        sent.None? && error == Some(InvalidResetLink) &&
        isLoading == old(isLoading) && resetFormTouched == old(resetFormTouched)
      ensures FormValid(resetForm) && PresentText(resetToken) && PresentText(resetEmail) ==>
        error.None? && isLoading && resetFormTouched == old(resetFormTouched) &&
        sent == Some(ResetRequest(resetEmail.value, resetToken.value, resetForm.newPassword, resetForm.confirm))
      ensures sent.Some? ==> PatternTest(sent.value.newPassword) && sent.value.newPassword == sent.value.confirmNewPassword
    {
      if !FormValid(resetForm) {
        resetFormTouched := true;
        return None, None;
      }
      if !(PresentText(resetToken) && PresentText(resetEmail)) {
        return None, Some(InvalidResetLink);
      }
      isLoading := true;
      sent := Some(ResetRequest(resetEmail.value, resetToken.value, resetForm.newPassword, resetForm.confirm));
      error := None;
    }
  }
}
