/**
 * The sign-up form's submit handler (components/auth/signup-form.tsx): the
 * two client-side checks, the loading flag around the sign-up call and the
 * error message shown. The sign-up call belongs to the authentication context
 * and is a foreign call here; whether it resolves is a parameter.
 */
module Signup {
  import opened Text

  const MismatchMessage: string := "Passwords do not match"
  const TooShortMessage: string := "Password must be at least 6 characters"
  const FailureMessage: string := "Failed to create account"
  const MinPasswordLength: nat := 6

  /** What `handleSubmit` does, in order. */
  datatype SubmitEvent =
    | ErrorSet(message: string)
    | LoadingSet(on: bool)
    | SignupCall(email: string, password: string, name: string)

  /** The message the checks reject a submission with, if any; the mismatch is checked first. */
  function ValidationError(password: string, confirmPassword: string): (m: string)
    ensures m == "" <==> password == confirmPassword && Utf16Length(password) >= MinPasswordLength
    ensures password != confirmPassword ==> m == MismatchMessage
    ensures password == confirmPassword && Utf16Length(password) < MinPasswordLength ==> m == TooShortMessage
  {
    if password != confirmPassword then MismatchMessage
    else if Utf16Length(password) < MinPasswordLength then TooShortMessage
    else ""
  }

  /**
   * The length check counts UTF-16 code units: a password of two letters and
   * two emoji passes it, although it has only four characters.
   */
  lemma AstralPasswordPasses()
    ensures var pw := "ab\U{1F600}\U{1F600}";
      |pw| == 4 && ValidationError(pw, pw) == ""
  {
  }

  /** The events of one submission, given whether the sign-up call resolves. */
  function SubmitEvents(name: string, email: string, password: string, confirmPassword: string, signupSucceeds: bool)
    : (ev: seq<SubmitEvent>)
    ensures |ev| >= 2 && ev[0] == ErrorSet("")
  {
    var invalid := ValidationError(password, confirmPassword);
    if invalid != "" then [ErrorSet(""), ErrorSet(invalid)]
    else
      var call := [ErrorSet(""), LoadingSet(true), SignupCall(email, password, name)];
      if signupSucceeds then call + [LoadingSet(false)]
      else call + [ErrorSet(FailureMessage), LoadingSet(false)]
  }

  /** The error the form shows afterwards: the last message set. */
  function LastError(ev: seq<SubmitEvent>, current: string): string
  {
    if ev == [] then current
    else if ev[|ev| - 1].ErrorSet? then ev[|ev| - 1].message
    else LastError(ev[..|ev| - 1], current)
  }

  /** The account is requested exactly when both checks pass, and then with the form's values. */
  lemma SignupOnlyWhenValid(name: string, email: string, password: string, confirmPassword: string, ok: bool)
    ensures (exists i :: 0 <= i < |SubmitEvents(name, email, password, confirmPassword, ok)|
               && SubmitEvents(name, email, password, confirmPassword, ok)[i].SignupCall?)
      <==> password == confirmPassword && Utf16Length(password) >= MinPasswordLength
    ensures password == confirmPassword && Utf16Length(password) >= MinPasswordLength ==>
      SubmitEvents(name, email, password, confirmPassword, ok)[2] == SignupCall(email, password, name)
  {
    var ev := SubmitEvents(name, email, password, confirmPassword, ok);
    if password == confirmPassword && Utf16Length(password) >= MinPasswordLength {
      assert ev[2].SignupCall?;
    }
  }

  /**
   * The message left on screen: the check's message when a check fails (the
   * mismatch first), the failure message when the call rejects, none on success.
   */
  lemma {:induction false} ShownError(name: string, email: string, password: string, confirmPassword: string,
                                      ok: bool, current: string)
    ensures var shown := LastError(SubmitEvents(name, email, password, confirmPassword, ok), current);
      shown == (if password != confirmPassword then MismatchMessage
                else if Utf16Length(password) < MinPasswordLength then TooShortMessage
                else if ok then ""
                else FailureMessage)
  {
    var ev := SubmitEvents(name, email, password, confirmPassword, ok);
    if ValidationError(password, confirmPassword) == "" && ok {
      var front := ev[..|ev| - 1];
      assert front == [ErrorSet(""), LoadingSet(true), SignupCall(email, password, name)];
      assert front[..2] == [ErrorSet(""), LoadingSet(true)];
      assert front[..2][..1] == [ErrorSet("")];
      assert LastError(front[..2], current) == "";
      assert LastError(front, current) == "";
    } else if ValidationError(password, confirmPassword) == "" {
      assert ev[..|ev| - 1][|ev| - 2] == ErrorSet(FailureMessage);
    }
  }

  /** When the call is made, the loading flag is raised before it and lowered at the end. */
  lemma LoadingBracketsCall(name: string, email: string, password: string, confirmPassword: string, ok: bool)
    requires ValidationError(password, confirmPassword) == ""
    ensures var ev := SubmitEvents(name, email, password, confirmPassword, ok);
      ev[1] == LoadingSet(true) && ev[2].SignupCall? && ev[|ev| - 1] == LoadingSet(false)
  {
  }

  /** The sign-up form's fields. */
  class SignupForm {
    var name: string
    var email: string
    var password: string
    var confirmPassword: string
    var isLoading: bool
    var error: string

    constructor ()
      ensures name == "" && email == "" && password == "" && confirmPassword == ""
      ensures !isLoading && error == ""
    {
      name, email, password, confirmPassword := "", "", "", "";
      isLoading, error := false, "";
    }

    /**
     * `handleSubmit`: the events it produces, the error it leaves, and the
     * loading flag lowered whenever the call was made.
     */
    method HandleSubmit(signupSucceeds: bool) returns (events: seq<SubmitEvent>)
      modifies this`error, this`isLoading
      ensures events == SubmitEvents(name, email, password, confirmPassword, signupSucceeds)
      ensures error == LastError(events, old(error))
      ensures isLoading == (if ValidationError(password, confirmPassword) == "" then false else old(isLoading))
    {
      error := "";
      events := [ErrorSet("")];
      if password != confirmPassword {
        error := MismatchMessage;
        events := events + [ErrorSet(error)];
        return;
      }
      if Utf16Length(password) < MinPasswordLength {
        error := TooShortMessage;
        events := events + [ErrorSet(error)];
        return;
      }
      isLoading := true;
      events := events + [LoadingSet(true), SignupCall(email, password, name)];
      if !signupSucceeds {
        error := FailureMessage;
        events := events + [ErrorSet(error)];
      }
      isLoading := false;
      events := events + [LoadingSet(false)];
      ShownError(name, email, password, confirmPassword, signupSucceeds, old(error));
    }
  }
}
