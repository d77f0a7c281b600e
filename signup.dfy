/**
 * The sign-up form of the hosted edition (src/pages/Signup.tsx): the
 * password checks that run before the account is requested, in their order,
 * and the state the form is left in. The outcome of the sign-up call is a
 * parameter.
 */
module Signup {
  import opened Wrappers
  import opened Text

  const MismatchError := "As senhas não coincidem"
  const TooShortError := "A senha deve ter pelo menos 6 caracteres"
  const MinPasswordLength := 6

  /** A call to `signUp(email, password, name)`. */
  datatype SignUpCall = SignUpCall(email: string, password: string, name: string)

  /** The message the checks leave, or none when the account may be requested. */
  function CheckPasswords(password: string, confirmPassword: string): (r: Option<string>)
    ensures r == Some(MismatchError) <==> password != confirmPassword
    ensures r == Some(TooShortError) <==> password == confirmPassword && Utf16Length(password) < MinPasswordLength
    ensures r == None <==> password == confirmPassword && Utf16Length(password) >= MinPasswordLength
  {
    if password != confirmPassword then Some(MismatchError)
    else if Utf16Length(password) < MinPasswordLength then Some(TooShortError)
    else None
  }

  /**
   * The length rule counts code units: three characters above U+FFFF are six
   * units and pass, while five plain characters do not.
   */
  lemma {:induction false} LengthCountsCodeUnits()
    ensures CheckPasswords("\U{1F600}\U{1F600}\U{1F600}", "\U{1F600}\U{1F600}\U{1F600}") == None
    ensures CheckPasswords("abcde", "abcde") == Some(TooShortError)
  {
    var e: string := "\U{1F600}";
    assert Utf16Length(e) == 2;
    Utf16LengthAppend(e, e);
    Utf16LengthAppend(e + e, e);
    assert e + e + e == "\U{1F600}\U{1F600}\U{1F600}";
    Utf16LengthOfBmp("abcde");
  }

  /** The form's `error`, `isLoading` and `success` state. */
  class SignupForm {
    var error: string
    var isLoading: bool
    var success: bool

    constructor()
      ensures error == "" && !isLoading && !success
    {
      error := "";
      isLoading := false;
      success := false;
    }

    /**
     * `handleSubmit`: clears the previous error, then stops at the first
     * failing check with its message and no sign-up call; otherwise requests
     * the account once, showing the service's message and stopping the
     * spinner on a failure, or the confirmation screen on success.
     */
    method HandleSubmit(name: string, email: string, password: string, confirmPassword: string, outcome: Outcome)
      returns (calls: seq<SignUpCall>)
      modifies this
      ensures CheckPasswords(password, confirmPassword).Some? ==>
        calls == [] && error == CheckPasswords(password, confirmPassword).value &&
        isLoading == old(isLoading) && success == old(success)
      ensures CheckPasswords(password, confirmPassword).None? ==> calls == [SignUpCall(email, password, name)]
      ensures CheckPasswords(password, confirmPassword).None? && outcome.Failure? ==>
        error == outcome.message && !isLoading && success == old(success)
      ensures CheckPasswords(password, confirmPassword).None? && outcome.Success? ==>
        error == "" && isLoading && success
    {
      error := "";
      if password != confirmPassword {
        error := MismatchError;
        return [];
      }
      if Utf16Length(password) < MinPasswordLength {
        error := TooShortError;
        return [];
      }
      isLoading := true;
      calls := [SignUpCall(email, password, name)];
      match outcome {
        case Failure(message) =>
          error := message;
          isLoading := false;
        case Success =>
          success := true;
      }
    }
  }
}
