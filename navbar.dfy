/**
 * The navigation bar: the avatar initials of the signed-in administrator
 * and the change-password dialog with its client-side checks.
 */
module Navbar {
  import opened Common
  import opened Text

  /**
   * `getInitials(name)`: "AD" for an absent or empty name; otherwise the
   * trimmed name split on single spaces gives either one word, whose first
   * two characters are taken, or several, whose first and last words give
   * one character each; the result is upper-cased.
   */
  function Initials(name: Option<string>): (r: string)
    ensures name.None? || name == Some("") ==> r == "AD"
    ensures |r| <= 2
  {
    if name.None? || name.value == "" then "AD"
    else
      var t := Trim(name.value);
      var names := Split(t);
      if |names| == 1 then Upper(Take(names[0], 2))
      else
        TrimmedEndPieces(name.value);
        Upper([names[0][0], Last(names)[0]])
  }

  /** A trimmed name of several words has a non-empty first and last word. */
  lemma TrimmedEndPieces(name: string)
    requires |Split(Trim(name))| > 1
    ensures Split(Trim(name))[0] != [] && Last(Split(Trim(name))) != []
  {
    var t := Trim(name);
    assert ' ' in t;
    EndPiecesNonEmpty(t);
  }

  /** A string with non-space ends splits into a non-empty first and last piece. */
  lemma EndPiecesNonEmpty(t: string)
    requires t != [] && !IsSpace(t[0]) && !IsSpace(t[|t| - 1])
    ensures Split(t)[0] != [] && Last(Split(t)) != []
  {
    var names := Split(t);
    if |names| > 1 {
      SplitFirstPiece(t);
      SplitLastPiece(t);
      assert t[|names[0]|] == ' ';
      assert t[|t| - |Last(names)| - 1] == ' ';
    }
  }

  /** A one-word name gives its first (up to) two characters, upper-cased. */
  lemma InitialsOfOneWord(name: string)
    requires name != "" && ' ' !in Trim(name)
    ensures Initials(Some(name)) == Upper(Take(Trim(name), 2))
  {
  }

  /**
   * A name of several words gives exactly two characters: the first
   * character of the trimmed name and the first character after its last
   * space, both upper-cased.
   */
  lemma InitialsOfSeveralWords(name: string)
    requires name != "" && ' ' in Trim(name)
    ensures var t := Trim(name);
      exists j | 0 <= j < |t| - 1 ::
        t[j] == ' ' && ' ' !in t[j + 1..] &&
        Initials(Some(name)) == [UpperChar(t[0]), UpperChar(t[j + 1])]
  {
    var t := Trim(name);
    assert |Split(t)| > 1;
    TrimmedEndPieces(name);
    var j := LastWordStart(t);
    InitialsOfSplit(name, t, j);
  }

  lemma InitialsOfSplit(name: string, t: string, j: int)
    requires name != "" && t == Trim(name) && |Split(t)| > 1
    requires 0 <= j < |t| - 1 && t[j + 1..] == Last(Split(t))
    requires |Split(t)[0]| <= |t| && Split(t)[0] == t[..|Split(t)[0]|]
    ensures Initials(Some(name)) == [UpperChar(t[0]), UpperChar(t[j + 1])]
  {
    var names := Split(t);
    UpperPair(names[0][0], Last(names)[0]);
  }

  /** In a split string the first piece starts the string and the last piece follows its last space. */
  lemma LastWordStart(t: string) returns (j: int)
    requires |Split(t)| > 1
    ensures 0 <= j < |t| && t[j] == ' '
    ensures t[j + 1..] == Last(Split(t)) && ' ' !in t[j + 1..]
    ensures |Split(t)[0]| <= |t| && Split(t)[0] == t[..|Split(t)[0]|]
  {
    SplitFirstPiece(t);
    SplitLastPiece(t);
    var names := Split(t);
    j := |t| - |Last(names)| - 1;
  }

  lemma UpperPair(a: char, b: char)
    ensures Upper([a, b]) == [UpperChar(a), UpperChar(b)]
  {
  }

  /** A name made only of white space is truthy, so it does not get "AD": it gives the empty string. */
  lemma InitialsOfBlankName(name: string)
    requires name != "" && AllSpace(name)
    ensures Initials(Some(name)) == ""
  {
  }

  const FieldsRequiredMessage := "All fields are required"
  const NewPasswordTooShortMessage := "New password must be at least 6 characters"
  const PasswordMismatchMessage := "New password and confirm password do not match"
  const PasswordUnchangedMessage := "New password cannot be the same as old password"
  const PasswordUpdatedMessage := "Password updated successfully!"

  /**
   * The client-side checks of `handleUpdatePassword`, in their order; the
   * first that fails decides the message.
   */
  function PasswordChangeError(oldPassword: string, newPassword: string, confirmPassword: string): (r: Option<string>)
    ensures r == Some(FieldsRequiredMessage) <==> oldPassword == "" || newPassword == "" || confirmPassword == ""
    ensures r == Some(NewPasswordTooShortMessage) <==>
      oldPassword != "" && newPassword != "" && confirmPassword != "" && |newPassword| < 6
    ensures r == Some(PasswordMismatchMessage) <==>
      oldPassword != "" && confirmPassword != "" && |newPassword| >= 6 && newPassword != confirmPassword
    ensures r == Some(PasswordUnchangedMessage) <==>
      |newPassword| >= 6 && newPassword == confirmPassword && oldPassword == newPassword
    ensures r.None? <==>
      oldPassword != "" && |newPassword| >= 6 && newPassword == confirmPassword && oldPassword != newPassword
  {
    if oldPassword == "" || newPassword == "" || confirmPassword == "" then Some(FieldsRequiredMessage)
    else if |newPassword| < 6 then Some(NewPasswordTooShortMessage)
    else if newPassword != confirmPassword then Some(PasswordMismatchMessage)
    else if oldPassword == newPassword then Some(PasswordUnchangedMessage)
    else None
  }

  /** The change-password dialog's state cells. */
  class PasswordDialog {
    var open: bool
    var oldPassword: string
    var newPassword: string
    var confirmPassword: string
    var error: string
    var success: string
    var loading: bool
    /** How many times the (simulated) password change was submitted. */
    var submissions: nat

    constructor ()
      ensures !open && oldPassword == "" && newPassword == "" && confirmPassword == ""
      ensures error == "" && success == "" && !loading && submissions == 0
    {
      open, oldPassword, newPassword, confirmPassword := false, "", "", "";
      error, success, loading, submissions := "", "", false, 0;
    }

    /** `handleCloseModal()`: closes the dialog and blanks the three fields and both messages. */
    method CloseModal()
      modifies this
      ensures !open && oldPassword == "" && newPassword == "" && confirmPassword == ""
      ensures error == "" && success == ""
      ensures loading == old(loading) && submissions == old(submissions)
    {
      open := false;
      oldPassword := "";
      newPassword := "";
      confirmPassword := "";
      error := "";
      success := "";
    }

    /**
     * `handleUpdatePassword()`: clears both messages, runs the checks, and
     * only when all pass sets the loading flag, submits, reports success and
     * clears the flag again.
     */
    method UpdatePassword()
      modifies this
      ensures open == old(open) && oldPassword == old(oldPassword)
      ensures newPassword == old(newPassword) && confirmPassword == old(confirmPassword)
      ensures PasswordChangeError(oldPassword, newPassword, confirmPassword).Some? ==>
        error == PasswordChangeError(oldPassword, newPassword, confirmPassword).value && success == "" &&
        loading == old(loading) && submissions == old(submissions)
      ensures PasswordChangeError(oldPassword, newPassword, confirmPassword).None? ==>
        error == "" && success == PasswordUpdatedMessage && !loading && submissions == old(submissions) + 1
    {
      error := "";
      success := "";
      if oldPassword == "" || newPassword == "" || confirmPassword == "" {
        error := FieldsRequiredMessage;
        return;
      }
      if |newPassword| < 6 {
        error := NewPasswordTooShortMessage;
        return;
      }
      if newPassword != confirmPassword {
        error := PasswordMismatchMessage;
        return;
      }
      if oldPassword == newPassword {
        error := PasswordUnchangedMessage;
        return;
      }
      loading := true;
      submissions := submissions + 1;
      success := PasswordUpdatedMessage;
      loading := false;
    }
  }
}
