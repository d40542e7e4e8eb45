/**
 * The login and signup form's own copies of the username and password checks. They are
 * written separately from the organization form's validators and are shown here to agree
 * with them on every input.
 */
module UserValidation {
  import opened Strings
  import Validation

  /**
   * The early-return chain of the login form: empty, too short, too long (lengths in UTF-16 code
   * units), then the character class.
   */
  function ValidateUsername(username: string): (r: string)
    ensures r == "" <==> 3 <= Utf16Length(username) <= 50 && forall i :: 0 <= i < |username| ==> IsAsciiAlphanumeric(username[i])
    ensures |username| == 0 ==> r == "Username cannot be empty"
    ensures r == "Username can only contain letters and numbers" ==> 3 <= Utf16Length(username) <= 50
  {
    if Utf16Length(username) == 0 then "Username cannot be empty"
    else if Utf16Length(username) < 3 then "Username must be at least 3 characters"
    else if Utf16Length(username) > 50 then "Username must be less than 50 characters"
    else if exists i :: 0 <= i < |username| && !IsAsciiAlphanumeric(username[i]) then
      "Username can only contain letters and numbers"
    else ""
  }

  function ValidatePassword(password: string): (r: string)
    ensures r == "" <==> |password| > 0
  {
    if |password| == 0 then "Password cannot be empty" else ""
  }

  /** Both checks agree exactly, message for message, with their namesakes in the organization form. */
  lemma AgreeWithFormValidators(username: string, password: string)
    ensures ValidateUsername(username) == Validation.ValidateUsername(username)
    ensures ValidatePassword(password) == Validation.ValidatePassword(password)
  {
  }
}
