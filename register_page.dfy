/**
 * The registration page (pages/RegisterPage.tsx): the order of the local
 * password checks, the data sent to `register`, and the error shown.
 */
module RegisterPage {
  import opened Common

  const MISMATCH: string := "Passwords do not match"
  const TOO_SHORT: string := "Password must be at least 8 characters"
  const MIN_LENGTH: nat := 8
  const LOGIN_PATH: string := "/login"

  datatype RegisterData = RegisterData(username: string, email: string, password: string)

  /**
   * JavaScript's `length`: UTF-16 code units, so a character outside the
   * Basic Multilingual Plane counts twice.
   */
  function Utf16Length(s: string): (n: nat)
    ensures |s| <= n <= 2 * |s|
    ensures |s| == 1 ==> n == if s[0] as int > 0xFFFF then 2 else 1
    decreases |s|
  {
    if s == [] then 0
    else (if s[0] as int > 0xFFFF then 2 else 1) + Utf16Length(s[1..])
  }

  /** The local error `handleSubmit` reports, None when register is called. */
  function ValidationError(password: string, confirm: string): (r: Option<string>)
    ensures r == Some(MISMATCH) <==> password != confirm
    ensures r == Some(TOO_SHORT) <==> password == confirm && Utf16Length(password) < MIN_LENGTH
    ensures r.None? <==> password == confirm && Utf16Length(password) >= MIN_LENGTH
  {
    if password != confirm then Some(MISMATCH)
    else if Utf16Length(password) < MIN_LENGTH then Some(TOO_SHORT)
    else None
  }

  /** `localError || error`. */
  function DisplayError(localError: string, storeError: Option<string>): (r: Option<string>)
    ensures localError != "" ==> r == Some(localError)
    ensures localError == "" ==> r == storeError
  {
    if localError != "" then Some(localError) else storeError
  }

  /** Code units add up over concatenation, one or two per character. */
  lemma {:induction false} Utf16LengthAppend(a: string, b: string)
    ensures Utf16Length(a + b) == Utf16Length(a) + Utf16Length(b)
    decreases |a|
  {
    if a == [] {
      assert a + b == b;
    } else {
      assert (a + b)[0] == a[0] && (a + b)[1..] == a[1..] + b;
      Utf16LengthAppend(a[1..], b);
    }
  }

  /** Eight characters always pass the length rule; fewer may, when some take two code units. */
  lemma {:induction false} Utf16LengthOfBmp(s: string)
    requires forall i :: 0 <= i < |s| ==> s[i] as int <= 0xFFFF
    ensures Utf16Length(s) == |s|
    decreases |s|
  {
    if s != [] {
      Utf16LengthOfBmp(s[1..]);
    }
  }

  lemma FourAstralCharactersPass()
    ensures ValidationError("\U{1F600}\U{1F600}\U{1F600}\U{1F600}", "\U{1F600}\U{1F600}\U{1F600}\U{1F600}").None?
  {
    var s := "\U{1F600}\U{1F600}\U{1F600}\U{1F600}";
    assert s[1..][1..][1..][1..] == [];
    assert Utf16Length(s) == 8;
  }

  class Page {
    var username: string
    var email: string
    var password: string
    var confirmPassword: string
    var localError: string

    constructor ()
      ensures username == "" && email == "" && password == "" && confirmPassword == "" && localError == ""
    {
      username, email, password, confirmPassword, localError := "", "", "", "", "";
    }

    /**
     * `handleSubmit`. `fulfilled` is how the register thunk would settle; it
     * is read only when register is called. Returns the data sent (None when
     * register is not called) and whether the page navigates to /login.
     */
    method HandleSubmit(fulfilled: bool) returns (sent: Option<RegisterData>, navigateTo: Option<string>)
      modifies this
      ensures ValidationError(password, confirmPassword).Some? ==>
        sent.None? && navigateTo.None? && localError == ValidationError(password, confirmPassword).value
      ensures ValidationError(password, confirmPassword).None? ==>
        sent == Some(RegisterData(username, email, password)) && localError == ""
        && (navigateTo == Some(LOGIN_PATH) <==> fulfilled) && (navigateTo.Some? ==> fulfilled)
      ensures username == old(username) && email == old(email)
      ensures password == old(password) && confirmPassword == old(confirmPassword)
    {
      localError := "";
      sent, navigateTo := None, None;
      if password != confirmPassword {
        localError := MISMATCH;
        return;
      }
      if Utf16Length(password) < MIN_LENGTH {
        localError := TOO_SHORT;
        return;
      }
      sent := Some(RegisterData(username, email, password));
      if fulfilled {
        navigateTo := Some(LOGIN_PATH);
      }
    }
  }
}
