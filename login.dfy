/** The sign-in form: the e-mail pattern, when the form may be submitted,
    the normalised e-mail it passes on, and the role check on the value the
    `onLogin` callback resolves with. */
module Login {
  import opened Outcomes
  import opened JsStrings

  /** `/^\S+@\S+\.\S+$/.test(email)`: no white space anywhere, an `@` after
      at least one character, then at least one character, a `.`, and at
      least one character after it. */
  predicate IsValidEmail(s: string) {
    && NoWhitespace(s)
    && exists i, j | 1 <= i && i + 2 <= j && j + 2 <= |s| :: s[i] == '@' && s[j] == '.'
  }

  /** Any three non-empty parts without white space, joined as
      `local@domain.tld`, match the pattern. */
  lemma EmailOfParts(a: string, b: string, c: string)
    requires a != [] && b != [] && c != []
    requires NoWhitespace(a) && NoWhitespace(b) && NoWhitespace(c)
    ensures IsValidEmail(a + "@" + b + "." + c)
  {
    var s := a + "@" + b + "." + c;
    var i, j := |a|, |a| + 1 + |b|;
    assert s[i] == '@' && s[j] == '.';
    forall k | 0 <= k < |s| ensures !IsWhitespace(s[k]) {
      if k < i { assert s[k] == a[k]; }
      else if i < k < j { assert s[k] == b[k - i - 1]; }
      else if j < k { assert s[k] == c[k - j - 1]; }
    }
  }

  /** Every matching e-mail splits into such three parts. */
  lemma PartsOfEmail(s: string) returns (a: string, b: string, c: string)
    requires IsValidEmail(s)
    ensures a != [] && b != [] && c != []
    ensures NoWhitespace(a) && NoWhitespace(b) && NoWhitespace(c)
    ensures s == a + "@" + b + "." + c
  {
    var i, j :| 1 <= i && i + 2 <= j && j + 2 <= |s| && s[i] == '@' && s[j] == '.';
    a, b, c := s[..i], s[i + 1..j], s[j + 1..];
    assert s == a + [s[i]] + b + [s[j]] + c;
  }

  /** `canSubmit`. */
  predicate CanSubmit(email: string, password: string) {
    IsValidEmail(email) && password != ""
  }

  /** `email.trim().toLowerCase()`. */
  function Normalize(email: string): string {
    ToLowerAscii(Trim(email))
  }

  /** A submittable e-mail has no white space, so trimming never changes
      it, and lower-casing keeps it submittable. */
  lemma NormalizeValidEmail(email: string)
    requires IsValidEmail(email)
    ensures Trim(email) == email
    ensures Normalize(email) == ToLowerAscii(email)
    ensures IsValidEmail(Normalize(email))
  {
    assert email == [] || (!IsWhitespace(email[0]) && !IsWhitespace(email[|email| - 1]));
    TrimOfClean(email);
    LowerKeepsValid(email);
  }

  /** Lower-casing keeps an e-mail submittable. */
  lemma LowerKeepsValid(email: string)
    requires IsValidEmail(email)
    ensures IsValidEmail(ToLowerAscii(email))
  {
    var r := ToLowerAscii(email);
    LowerIdempotent(email);
    var i, j :| 1 <= i && i + 2 <= j && j + 2 <= |email| && email[i] == '@' && email[j] == '.';
    assert r[i] == '@' && r[j] == '.';
  }

  /** Normalising twice gives what normalising once gives. */
  lemma NormalizeIdempotent(email: string)
    ensures Normalize(Normalize(email)) == Normalize(email)
  {
    var t := Trim(email);
    var n := ToLowerAscii(t);
    LowerIdempotent(t);
    if n != [] {
      assert !IsWhitespace(n[0]) && !IsWhitespace(n[|n| - 1]);
    }
    TrimStartOfClean(n);
    TrimEndOfClean(n);
  }

  const InvalidMessage: string := "Please enter a valid email and password."

  /** How the awaited `onLogin(...)` ended: rejected with a message, resolved
      with nothing, or resolved with a user whose `role` may be missing. */
  datatype LoginReturn = Rejected(message: string) | ResolvedUndefined | ResolvedUser(role: Option<string>)

  /** The message a browser's engine gives for `user.role` on `undefined`
      (this is V8's wording; other engines word it differently). */
  const UndefinedUserMessage: string := "Cannot read properties of undefined (reading 'role')"

  /** How a missing role prop reads inside the template literal. */
  function RoleText(role: Option<string>): string {
    if role.Some? then role.value else "undefined"
  }

  function RoleMismatchMessage(expectedRole: Option<string>): string {
    "This account is not a " + RoleText(expectedRole) + " account"
  }

  /** The local error after the awaited call; `None` keeps the cleared one. */
  function ErrorAfterLogin(returned: LoginReturn, expectedRole: Option<string>): (e: Option<string>)
    ensures returned.ResolvedUser? ==> (e.Some? <==> returned.role != expectedRole)
    ensures returned.ResolvedUser? && e.Some? ==> e.value == RoleMismatchMessage(expectedRole)
    ensures returned.Rejected? ==> e == Some(returned.message)
    ensures returned.ResolvedUndefined? ==> e == Some(UndefinedUserMessage)
  {
    match returned
    case Rejected(m) => Some(m)
    case ResolvedUndefined => Some(UndefinedUserMessage)
    case ResolvedUser(role) => if role != expectedRole then Some(RoleMismatchMessage(expectedRole)) else None
  }

  /** The banner text: the `error` prop when set, otherwise the local error. */
  function DisplayedError(errorProp: string, localError: string): (shown: string)
    ensures errorProp != "" ==> shown == errorProp
    ensures errorProp == "" ==> shown == localError
  {
    if errorProp != "" then errorProp else localError
  }

  datatype Credentials = Credentials(email: string, password: string)

  class Form {
    const expectedRole: Option<string>
    var email: string
    var password: string
    var localError: string
    var loading: bool

    constructor (expectedRole: Option<string>)
      ensures this.expectedRole == expectedRole
      ensures email == "" && password == "" && localError == "" && !loading
    {
      this.expectedRole := expectedRole;
      email, password, localError, loading := "", "", "", false;
    }

    /** The sign-in button is enabled. */
    predicate SubmitEnabled()
      reads this
    {
      CanSubmit(email, password) && !loading
    }

    /** The first half of `handleSubmit`, up to the awaited `onLogin`: the
        error is cleared; a form that cannot be submitted gets the invalid
        message and calls nothing; otherwise `loading` is set and the
        normalised e-mail is passed on with the password. */
    method BeginSubmit() returns (call: Option<Credentials>)
      modifies this`localError, this`loading
      ensures !CanSubmit(email, password) ==> call == None && localError == InvalidMessage && loading == old(loading)
      ensures CanSubmit(email, password) ==> call == Some(Credentials(Normalize(email), password)) && localError == "" && loading
    {
      localError := "";
      if !CanSubmit(email, password) {
        localError := InvalidMessage;
        return None;
      }
      loading := true;
      call := Some(Credentials(Normalize(email), password));
    }

    /** A press of the sign-in button. The button is disabled unless the
        form can be submitted and nothing is in flight, and it is the only
        trigger of `handleSubmit`, so a press always passes the gate: the
        normalised credentials are sent and `loading` is set. */
    method PressSubmit() returns (call: Option<Credentials>)
      requires SubmitEnabled()
      modifies this`localError, this`loading
      ensures call == Some(Credentials(Normalize(email), password))
      ensures localError == "" && loading
    {
      call := BeginSubmit();
    }

    /** The second half: a rejection or a role other than the expected one
        sets the local error, and `loading` is cleared either way. */
    method FinishSubmit(returned: LoginReturn)
      modifies this`localError, this`loading
      ensures !loading
      ensures localError == (match ErrorAfterLogin(returned, expectedRole)
                             case Some(e) => e
                             case None => old(localError))
    {
      match returned {
        case Rejected(m) =>
          localError := m;
        case ResolvedUndefined =>
          localError := UndefinedUserMessage;
        case ResolvedUser(role) =>
          if role != expectedRole {
            localError := RoleMismatchMessage(expectedRole);
          }
      }
      loading := false;
    }
  }
}
