/** The sign-up form: password strength, the provider's service selection,
    the order of the form checks and the payload handed to `onSignup`. */
module Signup {
  import opened Outcomes
  import opened JsStrings
  import opened Marketplace

  predicate IsAsciiLetter(c: char) {
    'a' <= c <= 'z' || 'A' <= c <= 'Z'
  }

  predicate IsDigit(c: char) {
    '0' <= c <= '9'
  }

  /** `pwd.length >= 8 && /[a-zA-Z]/.test(pwd) && /\d/.test(pwd)`, with the
      length counted in UTF-16 code units as JavaScript does. */
  predicate IsStrongPassword(pwd: string) {
    && Utf16Length(pwd) >= 8
    && (exists k | 0 <= k < |pwd| :: IsAsciiLetter(pwd[k]))
    && (exists k | 0 <= k < |pwd| :: IsDigit(pwd[k]))
  }

  /** Eight characters suffice only in the Basic Multilingual Plane: four
      astral characters already count as eight. */
  lemma StrongPasswordLength(pwd: string)
    requires IsStrongPassword(pwd)
    ensures |pwd| >= 4
    ensures (forall k | 0 <= k < |pwd| :: pwd[k] as int <= 0xFFFF) ==> |pwd| >= 8
  {
    if forall k | 0 <= k < |pwd| :: pwd[k] as int <= 0xFFFF {
      Utf16LengthOfBmp(pwd);
    }
  }

  /** `prev.filter(x => x !== id)`. */
  function Without(xs: seq<string>, id: string): (r: seq<string>)
    ensures |r| <= |xs|
    ensures forall x :: x in r <==> x in xs && x != id
  {
    if xs == [] then []
    else (if xs[0] == id then [] else [xs[0]]) + Without(xs[1..], id)
  }

  /** `toggleService` as a function of the previous selection. */
  function Toggled(prev: seq<string>, id: string): seq<string> {
    if id in prev then Without(prev, id) else prev + [id]
  }

  lemma {:induction false} WithoutAbsent(xs: seq<string>, id: string)
    requires id !in xs
    ensures Without(xs, id) == xs
  {
    if xs != [] {
      WithoutAbsent(xs[1..], id);
    }
  }

  lemma {:induction false} WithoutAppend(xs: seq<string>, ys: seq<string>, id: string)
    ensures Without(xs + ys, id) == Without(xs, id) + Without(ys, id)
  {
    if xs == [] {
      assert xs + ys == ys;
    } else {
      assert (xs + ys)[1..] == xs[1..] + ys;
      WithoutAppend(xs[1..], ys, id);
    }
  }

  lemma {:induction false} WithoutTwice(xs: seq<string>, id: string)
    ensures Without(Without(xs, id), id) == Without(xs, id)
  {
    WithoutAbsent(Without(xs, id), id);
  }

  /** Toggling selects exactly the ids it did not hold before, appending a
      new id at the end; apart from `id` the selection keeps its order. */
  lemma ToggleSpec(prev: seq<string>, id: string)
    ensures id in Toggled(prev, id) <==> id !in prev
    ensures forall x | x != id :: x in Toggled(prev, id) <==> x in prev
    ensures id !in prev ==> Toggled(prev, id) == prev + [id]
    ensures Without(Toggled(prev, id), id) == Without(prev, id)
  {
    if id in prev {
      WithoutTwice(prev, id);
    } else {
      WithoutAppend(prev, [id], id);
      WithoutAbsent(prev, id);
      assert Without([id], id) == [];
    }
  }

  /** Toggling an id that was not selected, twice, gives back the selection. */
  lemma ToggleTwiceAbsent(prev: seq<string>, id: string)
    requires id !in prev
    ensures Toggled(Toggled(prev, id), id) == prev
  {
    assert id in prev + [id];
    WithoutAppend(prev, [id], id);
    WithoutAbsent(prev, id);
    assert Without([id], id) == [];
  }

  const MissingMessage: string := "All fields are required"
  const WeakMessage: string := "Password must be at least 8 characters and include a number"
  const MismatchMessage: string := "Passwords do not match"
  const NoServiceMessage: string := "Please select at least one service"

  /** The first failing check of `handleSubmit`, in its order; `None` when
      every check passes. */
  function SignupError(name: string, email: string, password: string, confirmPassword: string,
                       role: string, selected: seq<string>): Option<string>
  {
    if name == "" || email == "" || password == "" || confirmPassword == "" then Some(MissingMessage)
    else if !IsStrongPassword(password) then Some(WeakMessage)
    else if password != confirmPassword then Some(MismatchMessage)
    else if role == "provider" && |selected| == 0 then Some(NoServiceMessage)
    else None
  }

  /** Each message is reported exactly when its check fails and every check
      before it passed; so only the first failure is reported. */
  lemma SignupErrorOrder(name: string, email: string, password: string, confirmPassword: string,
                         role: string, selected: seq<string>)
    ensures var e := SignupError(name, email, password, confirmPassword, role, selected);
      && var filled := name != "" && email != "" && password != "" && confirmPassword != "";
      && (e == Some(MissingMessage) <==> !filled)
      && (e == Some(WeakMessage) <==> filled && !IsStrongPassword(password))
      && (e == Some(MismatchMessage) <==> filled && IsStrongPassword(password) && password != confirmPassword)
      && (e == Some(NoServiceMessage) <==>
            filled && IsStrongPassword(password) && password == confirmPassword && role == "provider" && selected == [])
      && (e == None <==>
            filled && IsStrongPassword(password) && password == confirmPassword && (role == "provider" ==> selected != []))
  {
  }

  /** The object handed to `onSignup`. */
  datatype SignupData = SignupData(name: string, email: string, password: string, role: string, services: seq<string>)

  class Form {
    var name: string
    var email: string
    var password: string
    var confirmPassword: string
    var role: string
    var services: seq<Service>
    var selectedServices: seq<string>
    var loading: bool
    var error: string

    /** The role is one of the two the switch offers. */
    predicate Valid()
      reads this
    {
      role == "customer" || role == "provider"
    }

    constructor ()
      ensures Valid()
      ensures name == "" && email == "" && password == "" && confirmPassword == "" && role == "customer"
      ensures services == [] && selectedServices == [] && !loading && error == ""
    {
      name, email, password, confirmPassword, role := "", "", "", "", "customer";
      services, selectedServices, loading, error := [], [], false, "";
    }

    /** A press on the role switch. */
    method SetRole(r: string)
      requires r == "customer" || r == "provider"
      modifies this`role
      ensures Valid() && role == r
    {
      role := r;
    }

    /** A click on a service's checkbox. */
    method ToggleService(id: string)
      modifies this`selectedServices
      ensures selectedServices == Toggled(old(selectedServices), id)
    {
      selectedServices := Toggled(selectedServices, id);
    }

    /** The catalog load on mount: the list, or "Failed to load services". */
    method LoadServices(res: Response<seq<Service>>)
      modifies this`services, this`error
      ensures res.Success? ==> services == res.value && error == old(error)
      ensures res.Failure? ==> services == old(services) && error == "Failed to load services"
    {
      match res {
        case Success(v) => services := v;
        case Failure(_) => error := "Failed to load services";
      }
    }

    /** The first half of `handleSubmit`, up to the awaited `onSignup`: the
        checks run in order with early returns; the first failure becomes
        the error and nothing is submitted. When all pass, `loading` is set
        and the payload carries the selection for a provider and no
        services for a customer. */
    method BeginSubmit() returns (data: Option<SignupData>)
      requires Valid()
      modifies this`error, this`loading
      ensures Valid()
      ensures var e := SignupError(name, email, password, confirmPassword, role, selectedServices);
        && (e.Some? ==> data == None && error == e.value && loading == old(loading))
        && (e.None? ==>
              error == "" && loading
              && data == Some(SignupData(name, email, password, role,
                                         if role == "provider" then selectedServices else [])))
      ensures data.Some? ==> data.value.role in {"customer", "provider"}
      ensures data.Some? && data.value.role == "provider" ==> data.value.services != []
    {
      error := "";
      if name == "" || email == "" || password == "" || confirmPassword == "" {
        error := MissingMessage;
        return None;
      }
      if !IsStrongPassword(password) {
        error := WeakMessage;
        return None;
      }
      if password != confirmPassword {
        error := MismatchMessage;
        return None;
      }
      if role == "provider" && |selectedServices| == 0 {
        error := NoServiceMessage;
        return None;
      }
      loading := true;
      data := Some(SignupData(name, email, password, role, if role == "provider" then selectedServices else []));
    }

    /** The second half: a rejection shows its message, or "Signup failed"
        when it has none; `loading` ends false either way. */
    method FinishSubmit(outcome: Outcome)
      modifies this`error, this`loading
      ensures !loading
      ensures outcome.Done? ==> error == old(error)
      ensures outcome.Failed? ==> error == MessageOr(outcome.message, "Signup failed") && error != ""
    {
      if outcome.Failed? {
        error := MessageOr(outcome.message, "Signup failed");
      }
      loading := false;
    }
  }
}
