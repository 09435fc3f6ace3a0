/**
 * The client's registration form: its four text fields, the list of
 * validation errors it shows, the register request it sends and the page it
 * moves to. Sending the request and navigating are recorded in the form's
 * state; what happens when the request later answers is not part of this model.
 */
module RegisterForm {
  import opened Text

  datatype TypeError = NoPassword | NoName | NoPhoneNumber | WrongPhoneNumber | InvalidPassword

  /** The body of `POST /auth/register`. */
  datatype RegisterRequest = RegisterRequest(name: string, phone: string, password: string)

  const RegisterPath := "/auth/register"
  const LoginPath := "/login"

  // ---------------------------------------------------------------- phone pattern

  /** One character of the class `[0-9\s\-()]`. */
  predicate PhoneChar(c: char) {
    IsDigit(c) || IsSpace(c) || c == '-' || c == '(' || c == ')'
  }

  predicate AllPhoneChars(s: string) {
    forall i :: 0 <= i < |s| ==> PhoneChar(s[i])
  }

  /**
   * `/^\+?[0-9\s\-()]{7,}$/.test(s)`: a leading `+` can only be taken by the
   * optional `\+?`, since the class has no `+`; the rest must be seven or more
   * class characters up to the end.
   */
  predicate PhoneMatches(s: string) {
    if |s| > 0 && s[0] == '+' then |s| - 1 >= 7 && AllPhoneChars(s[1..])
    else |s| >= 7 && AllPhoneChars(s)
  }

  /** The pattern read literally: some way of taking `\+?` (zero or one `+`) leaves seven or more class characters. */
  ghost predicate PatternAccepts(s: string) {
    exists plus: nat :: plus <= 1 && plus <= |s| && (plus == 1 ==> s[0] == '+') && |s| - plus >= 7 && AllPhoneChars(s[plus..])
  }

  /** The direct test agrees with the pattern in both directions. */
  lemma PhoneMatchesPattern(s: string)
    ensures PhoneMatches(s) <==> PatternAccepts(s)
  {
    if PhoneMatches(s) {
      var plus: nat := if |s| > 0 && s[0] == '+' then 1 else 0;
      assert s[plus..] == if plus == 1 then s[1..] else s;
      assert (plus == 1 ==> s[0] == '+') && |s| - plus >= 7 && AllPhoneChars(s[plus..]);
    }
    if PatternAccepts(s) {
      var plus: nat :| plus <= 1 && plus <= |s| && (plus == 1 ==> s[0] == '+') && |s| - plus >= 7 && AllPhoneChars(s[plus..]);
      if plus == 0 {
        assert s[plus..] == s;
        assert PhoneChar(s[0]);
      }
    }
  }

  /** Fewer than seven characters never match, with or without a leading `+`. */
  lemma ShortPhoneRejected(s: string)
    requires |s| < 7
    ensures !PhoneMatches(s)
  {
  }

  // ---------------------------------------------------------------- validation

  /** The errors a submit collects, in the order the checks run. */
  function Validate(name: string, phone: string, password: string, confirm: string): (r: seq<TypeError>)
    ensures |r| <= 4
  {
    (if password == "" then [NoPassword] else [])
    + (if name == "" then [NoName] else [])
    + (if phone == "" then [NoPhoneNumber] else if !PhoneMatches(phone) then [WrongPhoneNumber] else [])
    + (if password != confirm then [InvalidPassword] else [])
  }

  /** Each error is reported exactly when its check fails. */
  lemma ValidateReports(name: string, phone: string, password: string, confirm: string)
    ensures var r := Validate(name, phone, password, confirm);
            && (NoPassword in r <==> password == "")
            && (NoName in r <==> name == "")
            && (NoPhoneNumber in r <==> phone == "")
            && (WrongPhoneNumber in r <==> phone != "" && !PhoneMatches(phone))
            && (InvalidPassword in r <==> password != confirm)
  {
  }

  /** The form is accepted exactly when every field passes. */
  lemma ValidateAccepts(name: string, phone: string, password: string, confirm: string)
    ensures Validate(name, phone, password, confirm) == [] <==>
              name != "" && password != "" && PhoneMatches(phone) && password == confirm
  {
  }

  /** The position of each check in the order the form runs them. */
  function Rank(e: TypeError): nat {
    match e
    case NoPassword => 0
    case NoName => 1
    case NoPhoneNumber => 2
    case WrongPhoneNumber => 2
    case InvalidPassword => 3
  }

  /** The errors come in check order, at most one per check, so no error is listed twice and the two phone errors never appear together. */
  lemma ValidateOrdered(name: string, phone: string, password: string, confirm: string)
    ensures var r := Validate(name, phone, password, confirm);
            forall i, j :: 0 <= i < j < |r| ==> Rank(r[i]) < Rank(r[j])
    ensures var r := Validate(name, phone, password, confirm);
            forall i, j :: 0 <= i < j < |r| ==> r[i] != r[j]
    ensures var r := Validate(name, phone, password, confirm);
            !(NoPhoneNumber in r && WrongPhoneNumber in r)
  {
  }

  // ---------------------------------------------------------------- field highlighting

  /** Which fields are shown in error for a list of errors. */
  function NameFlagged(errors: seq<TypeError>): bool { NoName in errors }
  function PhoneFlagged(errors: seq<TypeError>): bool { NoPhoneNumber in errors || WrongPhoneNumber in errors }
  function PasswordFlagged(errors: seq<TypeError>): bool { InvalidPassword in errors || NoPassword in errors }
  function ConfirmFlagged(errors: seq<TypeError>): bool { InvalidPassword in errors }

  /** After a submit, each field is highlighted exactly when its own value is at fault. */
  lemma FlaggedFields(name: string, phone: string, password: string, confirm: string)
    ensures var r := Validate(name, phone, password, confirm);
            && (NameFlagged(r) <==> name == "")
            && (PhoneFlagged(r) <==> !PhoneMatches(phone))
            && (PasswordFlagged(r) <==> password == "" || password != confirm)
            && (ConfirmFlagged(r) <==> password != confirm)
  {
    ValidateReports(name, phone, password, confirm);
  }

  // ---------------------------------------------------------------- the form

  class Form {
    var name: string
    var phone: string
    var password: string
    var confirmPassword: string
    var errors: seq<TypeError>
    /** Requests sent, oldest first. */
    var sent: seq<RegisterRequest>
    /** Pages navigated to, oldest first. */
    var visited: seq<string>

    constructor ()
      ensures name == "" && phone == "" && password == "" && confirmPassword == ""
      ensures errors == [] && sent == [] && visited == []
    {
      name, phone, password, confirmPassword := "", "", "", "";
      errors, sent, visited := [], [], [];
    }

    /**
     * onSubmitLogin: collect the errors and show them; with none, send the
     * register request and go to the login page without waiting for the answer.
     */
    method Submit()
      modifies this
      ensures errors == Validate(name, phone, password, confirmPassword)
      ensures name == old(name) && phone == old(phone) && password == old(password) && confirmPassword == old(confirmPassword)
      ensures errors == [] ==> sent == old(sent) + [RegisterRequest(name, phone, password)] && visited == old(visited) + [LoginPath]
      ensures errors != [] ==> sent == old(sent) && visited == old(visited)
    {
      var found: seq<TypeError> := [];
      if password == "" {
        found := found + [NoPassword];
      }
      if name == "" {
        found := found + [NoName];
      }
      if phone == "" {
        found := found + [NoPhoneNumber];
      } else if !PhoneMatches(phone) {
        found := found + [WrongPhoneNumber];
      }
      if password != confirmPassword {
        found := found + [InvalidPassword];
      }
      errors := found;
      if |found| > 0 {
        return;
      }
      sent := sent + [RegisterRequest(name, phone, password)];
      visited := visited + [LoginPath];
    }
  }

  /** A well-formed registration passes, with the sample number from the form. */
  lemma SampleAccepted()
    ensures Validate("Ann", "+611715114", "pw", "pw") == []
  {
    var s := "+611715114";
    assert AllPhoneChars(s[1..]) by {
      assert s[1..] == "611715114";
    }
  }
}
