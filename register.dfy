// The registration page: field rules (including the e-mail pattern), the
// per-role set of fields checked on submit, and the registration request.

module Register {
  import opened Base
  import opened Text

  const EmployeeRole := "employee"
  const OfficerRole := "officer"

  /** The form's fields, all strings and all present from the start. */
  const FormFields := ["userNum", "name", "email", "password", "address", "department",
                       "contactNum", "employeeRole", "categoryNum", "authKey"]

  const EmployeeKeys := ["userNum", "name", "email", "password", "address", "department",
                         "contactNum", "employeeRole"]
  const OfficerKeys := ["userNum", "name", "email", "password", "address", "categoryNum", "authKey"]

  /** The fields submit checks: the employee set for "employee", the officer set otherwise. */
  function KeysToCheck(role: string): seq<string>
  {
    if role == EmployeeRole then EmployeeKeys else OfficerKeys
  }

  /** A run of characters from `[^\s@]`. */
  predicate Plain(t: string)
  {
    forall k :: 0 <= k < |t| ==> t[k] != '@' && !IsSpace(t[k])
  }

  /**
   * `^[^\s@]+@[^\s@]+\.[^\s@]+$` split at the '@' at `i` and the '.' at `j`:
   * three non-empty plain runs around them.
   */
  predicate EmailSplit(s: string, i: int, j: int)
  {
    && 0 < i && i + 1 < j && j + 1 < |s|
    && s[i] == '@' && s[j] == '.'
    && Plain(s[..i]) && Plain(s[i + 1..j]) && Plain(s[j + 1..])
  }

  /** The e-mail pattern matches `s`. */
  ghost predicate EmailPattern(s: string)
  {
    exists i, j :: EmailSplit(s, i, j)
  }

  /** Where `c` first occurs in `s`; `|s|` when it does not. */
  function CharIndex(s: string, c: char): (r: nat)
    ensures r <= |s|
    ensures r < |s| ==> s[r] == c
    ensures forall k :: 0 <= k < r ==> s[k] != c
  {
    if s == [] then 0
    else if s[0] == c then 0
    else 1 + CharIndex(s[1..], c)
  }

  /**
   * The e-mail check: one '@' past the first character, no whitespace, and a
   * '.' in the domain that is neither its first nor its last character.
   */
  predicate EmailValid(s: string)
  {
    var at := CharIndex(s, '@');
    && 0 < at && at + 3 < |s|
    && Plain(s[..at]) && Plain(s[at + 1..])
    && '.' in s[at + 2..|s| - 1]
  }

  /** Positions `a` to `b` of `s` hold characters from `[^\s@]`. */
  predicate PlainRange(s: string, a: int, b: int)
    requires 0 <= a <= b <= |s|
  {
    forall t :: a <= t < b ==> s[t] != '@' && !IsSpace(s[t])
  }

  lemma PlainSlice(s: string, a: int, b: int)
    requires 0 <= a <= b <= |s|
    ensures Plain(s[a..b]) <==> PlainRange(s, a, b)
  {
    assert forall k :: 0 <= k < b - a ==> s[a..b][k] == s[a + k];
  }

  /** What the check accepts, the pattern matches: '@' and the found '.' split it. */
  lemma EmailValidMatches(s: string)
    requires EmailValid(s)
    ensures EmailPattern(s)
  {
    var at := CharIndex(s, '@');
    var m :| 0 <= m < |s[at + 2..|s| - 1]| && s[at + 2..|s| - 1][m] == '.';
    var j := at + 2 + m;
    assert s[..at] == s[0..at] && s[at + 1..] == s[at + 1..|s|] && s[j + 1..] == s[j + 1..|s|];
    PlainSlice(s, at + 1, |s|);
    PlainSlice(s, at + 1, j);
    PlainSlice(s, j + 1, |s|);
    assert EmailSplit(s, at, j);
  }

  /** What the pattern matches, the check accepts: the '@' is the first one. */
  lemma MatchIsEmailValid(s: string, i: int, j: int)
    requires EmailSplit(s, i, j)
    ensures EmailValid(s)
  {
    assert s[..i] == s[0..i] && s[i + 1..] == s[i + 1..|s|] && s[j + 1..] == s[j + 1..|s|];
    PlainSlice(s, 0, i);
    assert CharIndex(s, '@') == i;
    PlainSlice(s, i + 1, j);
    PlainSlice(s, j + 1, |s|);
    PlainSlice(s, i + 1, |s|);
    assert s[i + 2..|s| - 1][j - i - 2] == '.';
  }

  /** The check accepts exactly what the pattern matches. */
  lemma EmailValidIffPattern(s: string)
    ensures EmailValid(s) <==> EmailPattern(s)
  {
    if EmailValid(s) {
      EmailValidMatches(s);
    }
    if EmailPattern(s) {
      var i, j :| EmailSplit(s, i, j);
      MatchIsEmailValid(s, i, j);
    }
  }

  /** validateField of the registration form; "" means valid. */
  function ValidateField(role: string, name: string, value: string): (err: string)
    ensures name == "userNum" ==> (err == "" <==> |value| == 4)
    ensures name == "email" ==> (err == "" <==> EmailPattern(value))
    ensures name == "password" ==> (err == "" <==> |value| >= 8)
    ensures name == "categoryNum" ==> (err == "" <==> role != OfficerRole || value != "")
    ensures name !in {"userNum", "email", "password", "categoryNum"} ==> err == ""
  {
    EmailValidIffPattern(value);
    if name == "userNum" then (if |value| != 4 then "ID must be exactly 4 characters." else "")
    else if name == "email" then (if !EmailValid(value) then "Invalid email format." else "")
    else if name == "password" then (if |value| < 8 then "Min 8 characters required." else "")
    else if name == "categoryNum" then (if role == OfficerRole && value == "" then "Please select a category." else "")
    else ""
  }

  /** The errors submit collects over `keys`, by key. */
  function RegisterErrors(role: string, form: map<string, string>, keys: seq<string>): map<string, string>
    requires forall k :: k in keys ==> k in form
  {
    map k | k in keys && ValidateField(role, k, form[k]) != "" :: ValidateField(role, k, form[k])
  }

  /** Checking one more key adds its error, if it has one. */
  lemma RegisterErrorsSnoc(role: string, form: map<string, string>, keys: seq<string>, key: string)
    requires forall k :: k in keys ==> k in form
    requires key in form
    ensures RegisterErrors(role, form, keys + [key]) ==
            if ValidateField(role, key, form[key]) != ""
            then RegisterErrors(role, form, keys)[key := ValidateField(role, key, form[key])]
            else RegisterErrors(role, form, keys)
  {
    assert forall k :: k in keys + [key] <==> k in keys || k == key;
  }

  /**
   * Submitting is blocked exactly when the number, the e-mail or the
   * password is invalid, or an officer has no category; the auth key and
   * the remaining fields never block.
   */
  lemma RegisterErrorsEmpty(role: string, form: map<string, string>)
    requires forall k :: k in FormFields ==> k in form
    ensures RegisterErrors(role, form, KeysToCheck(role)) == map[] <==>
              |form["userNum"]| == 4 && EmailPattern(form["email"]) && |form["password"]| >= 8 &&
              (role == OfficerRole ==> form["categoryNum"] != "")
  {
    var keys := KeysToCheck(role);
    var e := RegisterErrors(role, form, keys);
    assert "userNum" in keys && "email" in keys && "password" in keys;
    if |form["userNum"]| != 4 {
      assert "userNum" in e;
    } else if !EmailPattern(form["email"]) {
      assert "email" in e;
    } else if |form["password"]| < 8 {
      assert "password" in e;
    } else if role == OfficerRole && form["categoryNum"] == "" {
      assert "categoryNum" in keys;
      assert "categoryNum" in e;
    } else {
      assert e == map[];
    }
  }

  /** The submit-time validation pass. */
  method CollectErrors(role: string, form: map<string, string>, keys: seq<string>) returns (errors: map<string, string>)
    requires forall k :: k in keys ==> k in form
    ensures errors == RegisterErrors(role, form, keys)
  {
    errors := map[];
    var i := 0;
    while i < |keys|
      invariant 0 <= i <= |keys|
      invariant errors == RegisterErrors(role, form, keys[..i])
    {
      var key := keys[i];
      assert keys[..i + 1] == keys[..i] + [key];
      RegisterErrorsSnoc(role, form, keys[..i], key);
      var err := ValidateField(role, key, form[key]);
      if err != "" {
        errors := errors[key := err];
      }
      i := i + 1;
    }
    assert keys[..i] == keys;
  }

  const FixErrors := "Please fix the highlighted errors."
  const RegisterFallback := "Registration failed. Check ID/Email uniqueness."

  /** The message of a refused registration: the body's `message`, or the fallback. */
  function RegisterFailure(reply: Reply): (msg: string)
    ensures msg != ""
    ensures Message(ErrorBody(reply), "message").Some? ==> msg == Message(ErrorBody(reply), "message").value
    ensures Message(ErrorBody(reply), "message").None? ==> msg == RegisterFallback
  {
    FirstMessageSpec(ErrorBody(reply), ["message"], RegisterFallback);
    FirstMessage(ErrorBody(reply), ["message"], RegisterFallback)
  }

  /** The form as it first renders: every field empty. */
  function EmptyForm(): (f: map<string, string>)
    ensures forall k :: k in FormFields ==> k in f && f[k] == ""
  {
    map k | k in FormFields :: ""
  }

  class RegisterPage {
    var role: string
    var loading: bool
    var error: string
    var fieldErrors: map<string, string>
    var form: map<string, string>

    /** Every field of the form holds a value. */
    predicate Valid()
      reads this
    {
      forall k :: k in FormFields ==> k in form
    }

    constructor ()
      ensures Valid()
      ensures role == EmployeeRole && !loading && error == "" && fieldErrors == map[] && form == EmptyForm()
    {
      role := EmployeeRole;
      loading := false;
      error := "";
      fieldErrors := map[];
      form := EmptyForm();
    }

    /** Typing in a field: the value is stored and checked at once. */
    method HandleChange(name: string, value: string)
      requires Valid()
      modifies this
      ensures Valid()
      ensures form == old(form)[name := value]
      ensures fieldErrors == old(fieldErrors)[name := ValidateField(role, name, value)]
      ensures role == old(role) && error == old(error) && loading == old(loading)
    {
      form := form[name := value];
      fieldErrors := fieldErrors[name := ValidateField(role, name, value)];
    }

    /** Changing the role clears every field error. */
    method ChangeRole(r: string)
      modifies this
      ensures role == r && fieldErrors == map[]
      ensures form == old(form) && error == old(error) && loading == old(loading)
    {
      role := r;
      fieldErrors := map[];
    }

    /**
     * handleSubmit: with a checked field invalid the errors are shown and
     * nothing is sent; otherwise the whole form is posted to the role's
     * endpoint, success leads to the login page and a failure is shown.
     */
    method HandleSubmit(reply: Reply) returns (calls: seq<Call>, alerts: seq<string>, route: Option<string>)
      requires Valid()
      modifies this
      ensures Valid()
      ensures var errors := RegisterErrors(role, form, KeysToCheck(role));
        && (errors != map[] ==>
              calls == [] && alerts == [] && route == None &&
              fieldErrors == errors && error == FixErrors && loading == old(loading))
        && (errors == map[] ==>
              calls == [HttpPost("/auth/register/" + role, StringObject(form))] &&
              fieldErrors == old(fieldErrors) && !loading &&
              (Succeeded(reply) ==> alerts == ["Registration Successful!"] && route == Some("/login") && error == "") &&
              (!Succeeded(reply) ==> alerts == ["\U{26A0}\U{FE0F} Registration Failed: " + RegisterFailure(reply)] &&
                                      route == None && error == RegisterFailure(reply)))
      ensures role == old(role) && form == old(form)
    {
      error := "";
      var errors := CollectErrors(role, form, KeysToCheck(role));
      if errors != map[] {
        fieldErrors := errors;
        error := FixErrors;
        calls, alerts, route := [], [], None;
        return;
      }
      loading := true;
      calls := [HttpPost("/auth/register/" + role, StringObject(form))];
      if Succeeded(reply) {
        alerts, route := ["Registration Successful!"], Some("/login");
      } else {
        var msg := RegisterFailure(reply);
        error := msg;
        alerts, route := ["\U{26A0}\U{FE0F} Registration Failed: " + msg], None;
      }
      loading := false;
    }
  }
}
