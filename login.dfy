// The login page: per-field validation, the final check before submitting,
// the payload for each login type, and the hand-off to the provider.

module Login {
  import opened Base
  import opened Storage
  import opened AuthContext

  const EmployeeType := "employee"
  const OfficerType := "officer"

  datatype Credentials = Credentials(userNum: string, password: string, authKey: string)

  /** `Object.keys(credentials)`, in declaration order. */
  const CredentialKeys := ["userNum", "password", "authKey"]

  /** `credentials[key]` */
  function Field(c: Credentials, key: string): string
  {
    if key == "userNum" then c.userNum
    else if key == "password" then c.password
    else if key == "authKey" then c.authKey
    else ""
  }

  function WithField(c: Credentials, key: string, value: string): (r: Credentials)
    ensures key in CredentialKeys ==> Field(r, key) == value
    ensures forall k :: k != key ==> Field(r, k) == Field(c, k)
  {
    if key == "userNum" then c.(userNum := value)
    else if key == "password" then c.(password := value)
    else if key == "authKey" then c.(authKey := value)
    else c
  }

  /**
   * validateField: a number of exactly four characters, a password of at
   * least eight, and an auth key only for officers; "" means valid.
   */
  function ValidateField(loginType: string, name: string, value: string): (err: string)
    ensures name == "userNum" ==> (err == "" <==> |value| == 4)
    ensures name == "password" ==> (err == "" <==> |value| >= 8)
    ensures name == "authKey" ==> (err == "" <==> loginType != OfficerType || value != "")
    ensures name !in CredentialKeys ==> err == ""
    ensures value == "" && err != "" ==> err == RequiredMessage(name)
  {
    if name == "userNum" then
      if value == "" then RequiredMessage(name)
      else if |value| != 4 then "ID must be exactly 4 characters (e.g., E001)"
      else ""
    else if name == "password" then
      if value == "" then RequiredMessage(name)
      else if |value| < 8 then "Password must be at least 8 characters"
      else ""
    else if name == "authKey" && loginType == OfficerType && value == "" then RequiredMessage(name)
    else ""
  }

  /** The message for an empty field. */
  function RequiredMessage(name: string): string
  {
    if name == "userNum" then "User Number is required"
    else if name == "password" then "Password is required"
    else "Auth Key is required for Officers/Admins"
  }

  /** The final check looks at every key except the auth key of an employee. */
  predicate Checked(loginType: string, key: string)
  {
    key in CredentialKeys && !(key == "authKey" && loginType == EmployeeType)
  }

  /** The errors the final check collects, by key. */
  function LoginErrors(loginType: string, c: Credentials, keys: seq<string>): map<string, string>
  {
    map k | k in keys && Checked(loginType, k) && ValidateField(loginType, k, Field(c, k)) != ""
      :: ValidateField(loginType, k, Field(c, k))
  }

  /** Submitting is blocked exactly when some checked field is invalid. */
  lemma LoginErrorsEmpty(loginType: string, c: Credentials)
    ensures LoginErrors(loginType, c, CredentialKeys) == map[] <==>
              |c.userNum| == 4 && |c.password| >= 8 && (loginType == OfficerType ==> c.authKey != "")
  {
    var e := LoginErrors(loginType, c, CredentialKeys);
    if |c.userNum| != 4 {
      assert "userNum" in e;
    } else if |c.password| < 8 {
      assert "password" in e;
    } else if loginType == OfficerType && c.authKey == "" {
      assert "authKey" in e;
    } else {
      assert e == map[];
    }
  }

  /** Checking one more key adds its error, if it has one. */
  lemma LoginErrorsSnoc(loginType: string, c: Credentials, keys: seq<string>, key: string)
    ensures LoginErrors(loginType, c, keys + [key]) ==
            if Checked(loginType, key) && ValidateField(loginType, key, Field(c, key)) != ""
            then LoginErrors(loginType, c, keys)[key := ValidateField(loginType, key, Field(c, key))]
            else LoginErrors(loginType, c, keys)
  {
    assert forall k :: k in keys + [key] <==> k in keys || k == key;
  }

  /** The final validation pass over the credential keys. */
  method CollectLoginErrors(loginType: string, c: Credentials) returns (errors: map<string, string>)
    ensures errors == LoginErrors(loginType, c, CredentialKeys)
  {
    errors := map[];
    var i := 0;
    while i < |CredentialKeys|
      invariant 0 <= i <= |CredentialKeys|
      invariant errors == LoginErrors(loginType, c, CredentialKeys[..i])
    {
      var key := CredentialKeys[i];
      assert CredentialKeys[..i + 1] == CredentialKeys[..i] + [key];
      LoginErrorsSnoc(loginType, c, CredentialKeys[..i], key);
      if Checked(loginType, key) {
        var err := ValidateField(loginType, key, Field(c, key));
        if err != "" {
          errors := errors[key := err];
        }
      }
      i := i + 1;
    }
    assert CredentialKeys[..i] == CredentialKeys;
  }

  /** The login body: an employee sends number and password, anyone else the auth key too. */
  function LoginPayload(loginType: string, c: Credentials): (j: Json)
    ensures j.JObject?
    ensures j.fields.Keys == if loginType == EmployeeType then {"userNum", "password"} else {"userNum", "password", "authKey"}
    ensures Get(j, "userNum") == Some(JString(c.userNum)) && Get(j, "password") == Some(JString(c.password))
    ensures loginType != EmployeeType ==> Get(j, "authKey") == Some(JString(c.authKey))
  {
    if loginType == EmployeeType then StringObject(map["userNum" := c.userNum, "password" := c.password])
    else StringObject(map["userNum" := c.userNum, "password" := c.password, "authKey" := c.authKey])
  }

  const FixErrors := "Please fix the errors highlighted in red."

  /** The alert the error effect raises for a failed login. */
  function FailureAlert(error: string): string
  {
    "\U{26A0}\U{FE0F} Login Failed: " + error
  }

  class LoginPage {
    var loginType: string
    var credentials: Credentials
    var error: string
    var fieldErrors: map<string, string>
    var loading: bool

    constructor ()
      ensures loginType == EmployeeType && credentials == Credentials("", "", "")
      ensures error == "" && fieldErrors == map[] && !loading
    {
      loginType := EmployeeType;
      credentials := Credentials("", "", "");
      error := "";
      fieldErrors := map[];
      loading := false;
    }

    /** Typing in a field: the value is stored and checked at once. */
    method HandleChange(name: string, value: string)
      modifies this
      ensures credentials == WithField(old(credentials), name, value)
      ensures fieldErrors == old(fieldErrors)[name := ValidateField(loginType, name, value)]
      ensures loginType == old(loginType) && error == old(error) && loading == old(loading)
    {
      credentials := WithField(credentials, name, value);
      fieldErrors := fieldErrors[name := ValidateField(loginType, name, value)];
    }

    /** Switching between employee and officer login clears the field errors. */
    method ChangeType(t: string)
      modifies this
      ensures loginType == t && fieldErrors == map[]
      ensures credentials == old(credentials) && error == old(error) && loading == old(loading)
    {
      loginType := t;
      fieldErrors := map[];
    }

    /**
     * handleSubmit: with any checked field invalid, the errors are shown and
     * nothing is sent; otherwise the credentials go to the provider.
     */
    method HandleSubmit(auth: AuthProvider, reply: Reply) returns (calls: seq<Call>, alerts: seq<string>, route: Option<string>)
      modifies this, auth, auth.store
      ensures var errors := LoginErrors(old(loginType), old(credentials), CredentialKeys);
        && (errors != map[] ==>
              calls == [] && alerts == [FixErrors] && route == None && fieldErrors == errors && error == "" &&
              loading == old(loading) && auth.store.items == old(auth.store.items) && auth.user == old(auth.user))
        && (errors == map[] ==> fieldErrors == old(fieldErrors) && SubmitDone(old(auth.store.items), old(auth.user), auth, reply, calls, alerts, route))
      ensures loginType == old(loginType) && credentials == old(credentials)
    {
      error := "";
      var errors := CollectLoginErrors(loginType, credentials);
      if errors != map[] {
        fieldErrors := errors;
        alerts := [FixErrors];
        calls := [];
        route := None;
        return;
      }
      calls, alerts, route := SendCredentials(auth, reply);
    }

    /**
     * What a submission that passed the check leaves behind: the payload for
     * this login type went to the provider, and a failure became the page's
     * error and an alert.
     */
    predicate SubmitDone(items: map<string, Value>, user: Json, auth: AuthProvider, reply: Reply,
                         calls: seq<Call>, alerts: seq<string>, route: Option<string>)
      reads this, auth, auth.store
    {
      && calls == [HttpPost(LoginPath, LoginPayload(loginType, credentials))]
      && !loading
      && match LoginOutcome(reply)
         case LoggedIn(data) =>
           error == "" && alerts == [] && route == HomeRoute(Get(data, "role").value) &&
           auth.store.items == LoginStore(items, data) && auth.user == data
         case LoginFailed(msg) =>
           error == msg && alerts == [FailureAlert(msg)] && route == None &&
           auth.store.items == items && auth.user == user
    }

    method SendCredentials(auth: AuthProvider, reply: Reply) returns (calls: seq<Call>, alerts: seq<string>, route: Option<string>)
      requires error == ""
      modifies this, auth, auth.store
      ensures SubmitDone(old(auth.store.items), old(auth.user), auth, reply, calls, alerts, route)
      ensures loginType == old(loginType) && credentials == old(credentials) && fieldErrors == old(fieldErrors)
    {
      loading := true;
      var result;
      result, calls, route := auth.Login(LoginPayload(loginType, credentials), reply);
      alerts := [];
      if result.LoginFailed? {
        error := result.error;
        alerts := [FailureAlert(error)];
      }
      loading := false;
    }
  }
}
