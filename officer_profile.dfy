// The officer profile: each shown field is looked up under several possible
// names, and the role badge is derived from the account's role string.

module OfficerProfile {
  import opened Base
  import opened Text

  const NotAvailable := JString("N/A")

  /** A property that getValue accepts: present, not null and not "". */
  predicate Usable(v: Option<Json>)
  {
    v.Some? && v.value != JNull && v.value != JString("")
  }

  /** The for-of loop of getValue over the candidate names. */
  function FirstUsable(obj: Json, keys: seq<string>): (r: Json)
    ensures r != JNull && r != JString("")
  {
    if keys == [] then NotAvailable
    else if Usable(Get(obj, keys[0])) then Get(obj, keys[0]).value
    else FirstUsable(obj, keys[1..])
  }

  /** getValue: "N/A" for a falsy object, else the first usable property. */
  function GetValue(obj: Json, keys: seq<string>): (r: Json)
    ensures !Truthy(obj) ==> r == NotAvailable
    ensures r != JNull && r != JString("")
  {
    if !Truthy(obj) then NotAvailable else FirstUsable(obj, keys)
  }

  /**
   * The first usable name wins, in list order, and "N/A" comes back exactly
   * when no name is usable.
   */
  lemma {:induction false} FirstUsableSpec(obj: Json, keys: seq<string>)
    ensures (forall i :: 0 <= i < |keys| ==> !Usable(Get(obj, keys[i]))) ==> FirstUsable(obj, keys) == NotAvailable
    ensures forall i :: 0 <= i < |keys| && Usable(Get(obj, keys[i])) &&
                        (forall k :: 0 <= k < i ==> !Usable(Get(obj, keys[k])))
                        ==> FirstUsable(obj, keys) == Get(obj, keys[i]).value
  {
    if keys != [] && !Usable(Get(obj, keys[0])) {
      FirstUsableSpec(obj, keys[1..]);
      assert forall i :: 1 <= i < |keys| ==> keys[i] == keys[1..][i - 1];
    }
  }

  /** Unlike `||`, the lookup keeps falsy values other than null and "": a 0 or false is shown. */
  lemma GetValueKeepsFalsy(obj: Json, keys: seq<string>, i: nat)
    requires Truthy(obj) && i < |keys|
    requires Get(obj, keys[i]) == Some(JNumber(0)) || Get(obj, keys[i]) == Some(JBool(false))
    requires forall k :: 0 <= k < i ==> !Usable(Get(obj, keys[k]))
    ensures GetValue(obj, keys) == Get(obj, keys[i]).value
    ensures !Truthy(GetValue(obj, keys))
  {
    FirstUsableSpec(obj, keys);
  }

  const IdKeys := ["userNum", "officerNum", "userId", "officerId", "id"]
  const NameKeys := ["name", "fullName", "firstName", "empname"]
  const EmailKeys := ["email", "emailAddress", "mail"]
  const ContactKeys := ["contactNumber", "phone", "phoneNumber", "mobile", "contact", "mobileNumber"]
  const SpecialtyKeys := ["specialty", "officerSpecialty", "category", "department", "dept", "specialization"]
  const AddressKeys := ["residentialAddress", "address", "fullAddress", "homeAddress", "location"]

  /**
   * `profileData?.actorRole?.replace("ROLE_", "") || "OFFICER"`. None where
   * the expression throws: an actorRole that is present but not a string.
   */
  function ProfileRole(profile: Json): (r: Option<string>)
    ensures r.Some? ==> r.value != ""
    ensures (Get(profile, "actorRole").None? || Get(profile, "actorRole") == Some(JNull)) ==> r == Some("OFFICER")
    ensures r.None? <==> Get(profile, "actorRole").Some? && Get(profile, "actorRole").value != JNull &&
                         !Get(profile, "actorRole").value.JString?
  {
    match Get(profile, "actorRole")
    case None => Some("OFFICER")
    case Some(JNull) => Some("OFFICER")
    case Some(JString(s)) =>
      var stripped := ReplaceFirst(s, "ROLE_", "");
      if stripped == "" then Some("OFFICER") else Some(stripped)
    case Some(_) => None
  }

  /** A role with the "ROLE_" prefix loses exactly that prefix, and a bare prefix falls back. */
  lemma ProfileRoleStripsPrefix(profile: Json, s: string)
    requires Get(profile, "actorRole") == Some(JString(s)) && StartsWith(s, "ROLE_")
    ensures |s| > 5 ==> ProfileRole(profile) == Some(s[5..])
    ensures |s| == 5 ==> ProfileRole(profile) == Some("OFFICER")
  {
    assert IndexOf(s, "ROLE_") == Some(0);
    assert s[..0] + "" + s[5..] == s[5..];
  }

  /** A role without "ROLE_" anywhere is shown as it is. */
  lemma ProfileRoleWithoutPrefix(profile: Json, s: string)
    requires Get(profile, "actorRole") == Some(JString(s)) && s != "" && !Contains(s, "ROLE_")
    ensures ProfileRole(profile) == Some(s)
  {
  }

  /** What the profile page shows once its one request has completed. */
  datatype Profile = Profile(data: Json, error: Option<string>, loading: bool)

  /** The fetch outcome: the body becomes the profile, a failure the page's error. */
  function ProfileLoaded(reply: Reply): (p: Profile)
    ensures !p.loading
    ensures p.error.None? <==> Succeeded(reply)
    ensures Succeeded(reply) ==> p.data == reply.body
    ensures !Succeeded(reply) ==> p.data == JNull && p.error == Some("Failed to load profile data")
  {
    if Succeeded(reply) then Profile(reply.body, None, false)
    else Profile(JNull, Some("Failed to load profile data"), false)
  }
}
