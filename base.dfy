// Values the grievance client exchanges with its API: JSON bodies, request
// outcomes as axios reports them, and the requests a handler issues.

module Base {

  datatype Option<+T> = None | Some(value: T)

  /** A JSON value as the client receives it. Numbers are integers here. */
  datatype Json =
    | JNull
    | JBool(b: bool)
    | JNumber(n: int)
    | JString(s: string)
    | JArray(items: seq<Json>)
    | JObject(fields: map<string, Json>)

  /** JavaScript truthiness of a value that is present. */
  predicate Truthy(j: Json)
  {
    match j
    case JNull => false
    case JBool(b) => b
    case JNumber(n) => n != 0
    case JString(s) => s != ""
    case _ => true
  }

  /** `j?.key`: a property of an object; undefined (None) for anything else. */
  function Get(j: Json, key: string): Option<Json>
  {
    if j.JObject? && key in j.fields then Some(j.fields[key]) else None
  }

  /** `j?.key` read as a message: a non-empty string property, else nothing. */
  function Message(j: Json, key: string): Option<string>
  {
    match Get(j, key)
    case Some(JString(s)) => if s != "" then Some(s) else None
    case _ => None
  }

  /**
   * `j?.k0 || j?.k1 || ... || fallback`: the message under the first key
   * that has one, or the fallback when none does.
   */
  function FirstMessage(j: Json, keys: seq<string>, fallback: string): (r: string)
    ensures fallback != "" ==> r != ""
  {
    if keys == [] then fallback
    else match Message(j, keys[0])
      case Some(m) => m
      case None => FirstMessage(j, keys[1..], fallback)
  }

  /** FirstMessage picks the first key that holds a message, and falls back only when none does. */
  lemma {:induction false} FirstMessageSpec(j: Json, keys: seq<string>, fallback: string)
    ensures (forall i :: 0 <= i < |keys| ==> Message(j, keys[i]).None?) ==> FirstMessage(j, keys, fallback) == fallback
    ensures forall i :: 0 <= i < |keys| && Message(j, keys[i]).Some? &&
                        (forall k :: 0 <= k < i ==> Message(j, keys[k]).None?)
                        ==> FirstMessage(j, keys, fallback) == Message(j, keys[i]).value
  {
    if keys != [] && Message(j, keys[0]).None? {
      FirstMessageSpec(j, keys[1..], fallback);
      assert forall i :: 1 <= i < |keys| ==> keys[i] == keys[1..][i - 1];
    }
  }

  /** Decimal digits of a natural number, as JavaScript prints it. */
  function NatText(n: nat): (r: string)
    ensures |r| > 0
    ensures forall i :: 0 <= i < |r| ==> '0' <= r[i] <= '9'
  {
    var d := ['0' + (n % 10) as char];
    if n < 10 then d else NatText(n / 10) + d
  }

  function IntText(n: int): string
  {
    if n < 0 then "-" + NatText(-n) else NatText(n)
  }

  /** `String(v)` for a JSON value (what `setItem` and `FormData.append` store). */
  function JsonText(j: Json): string
    decreases j, 1, 0
  {
    match j
    case JNull => "null"
    case JBool(b) => if b then "true" else "false"
    case JNumber(n) => IntText(n)
    case JString(s) => s
    case JArray(items) => JoinTexts(items, j)
    case JObject(_) => "[object Object]"
  }

  /** Array elements joined by commas; a null element prints as nothing. */
  function JoinTexts(items: seq<Json>, whole: Json): string
    requires forall x :: x in items ==> x < whole
    decreases whole, 0, |items|
  {
    if items == [] then ""
    else
      assert items[0] in items;
      var first := if items[0] == JNull then "" else JsonText(items[0]);
      assert forall x :: x in items[1..] ==> x in items;
      if |items| == 1 then first else first + "," + JoinTexts(items[1..], whole)
  }

  /** `String(v)` where `v` may be undefined. */
  function ToText(v: Option<Json>): string
  {
    match v
    case None => "undefined"
    case Some(j) => JsonText(j)
  }

  /** What one HTTP request came back with. */
  datatype Reply =
    | Answered(status: int, body: Json)  // the server answered
    | NoResponse                          // the request went out, nothing came back
    | NotSent(reason: string)             // the request could not be made

  /** axios resolves on a 2xx status and rejects on everything else. */
  predicate Succeeded(r: Reply)
  {
    r.Answered? && 200 <= r.status < 300
  }

  /** `error.response?.data` of a rejected request (null when there is none). */
  function ErrorBody(r: Reply): Json
  {
    if r.Answered? then r.body else JNull
  }

  datatype File = File(fileName: string)

  /** One entry of a multipart FormData body. */
  datatype FormEntry = FileEntry(name: string, file: File) | TextEntry(name: string, value: string)

  /** A request a handler issues to the API. */
  datatype Call =
    | HttpGet(path: string)
    | HttpPost(path: string, body: Json)
    | HttpPut(path: string, payload: Option<Json>)
    | HttpDelete(path: string)
    | HttpPostForm(path: string, entries: seq<FormEntry>)

  /** A grievance row as the API lists it (only the fields the client decides on). */
  datatype Grievance = Grievance(
    grvnNum: string,
    status: Option<string>,
    categoryName: Option<string>,
    category: Option<string>)

  /** The four stat cards of the admin and employee dashboards. */
  datatype Stats = Stats(total: nat, pending: nat, inProgress: nat, resolved: nat)

  /** A string-valued JSON object, as the client posts form data. */
  function StringObject(m: map<string, string>): (r: Json)
    ensures r.JObject? && r.fields.Keys == m.Keys
    ensures forall k :: k in m ==> r.fields[k] == JString(m[k])
  {
    JObject(map k | k in m :: JString(m[k]))
  }
}
