// The browser's localStorage as the client uses it, and the assignment
// cache: the persisted list of grievance numbers an officer has taken on.

module Storage {
  import opened Base

  /**
   * A stored entry. localStorage holds strings; the entries the client
   * writes as JSON are kept here as the values they encode.
   */
  datatype Value =
    | Str(s: string)                    // a plain string entry; JSON.parse of it throws
    | IdList(ids: seq<string>)          // JSON array of grievance numbers
    | FlagMap(flags: map<string, bool>) // JSON object of feature flags
    | Serialized(j: Json)               // JSON.stringify of any other value

  const UserNumKey := "userNum"
  const RoleKey := "role"
  const UserKey := "user"
  const AssignedKey := "assignedGrievances"
  const FlagsKey := "featureFlags"
  const OfficerNumKey := "officerNum"

  class LocalStorage {
    var items: map<string, Value>

    constructor (initial: map<string, Value>)
      ensures items == initial
    {
      items := initial;
    }

    method SetItem(key: string, v: Value)
      modifies this
      ensures items == old(items)[key := v]
    {
      items := items[key := v];
    }

    method RemoveItem(key: string)
      modifies this
      ensures items == old(items) - {key}
    {
      items := items - {key};
    }

    method Clear()
      modifies this
      ensures items == map[]
    {
      items := map[];
    }
  }

  /** `localStorage.getItem(key)` for an entry holding a plain string. */
  function TextItem(items: map<string, Value>, key: string): Option<string>
  {
    if key in items && items[key].Str? then Some(items[key].s) else None
  }

  /** A stored string that is present and non-empty (what `if (stored)` accepts). */
  predicate HasText(items: map<string, Value>, key: string)
  {
    TextItem(items, key).Some? && TextItem(items, key).value != ""
  }

  /**
   * `JSON.parse(localStorage.getItem("assignedGrievances")) || []`, read as
   * the list the pages then call `includes` on. None where that throws: plain
   * text does not parse, and a parsed value that is truthy but not a list of
   * ids has no `includes` (a JSON array of other values is not modelled).
   */
  function ReadAssigned(items: map<string, Value>): (r: Option<seq<string>>)
    ensures AssignedKey !in items ==> r == Some([])
    ensures AssignedKey in items && items[AssignedKey].IdList? ==> r == Some(items[AssignedKey].ids)
    ensures AssignedKey in items && (items[AssignedKey].Str? || items[AssignedKey].FlagMap?) ==> r.None?
    ensures AssignedKey in items && items[AssignedKey].Serialized? ==>
              (r == Some([]) <==> !Truthy(items[AssignedKey].j))
  {
    if AssignedKey !in items then Some([])
    else match items[AssignedKey]
      case IdList(ids) => Some(ids)
      case Serialized(j) => if Truthy(j) then None else Some([])
      case _ => None
  }

  predicate NoDuplicates(s: seq<string>)
  {
    forall i, j :: 0 <= i < j < |s| ==> s[i] != s[j]
  }

  /**
   * The cache update after a successful assignment: the id is appended and
   * written back only when it is not already there. None where reading the
   * cache throws, so nothing is written.
   */
  function RecordAssignment(items: map<string, Value>, id: string): (r: Option<map<string, Value>>)
    ensures r.None? <==> ReadAssigned(items).None?
    ensures r.Some? ==> IsCached(r.value, id)
    ensures r.Some? ==> ReadAssigned(items).value <= ReadAssigned(r.value).value
    ensures r.Some? ==> |ReadAssigned(r.value).value| <= |ReadAssigned(items).value| + 1
    ensures r.Some? && NoDuplicates(ReadAssigned(items).value) ==> NoDuplicates(ReadAssigned(r.value).value)
    ensures IsCached(items, id) ==> r == Some(items)
    ensures r.Some? ==> forall k :: k != AssignedKey ==> (k in r.value <==> k in items)
    ensures r.Some? ==> forall k :: k != AssignedKey && k in r.value ==> r.value[k] == items[k]
  {
    match ReadAssigned(items)
    case None => None
    case Some(stored) =>
      if id in stored then Some(items) else Some(items[AssignedKey := IdList(stored + [id])])
  }

  /** Whether the cache lists the grievance (`assigned.includes(grvnNum)`); false where reading throws. */
  predicate IsCached(items: map<string, Value>, id: string)
  {
    ReadAssigned(items).Some? && id in ReadAssigned(items).value
  }

  /** Recording twice is the same as recording once. */
  lemma RecordAssignmentIdempotent(items: map<string, Value>, id: string)
    ensures RecordAssignment(items, id).Some? ==>
              RecordAssignment(RecordAssignment(items, id).value, id) == RecordAssignment(items, id)
  {
  }
}
