// The feature-flag store: a persisted map from flag name to boolean under
// the localStorage key "featureFlags", with a "featureFlagsChanged" event
// dispatched after every mutation.

module FeatureFlags {
  import opened Base
  import opened Storage

  const OfficerTableView := "officer_table_view"
  const GrievanceSelfAssignment := "grievance_self_assignment"
  const InvestigateWorkflow := "investigate_workflow"

  /** DEFAULT_FLAGS */
  function Defaults(): (d: map<string, bool>)
    ensures d.Keys == {OfficerTableView, GrievanceSelfAssignment, InvestigateWorkflow}
    ensures d[OfficerTableView] && !d[GrievanceSelfAssignment] && !d[InvestigateWorkflow]
  {
    map[OfficerTableView := true, GrievanceSelfAssignment := false, InvestigateWorkflow := false]
  }

  /** `localStorage.getItem("featureFlags")` is truthy: an entry is present and not "". */
  predicate FlagsStored(items: map<string, Value>)
  {
    FlagsKey in items && items[FlagsKey] != Str("")
  }

  /** The flag map stored under "featureFlags", if that entry holds one. */
  function StoredFlags(items: map<string, Value>): Option<map<string, bool>>
  {
    if FlagsKey in items && items[FlagsKey].FlagMap? then Some(items[FlagsKey].flags) else None
  }

  /**
   * getAllFlags: the parsed entry when one is stored, DEFAULT_FLAGS otherwise.
   * None where a stored entry is not a flag map: JSON.parse throws on plain text.
   */
  function AllFlags(items: map<string, Value>): (r: Option<map<string, bool>>)
    ensures !FlagsStored(items) ==> r == Some(Defaults())
    ensures FlagsStored(items) && items[FlagsKey].FlagMap? ==> r == Some(items[FlagsKey].flags)
    ensures FlagsStored(items) && !items[FlagsKey].FlagMap? ==> r.None?
  {
    if !FlagsStored(items) then Some(Defaults()) else StoredFlags(items)
  }

  /** `JSON.parse(localStorage.getItem("featureFlags"))` throws: the stored entry is plain text. */
  predicate FlagsParseThrows(items: map<string, Value>)
  {
    FlagsStored(items) && items[FlagsKey].Str?
  }

  /** `flags[name] || false`: an absent flag reads as off. */
  predicate Enabled(flags: map<string, bool>, name: string)
  {
    name in flags && flags[name]
  }

  /** initializeFlags: seed the defaults only when the entry is missing or "". */
  function Initialized(items: map<string, Value>): (r: map<string, Value>)
    ensures FlagsStored(r)
    ensures FlagsStored(items) ==> r == items
    ensures !FlagsStored(items) ==> r[FlagsKey] == FlagMap(Defaults())
    ensures forall k :: k != FlagsKey ==> (k in r <==> k in items)
    ensures forall k :: k != FlagsKey && k in r ==> r[k] == items[k]
  {
    if FlagsStored(items) then items else items[FlagsKey := FlagMap(Defaults())]
  }

  lemma InitializeIdempotent(items: map<string, Value>)
    ensures Initialized(Initialized(items)) == Initialized(items)
  {
  }

  /**
   * Seeding never changes what getAllFlags reports: with nothing stored both
   * read the defaults, and a stored entry (readable or not) is left alone.
   */
  lemma InitializeKeepsReading(items: map<string, Value>)
    ensures AllFlags(Initialized(items)) == AllFlags(items)
  {
  }

  /** `flags[name] = !flags[name]`: an absent flag becomes true. */
  function Toggled(flags: map<string, bool>, name: string): (r: map<string, bool>)
    ensures Enabled(r, name) == !Enabled(flags, name)
    ensures name in r
    ensures forall n :: n != name ==> (n in r <==> n in flags) && (n in r ==> r[n] == flags[n])
  {
    flags[name := !Enabled(flags, name)]
  }

  /** Toggling a flag that already holds a value twice gives the map back. */
  lemma ToggleTwice(flags: map<string, bool>, name: string)
    requires name in flags
    ensures Toggled(Toggled(flags, name), name) == flags
  {
  }

  /** Toggling an absent flag twice leaves it present and off rather than absent. */
  lemma ToggleTwiceAbsent(flags: map<string, bool>, name: string)
    requires name !in flags
    ensures Toggled(Toggled(flags, name), name) == flags[name := false]
  {
  }

  class FeatureFlagService {
    const store: LocalStorage
    /** The detail of each dispatched "featureFlagsChanged" event, oldest first. */
    var events: seq<map<string, bool>>

    /** `new FeatureFlagService()` runs initializeFlags. */
    constructor (store: LocalStorage)
      modifies store
      ensures this.store == store && events == []
      ensures store.items == Initialized(old(store.items))
    {
      this.store := store;
      events := [];
      new;
      InitializeFlags();
    }

    method InitializeFlags()
      modifies store
      ensures store.items == Initialized(old(store.items))
    {
      if !FlagsStored(store.items) {
        store.SetItem(FlagsKey, FlagMap(Defaults()));
      }
    }

    /** getAllFlags; None where it throws. */
    function GetAllFlags(): Option<map<string, bool>>
      reads store
    {
      AllFlags(store.items)
    }

    /** isEnabled: `flags[name] || false`; None where reading the flags throws. */
    function IsEnabled(name: string): (r: Option<bool>)
      reads store
      ensures r.None? <==> GetAllFlags().None?
      ensures r == Some(true) <==> GetAllFlags().Some? && name in GetAllFlags().value && GetAllFlags().value[name]
    {
      match GetAllFlags()
      case None => None
      case Some(flags) => Some(Enabled(flags, name))
    }

    /**
     * setFlag. `ok` is false where getAllFlags throws: then nothing is
     * written and no event fires.
     */
    method SetFlag(name: string, enabled: bool) returns (ok: bool)
      modifies this, store
      ensures ok <==> old(GetAllFlags()).Some?
      ensures !ok ==> store.items == old(store.items) && events == old(events)
      ensures ok ==> GetAllFlags() == Some(old(GetAllFlags()).value[name := enabled])
      ensures ok ==> IsEnabled(name) == Some(enabled)
      ensures ok ==> forall n :: n != name ==> (n in GetAllFlags().value <==> n in old(GetAllFlags()).value)
      ensures ok ==> forall n :: n != name && n in GetAllFlags().value ==>
                       GetAllFlags().value[n] == old(GetAllFlags()).value[n]
      ensures ok ==> store.items == old(store.items)[FlagsKey := FlagMap(GetAllFlags().value)]
      ensures ok ==> events == old(events) + [GetAllFlags().value]
    {
      var read := GetAllFlags();
      if read.None? {
        return false;
      }
      var flags := read.value[name := enabled];
      store.SetItem(FlagsKey, FlagMap(flags));
      events := events + [flags];
      ok := true;
    }

    /**
     * toggleFlag. `ok` is false where getAllFlags throws: then nothing is
     * written and no event fires.
     */
    method ToggleFlag(name: string) returns (ok: bool)
      modifies this, store
      ensures ok <==> old(GetAllFlags()).Some?
      ensures !ok ==> store.items == old(store.items) && events == old(events)
      ensures ok ==> GetAllFlags() == Some(Toggled(old(GetAllFlags()).value, name))
      ensures ok ==> IsEnabled(name) == Some(!old(IsEnabled(name)).value)
      ensures ok ==> store.items == old(store.items)[FlagsKey := FlagMap(GetAllFlags().value)]
      ensures ok ==> events == old(events) + [GetAllFlags().value]
    {
      var read := GetAllFlags();
      if read.None? {
        return false;
      }
      var flags := read.value[name := !Enabled(read.value, name)];
      store.SetItem(FlagsKey, FlagMap(flags));
      events := events + [flags];
      ok := true;
    }

    method ResetToDefaults()
      modifies this, store
      ensures GetAllFlags() == Some(Defaults())
      ensures store.items == old(store.items)[FlagsKey := FlagMap(Defaults())]
      ensures events == old(events) + [Defaults()]
    {
      store.SetItem(FlagsKey, FlagMap(Defaults()));
      events := events + [Defaults()];
    }
  }
}
