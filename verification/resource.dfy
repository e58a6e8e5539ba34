/**
 The per-task resource requirement and its lookup in the configuration
 (`ResourcesFor` in flow.go).
 */
module Resource {
  import opened Wrappers
  import opened Config

  /** The Go `Resources` struct. */
  datatype Resources = Resources(
    cpus: int,
    memory: int,
    time: int,
    container: string,
    singularityExtraArgs: string)

  /** Go's zero value `Resources{}`. */
  const Empty := Resources(0, 0, 0, "", "")

  /** Errors a task's `Resources()` can report: the one `ResourcesFor`
      produces ("no <field> resource for <name>"), or any other error a
      task implementation chooses to return. */
  datatype ResourceError =
    | MissingResource(field: Field, analysisName: string)
    | Other(message: string)

  /** Go's `(Resources, error)` pair; `err == None` is a nil error. */
  datatype Lookup = Lookup(resources: Resources, err: Option<ResourceError>)

  /** A setting counts as missing when it reads as the zero value. */
  predicate IsMissing(store: Store, analysisName: string, f: Field)
  {
    match f
    case Container => GetString(store, Key(analysisName, f)) == ""
    case _ => GetInt(store, Key(analysisName, f)) == 0
  }

  /** Every setting is present for this analysis. */
  predicate Complete(store: Store, analysisName: string)
  {
    && !IsMissing(store, analysisName, Cpus)
    && !IsMissing(store, analysisName, Memory)
    && !IsMissing(store, analysisName, Time)
    && !IsMissing(store, analysisName, Container)
  }

  /** The record built from the configured values when nothing is missing. */
  function Configured(store: Store, analysisName: string): Resources
  {
    Resources(
      GetInt(store, Key(analysisName, Cpus)),
      GetInt(store, Key(analysisName, Memory)),
      GetInt(store, Key(analysisName, Time)),
      GetString(store, Key(analysisName, Container)),
      "")
  }

  /**
   Looks up cpus, memory, time and container for `analysisName`, in that
   order, and fails on the first one that is missing.
   */
  function ResourcesFor(store: Store, analysisName: string): (r: Lookup)
    // an error exactly when some setting is missing
    ensures r.err.Some? <==> !Complete(store, analysisName)
    // the error names the first missing setting in checking order, and the
    // record returned beside it is the zero value
    ensures r.err.Some? ==>
      && r.resources == Empty
      && r.err.value.MissingResource?
      && r.err.value.analysisName == analysisName
      && IsMissing(store, analysisName, r.err.value.field)
      && forall g: Field :: Rank(g) < Rank(r.err.value.field) ==> !IsMissing(store, analysisName, g)
    // on success: exactly the configured values, no extra runtime arguments,
    // non-zero integers and a non-empty container
    ensures r.err.None? ==>
      && r.resources == Configured(store, analysisName)
      && r.resources.cpus != 0 && r.resources.memory != 0 && r.resources.time != 0
      && r.resources.container != ""
      && r.resources.singularityExtraArgs == ""
  {
    var cpus := GetInt(store, Key(analysisName, Cpus));
    if cpus == 0 then Lookup(Empty, Some(MissingResource(Cpus, analysisName)))
    else
      var memory := GetInt(store, Key(analysisName, Memory));
      if memory == 0 then Lookup(Empty, Some(MissingResource(Memory, analysisName)))
      else
        var time := GetInt(store, Key(analysisName, Time));
        if time == 0 then Lookup(Empty, Some(MissingResource(Time, analysisName)))
        else
          var container := GetString(store, Key(analysisName, Container));
          if container == "" then Lookup(Empty, Some(MissingResource(Container, analysisName)))
          else Lookup(Resources(cpus, memory, time, container, ""), None)
  }

  /** Two stores that agree on the four keys of an analysis. */
  predicate AgreeOn(s1: Store, s2: Store, analysisName: string)
  {
    && (forall f: Field :: GetInt(s1, Key(analysisName, f)) == GetInt(s2, Key(analysisName, f)))
    && GetString(s1, Key(analysisName, Container)) == GetString(s2, Key(analysisName, Container))
  }

  /** The lookup reads nothing but the four keys of its analysis. */
  lemma ResourcesForReadsOnlyItsKeys(s1: Store, s2: Store, analysisName: string)
    requires AgreeOn(s1, s2, analysisName)
    ensures ResourcesFor(s1, analysisName) == ResourcesFor(s2, analysisName)
  {
  }

  /** Setting one analysis's resource key leaves every other analysis's
      lookup unchanged. */
  lemma SettingOtherAnalysisIsInvisible(store: Store, other: string, f: Field, n: int, s: string, analysisName: string)
    requires other != analysisName
    ensures ResourcesFor(Store(store.ints[Key(other, f) := n], store.strings[Key(other, f) := s]), analysisName)
         == ResourcesFor(store, analysisName)
  {
    var updated := Store(store.ints[Key(other, f) := n], store.strings[Key(other, f) := s]);
    forall g: Field
      ensures GetInt(updated, Key(analysisName, g)) == GetInt(store, Key(analysisName, g))
      ensures GetString(updated, Key(analysisName, g)) == GetString(store, Key(analysisName, g))
    {
      if Key(analysisName, g) == Key(other, f) {
        KeyInjective(analysisName, g, other, f);
      }
    }
    ResourcesForReadsOnlyItsKeys(updated, store, analysisName);
  }

  /** Only zero is rejected: a negative setting passes the lookup. */
  lemma NegativeSettingAccepted()
    ensures exists store: Store, name: string ::
      && ResourcesFor(store, name).err.None?
      && ResourcesFor(store, name).resources.cpus < 0
  {
    var name := "bwa";
    var store := Store(
      map[Key(name, Cpus) := -1, Key(name, Memory) := 8, Key(name, Time) := 60],
      map[Key(name, Container) := "bwa.sif"]);
    forall f: Field, g: Field | f != g ensures Key(name, f) != Key(name, g) {
      if Key(name, f) == Key(name, g) { KeyInjective(name, f, name, g); }
    }
    assert ResourcesFor(store, name).resources.cpus == -1;
  }
}
