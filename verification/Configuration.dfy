/**
 Layered configuration over the administrative store: defaults, then YAML, then the
 environment, then persisted overrides, which change only by compare-and-swap on a version.
 */
module Configuration {
  import opened Basics
  import opened Paths
  import opened Flattening
  import opened RoundTrips

  datatype Value = Null | Truth(bool) | Whole(int) | Number(real) | Text(string) | Texts(seq<string>)

  type Settings = map<string, Value>

  /** The two checked fields of a typed configuration, and the rest of it. */
  datatype AppConfig = AppConfig(bind: string, authMode: string, rest: Mapping<Value>)

  /** What the section models make of nested values; none when a field is unknown or out of range. */
  type Sections = Mapping<Value> -> Option<AppConfig>

  datatype Layer = DefaultLayer | YamlLayer | EnvironmentLayer | PersistedLayer

  datatype ConfigError = UnknownSetting(name: string) | Invalid | Conflict(current: int)

  // ---------- Validation ----------

  /** The mapping with exactly the leaves of some flat settings. */
  ghost predicate IsNested(t: Mapping<Value>, m: Settings) {
    NoEmptyPart(t) && forall path :: LeafAt(t, path) == At(m, path)
  }

  lemma NestedExists(m: Settings) returns (t: Mapping<Value>)
    requires PrefixFree(m)
    ensures IsNested(t, m)
  {
    assert Elements<string>([]) == {};
    var order := AnyOrder([], m.Keys, m.Keys);
    InflateHoldsExactly(m, order);
    t := InflateIn(m, order).value;
    forall path ensures LeafAt(t, path) == At(m, path) {
      if |path| >= 1 && Join(path) in m {
        assert Join(path) in Elements(order);
      }
    }
  }

  ghost function Nested(m: Settings): (t: Mapping<Value>)
    requires PrefixFree(m)
    ensures IsNested(t, m)
  {
    assert exists t :: IsNested(t, m) by {
      var t := NestedExists(m);
    }
    var t :| IsNested(t, m);
    t
  }

  lemma InflateIsNested(m: Settings, r: Option<Mapping<Value>>)
    requires PrefixFree(m) && InflatesTo(m, r)
    ensures r == Some(Nested(m))
  {
    var order :| Enumerates(order, m.Keys) && InflateIn(m, order) == r;
    InflateHoldsExactly(m, order);
    var t := InflateIn(m, order).value;
    forall path ensures LeafAt(t, path) == LeafAt(Nested(m), path) {
      if |path| >= 1 && Join(path) in m {
        assert Join(path) in Elements(order);
      }
    }
    SameLeavesSameMapping(t, Nested(m));
  }

  predicate SecureExposure(c: AppConfig) {
    c.bind == "127.0.0.1" || c.authMode == "token"
  }

  function Checked(sections: Sections, t: Mapping<Value>): Option<AppConfig> {
    var c := sections(t);
    if c.Some? && !SecureExposure(c.value) then None else c
  }

  /** The validated whole of some settings; keys that are not prefix-free never get this far. */
  ghost function Configured(sections: Sections, m: Settings): Option<AppConfig> {
    if PrefixFree(m) then Checked(sections, Nested(m)) else None
  }

  /**
   Validation of prefix-free settings gives what the sections make of them, provided that is bound
   to the loopback address or asks for a token.
   */
  ghost predicate Validates(sections: Sections, m: Settings, result: Option<AppConfig>)
    requires PrefixFree(m)
  {
    match sections(Nested(m))
    case None => result == None
    case Some(made) => result == if made.bind == "127.0.0.1" || made.authMode == "token" then Some(made) else None
  }

  // ---------- Layers ----------

  datatype Layers = Layers(defaults: Settings, yaml: Settings, environment: Settings, persisted: Settings)

  function LayerNamed(l: Layers, name: Layer): Settings {
    match name
    case DefaultLayer => l.defaults
    case YamlLayer => l.yaml
    case EnvironmentLayer => l.environment
    case PersistedLayer => l.persisted
  }

  function Rank(name: Layer): nat {
    match name
    case DefaultLayer => 0
    case YamlLayer => 1
    case EnvironmentLayer => 2
    case PersistedLayer => 3
  }

  /** The last layer that sets a known setting. */
  function SourceOf(l: Layers, k: string): (source: Layer)
    requires k in l.defaults
    ensures k in LayerNamed(l, source)
    ensures forall later :: Rank(later) > Rank(source) ==> k !in LayerNamed(l, later)
  {
    if k in l.persisted then PersistedLayer
    else if k in l.environment then EnvironmentLayer
    else if k in l.yaml then YamlLayer
    else DefaultLayer
  }

  predicate KnownLayers(l: Layers) {
    && l.yaml.Keys <= l.defaults.Keys
    && l.environment.Keys <= l.defaults.Keys
    && l.persisted.Keys <= l.defaults.Keys
  }

  /** Every setting has the value of the last layer that sets it, and its source names that layer. */
  ghost predicate Overlaid(l: Layers, values: Settings, sources: map<string, Layer>) {
    && values.Keys == l.defaults.Keys && sources.Keys == l.defaults.Keys
    && (forall k :: k in l.defaults ==> sources[k] == SourceOf(l, k))
    && (forall k :: k in l.defaults ==> values[k] == LayerNamed(l, SourceOf(l, k))[k])
  }

  /** The overlay is determined by its layers. */
  lemma OverlayIsUnique(l: Layers, v: Settings, s: map<string, Layer>, w: Settings, t: map<string, Layer>)
    requires Overlaid(l, v, s) && Overlaid(l, w, t)
    ensures v == w && s == t
  {
    hide SourceOf;
  }

  /** What a layer writes into the sources. */
  function Marked(layer: Settings, source: Layer): map<string, Layer> {
    map k | k in layer :: source
  }

  lemma NoneUnknown(names: set<string>, known: set<string>)
    ensures names - known == {} <==> names <= known
  {
    if names - known == {} {
      forall name | name in names ensures name in known {
        assert name !in names - known;
      }
    }
  }

  lemma SameKeysStayPrefixFree(m: Settings, n: Settings)
    requires PrefixFree(m) && n.Keys <= m.Keys
    ensures PrefixFree(n)
  {
    assert forall p :: p in n ==> p in m.Keys;
  }

  // ---------- The store ----------

  /** The configuration tables. The ghost log holds the overrides of every version so far. */
  class ConfigStore {
    var version: int
    var overrides: Settings
    ghost var firstVersion: int
    ghost var log: seq<Settings>

    ghost predicate Valid()
      reads this
    {
      && |log| >= 1
      && overrides == log[|log| - 1]
      && version == firstVersion + |log| - 1
    }

    constructor ()
      ensures Valid() && version == 1 && overrides == map[] && log == [map[]]
    {
      version, overrides, firstVersion, log := 1, map[], 1, [map[]];
    }

    /** One transaction: refused with the current version, or the overrides replaced whole. */
    method ReplaceConfig(values: Settings, expected: int) returns (r: Result<int, ConfigError>)
      requires Valid()
      modifies this
      ensures Valid() && firstVersion == old(firstVersion)
      ensures expected == old(version) ==>
                r == Ok(old(version) + 1) && version == old(version) + 1
                && overrides == values && log == old(log) + [values]
      ensures expected != old(version) ==>
                r == Err(Conflict(old(version))) && version == old(version)
                && overrides == old(overrides) && log == old(log)
    {
      var current := version;
      if current != expected {
        return Err(Conflict(current));
      }
      overrides := map[];
      overrides := overrides + values;
      version := current + 1;
      log := log + [values];
      r := Ok(current + 1);
    }
  }

  // ---------- The manager ----------

  /** An accepted patch, with the version it was built on. */
  datatype Change = Change(base: int, patch: Settings)

  /** The overrides after a series of patches. */
  function Patched(base: Settings, changes: seq<Change>): Settings {
    if |changes| == 0 then base
    else Patched(base, changes[..|changes| - 1]) + changes[|changes| - 1].patch
  }

  class ConfigurationManager {
    const sections: Sections
    const defaults: Settings
    const yaml: Settings
    const environment: Settings
    const store: ConfigStore
    var values: Settings
    var sources: map<string, Layer>
    var persisted: Settings
    var version: int
    var config: AppConfig
    ghost var startVersion: int
    ghost var startOverrides: Settings
    ghost var changes: seq<Change>

    ghost function AllLayers(): Layers
      reads this
    {
      Layers(defaults, yaml, environment, persisted)
    }

    /** The values are the overlay of the layers and the configuration is their validated whole. */
    ghost predicate Valid()
      reads this
    {
      && PrefixFree(defaults) && KnownLayers(AllLayers())
      && Overlaid(AllLayers(), values, sources)
      && Configured(sections, values) == Some(config)
      && SecureExposure(config)
      && persisted == Patched(startOverrides, changes)
      && version == startVersion + |changes|
      && (forall i :: 0 <= i < |changes| ==> changes[i].base == startVersion + i)
    }

    /** This manager is the only one that writes to its store. */
    ghost predicate InSync()
      reads this, store
    {
      store.Valid() && version == store.version && persisted == store.overrides
    }

    constructor (sections: Sections, defaults: Settings, yaml: Settings, environment: Settings,
                 store: ConfigStore)
      ensures this.sections == sections && this.defaults == defaults && this.yaml == yaml
      ensures this.environment == environment && this.store == store
      ensures values == defaults && sources == Marked(defaults, DefaultLayer)
      ensures version == store.version && persisted == store.overrides
      ensures startVersion == version && startOverrides == persisted && changes == []
    {
      this.sections, this.defaults, this.yaml := sections, defaults, yaml;
      this.environment, this.store := environment, store;
      values, sources := defaults, Marked(defaults, DefaultLayer);
      version, persisted := store.version, store.overrides;
      startVersion, startOverrides, changes := store.version, store.overrides, [];
    }

    method ApplyLayer(layer: Settings, source: Layer) returns (failure: Option<ConfigError>)
      modifies `values, `sources
      ensures failure.None? <==> layer.Keys <= old(values).Keys
      ensures failure.None? ==> values == old(values) + layer
      ensures failure.None? ==> sources == old(sources) + Marked(layer, source)
      ensures failure.Some? ==> values == old(values) && sources == old(sources)
      ensures failure.Some? ==>
                failure.value.UnknownSetting? && failure.value.name in layer && failure.value.name !in old(values)
    {
      var unknown := layer.Keys - values.Keys;
      NoneUnknown(layer.Keys, values.Keys);
      if unknown != {} {
        var name :| name in unknown;
        return Some(UnknownSetting(name));
      }
      values := values + layer;
      sources := sources + Marked(layer, source);
      failure := None;
    }

    /** The three layers above the defaults, in turn, until one holds an unknown setting. */
    method Load() returns (failure: Option<ConfigError>)
      requires values == defaults && sources == Marked(defaults, DefaultLayer)
      modifies `values, `sources
      ensures failure.None? <==> KnownLayers(AllLayers())
      ensures failure.None? ==> values == Merged(defaults, yaml, environment, persisted)
      ensures failure.None? ==> sources == Sourced(AllLayers())
      ensures failure.Some? ==>
                failure.value.UnknownSetting? && failure.value.name !in defaults
                && failure.value.name in yaml.Keys + environment.Keys + persisted.Keys
    {
      failure := ApplyLayer(yaml, YamlLayer);
      if failure.Some? {
        return;
      }
      assert values.Keys == defaults.Keys;
      failure := ApplyLayer(environment, EnvironmentLayer);
      if failure.Some? {
        return;
      }
      assert values.Keys == defaults.Keys;
      failure := ApplyLayer(persisted, PersistedLayer);
    }

    /** Starts from the defaults, applies the three other layers in turn and validates the whole. */
    static method Open(sections: Sections, defaults: Settings, yaml: Settings, environment: Settings,
                       store: ConfigStore)
      returns (r: Result<ConfigurationManager, ConfigError>)
      requires store.Valid() && PrefixFree(defaults)
      ensures r.Ok? <==>
              KnownLayers(Layers(defaults, yaml, environment, store.overrides))
              && Configured(sections, Merged(defaults, yaml, environment, store.overrides)).Some?
      ensures r.Ok? ==> r.value.config.bind == "127.0.0.1" || r.value.config.authMode == "token"
      ensures KnownLayers(Layers(defaults, yaml, environment, store.overrides)) ==>
                var m := Merged(defaults, yaml, environment, store.overrides);
                && PrefixFree(m) && (r.Ok? || r == Err(Invalid))
                && Validates(sections, m, if r.Ok? then Some(r.value.config) else None)
      ensures r.Ok? ==>
                fresh(r.value) && r.value.Valid() && r.value.InSync()
                && r.value.sections == sections && r.value.defaults == defaults && r.value.yaml == yaml
                && r.value.environment == environment && r.value.store == store
                && r.value.changes == []
      ensures (r.Err? && r.error.UnknownSetting?) <==> !KnownLayers(Layers(defaults, yaml, environment, store.overrides))
      ensures r.Err? && r.error.UnknownSetting? ==>
                r.error.name !in defaults
                && r.error.name in yaml.Keys + environment.Keys + store.overrides.Keys
    {
      hide PrefixFree, Overlaid, KnownLayers, Merged, Sourced, InflatesTo;
      var m := new ConfigurationManager(sections, defaults, yaml, environment, store);
      var layers := Layers(defaults, yaml, environment, store.overrides);
      var failure := m.Load();
      if failure.Some? {
        return Err(failure.value);
      }
      assert m.AllLayers() == layers;
      MergedStaysPrefixFree(defaults, yaml, environment, store.overrides);
      MergeOverlays(layers);
      var nested := Inflate(m.values);
      InflateIsNested(m.values, nested);
      var checked := Checked(sections, nested.value);
      if checked.None? {
        return Err(Invalid);
      }
      m.config := checked.value;
      r := Ok(m);
    }

    method ValidatePatch(patch: Settings) returns (r: Result<AppConfig, ConfigError>)
      requires Valid()
      ensures r.Ok? <==> patch.Keys <= values.Keys && Configured(sections, values + patch).Some?
      ensures r.Ok? ==> Configured(sections, values + patch) == Some(r.value)
      ensures r.Ok? ==> r.value.bind == "127.0.0.1" || r.value.authMode == "token"
      ensures patch.Keys <= values.Keys ==>
                && PrefixFree(values + patch) && (r.Ok? || r == Err(Invalid))
                && Validates(sections, values + patch, if r.Ok? then Some(r.value) else None)
      ensures (r.Err? && r.error.UnknownSetting?) <==> !(patch.Keys <= values.Keys)
      ensures r.Err? && r.error.UnknownSetting? ==> r.error.name in patch && r.error.name !in values
      ensures r.Err? ==> !r.error.Conflict?
    {
      var unknown := patch.Keys - values.Keys;
      NoneUnknown(patch.Keys, values.Keys);
      if unknown != {} {
        var name :| name in unknown;
        return Err(UnknownSetting(name));
      }
      var candidate := values + patch;
      SameKeysStayPrefixFree(defaults, candidate);
      var nested := Inflate(candidate);
      InflateIsNested(candidate, nested);
      var checked := Checked(sections, nested.value);
      r := if checked.None? then Err(Invalid) else Ok(checked.value);
    }

    /** An accepted patch is one more link of a linear history; a refused one changes nothing. */
    method Update(patch: Settings, expected: int) returns (r: Result<AppConfig, ConfigError>)
      requires Valid() && InSync()
      modifies this, store
      ensures Valid() && InSync()
      ensures r.Ok? <==>
              patch.Keys <= old(values).Keys && expected == old(version)
              && Configured(sections, old(values) + patch).Some?
      ensures r.Ok? ==> r.value.bind == "127.0.0.1" || r.value.authMode == "token"
      ensures patch.Keys <= old(values).Keys && expected == old(version) ==>
                && PrefixFree(old(values) + patch) && (r.Ok? || r == Err(Invalid))
                && Validates(sections, old(values) + patch, if r.Ok? then Some(r.value) else None)
      ensures r.Ok? ==>
                changes == old(changes) + [Change(expected, patch)]
                && config == r.value && version == expected + 1
                && values == old(values) + patch && sources == old(sources) + Marked(patch, PersistedLayer)
                && store.log == old(store.log) + [old(store.overrides) + patch]
      ensures r.Err? ==>
                values == old(values) && sources == old(sources) && persisted == old(persisted)
                && version == old(version) && config == old(config) && changes == old(changes)
                && store.version == old(store.version) && store.overrides == old(store.overrides)
                && store.log == old(store.log)
      ensures (r.Err? && r.error.UnknownSetting?) <==> !(patch.Keys <= old(values).Keys)
      ensures r.Err? && r.error.Conflict? ==> r.error.current == old(version) && expected != old(version)
      ensures patch.Keys <= old(values).Keys && Configured(sections, old(values) + patch).Some? && expected != old(version) ==>
                r == Err(Conflict(old(version)))
      ensures startVersion == old(startVersion) && startOverrides == old(startOverrides)
    {
      var candidate := ValidatePatch(patch);
      if candidate.Err? {
        return candidate;
      }
      var next := persisted + patch;
      var replaced := store.ReplaceConfig(next, expected);
      if replaced.Err? {
        return Err(replaced.error);
      }
      Adopt(patch, candidate.value, expected);
      r := candidate;
    }

    /** Takes over a patch that the store has accepted. */
    method Adopt(patch: Settings, candidate: AppConfig, expected: int)
      requires Valid() && patch.Keys <= values.Keys && expected == version
      requires Configured(sections, values + patch) == Some(candidate) && SecureExposure(candidate)
      modifies this
      ensures Valid() && config == candidate && version == expected + 1
      ensures persisted == old(persisted) + patch && values == old(values) + patch
      ensures sources == old(sources) + Marked(patch, PersistedLayer)
      ensures changes == old(changes) + [Change(expected, patch)]
      ensures startVersion == old(startVersion) && startOverrides == old(startOverrides)
    {
      hide Overlaid, KnownLayers, Marked;
      OverlayGrows(AllLayers(), values, sources, patch);
      ghost var before := AllLayers();
      version := expected + 1;
      persisted := persisted + patch;
      values := values + patch;
      sources := sources + Marked(patch, PersistedLayer);
      config := candidate;
      changes := changes + [Change(expected, patch)];
      assert changes[..|changes| - 1] == old(changes);
      assert AllLayers() == before.(persisted := persisted);
    }

    /** A manager opened again over the same layers and store has the same values, sources and configuration. */
    method Restarted() returns (m: ConfigurationManager)
      requires Valid() && InSync()
      ensures fresh(m) && m.Valid() && m.InSync()
      ensures m.values == values && m.sources == sources && m.config == config && m.version == version
    {
      MergeIsValues(AllLayers(), values, sources);
      var r := Open(sections, defaults, yaml, environment, store);
      m := r.value;
      OverlayIsUnique(AllLayers(), values, sources, m.values, m.sources);
    }
  }

  // ---------- The overlay ----------

  function Merged(defaults: Settings, yaml: Settings, environment: Settings, persisted: Settings): Settings {
    defaults + yaml + environment + persisted
  }

  lemma MergedStaysPrefixFree(defaults: Settings, yaml: Settings, environment: Settings, persisted: Settings)
    requires PrefixFree(defaults)
    ensures KnownLayers(Layers(defaults, yaml, environment, persisted)) ==>
              PrefixFree(Merged(defaults, yaml, environment, persisted))
  {
    if KnownLayers(Layers(defaults, yaml, environment, persisted)) {
      SameKeysStayPrefixFree(defaults, Merged(defaults, yaml, environment, persisted));
    }
  }

  function Sourced(l: Layers): map<string, Layer> {
    Marked(l.defaults, DefaultLayer) + Marked(l.yaml, YamlLayer)
    + Marked(l.environment, EnvironmentLayer) + Marked(l.persisted, PersistedLayer)
  }

  lemma SourcedAt(l: Layers, k: string)
    requires k in l.defaults
    ensures k in Sourced(l) && Sourced(l)[k] == SourceOf(l, k)
  {
  }

  lemma MergedAt(l: Layers, k: string)
    requires k in l.defaults
    ensures var m := Merged(l.defaults, l.yaml, l.environment, l.persisted);
            k in m && m[k] == LayerNamed(l, SourceOf(l, k))[k]
  {
  }

  lemma MergeOverlays(l: Layers)
    requires KnownLayers(l)
    ensures Overlaid(l, Merged(l.defaults, l.yaml, l.environment, l.persisted), Sourced(l))
  {
    var m := Merged(l.defaults, l.yaml, l.environment, l.persisted);
    assert m.Keys == l.defaults.Keys;
    assert Sourced(l).Keys == l.defaults.Keys by {
      assert Marked(l.defaults, DefaultLayer).Keys == l.defaults.Keys;
      assert Marked(l.yaml, YamlLayer).Keys == l.yaml.Keys;
      assert Marked(l.environment, EnvironmentLayer).Keys == l.environment.Keys;
      assert Marked(l.persisted, PersistedLayer).Keys == l.persisted.Keys;
    }
    hide Merged, Sourced, SourceOf, Marked;
    forall k | k in l.defaults ensures Sourced(l)[k] == SourceOf(l, k) {
      SourcedAt(l, k);
    }
    forall k | k in l.defaults ensures m[k] == LayerNamed(l, SourceOf(l, k))[k] {
      MergedAt(l, k);
    }
  }

  lemma MergeIsValues(l: Layers, values: Settings, sources: map<string, Layer>)
    requires KnownLayers(l) && Overlaid(l, values, sources)
    ensures Merged(l.defaults, l.yaml, l.environment, l.persisted) == values
  {
    MergeOverlays(l);
    OverlayIsUnique(l, values, sources, Merged(l.defaults, l.yaml, l.environment, l.persisted), Sourced(l));
  }

  lemma GrownAt(l: Layers, patch: Settings, k: string)
    requires k in l.defaults
    ensures var after := l.(persisted := l.persisted + patch);
            SourceOf(after, k) == (if k in patch then PersistedLayer else SourceOf(l, k))
            && LayerNamed(after, SourceOf(after, k))[k] ==
               (if k in patch then patch[k] else LayerNamed(l, SourceOf(l, k))[k])
  {
  }

  /** Patching the last layer patches the values and nothing else. */
  lemma OverlayGrows(l: Layers, values: Settings, sources: map<string, Layer>, patch: Settings)
    requires KnownLayers(l) && Overlaid(l, values, sources) && patch.Keys <= values.Keys
    ensures KnownLayers(l.(persisted := l.persisted + patch))
    ensures Overlaid(l.(persisted := l.persisted + patch), values + patch, sources + Marked(patch, PersistedLayer))
  {
    var after := l.(persisted := l.persisted + patch);
    var marks := Marked(patch, PersistedLayer);
    MarksAre(patch);
    hide SourceOf, LayerNamed, Marked;
    forall k | k in l.defaults ensures (sources + marks)[k] == SourceOf(after, k) {
      GrownAt(l, patch, k);
    }
    forall k | k in l.defaults ensures (values + patch)[k] == LayerNamed(after, SourceOf(after, k))[k] {
      GrownAt(l, patch, k);
    }
    SameKeys(sources, marks, l.defaults.Keys);
    SameKeys(values, patch, l.defaults.Keys);
  }

  lemma MarksAre(patch: Settings)
    ensures var marks := Marked(patch, PersistedLayer);
            marks.Keys == patch.Keys && forall k :: k in patch ==> marks[k] == PersistedLayer
  {
  }

  lemma SameKeys<V>(a: map<string, V>, b: map<string, V>, names: set<string>)
    requires a.Keys == names && b.Keys <= names
    ensures (a + b).Keys == names
  {
  }

  // ---------- History ----------

  /** After any accepted patches a setting has the value of the last one that named it. */
  lemma {:induction false} LastPatchWins(base: Settings, changes: seq<Change>, k: string, i: nat)
    requires i < |changes| && k in changes[i].patch
    requires forall j :: i < j < |changes| ==> k !in changes[j].patch
    ensures k in Patched(base, changes) && Patched(base, changes)[k] == changes[i].patch[k]
    decreases |changes|
  {
    var n := |changes| - 1;
    if i < n {
      LastPatchWins(base, changes[..n], k, i);
    }
  }

  lemma {:induction false} UnpatchedStays(base: Settings, changes: seq<Change>, k: string)
    requires forall j :: 0 <= j < |changes| ==> k !in changes[j].patch
    ensures k in Patched(base, changes) <==> k in base
    ensures k in base ==> Patched(base, changes)[k] == base[k]
    decreases |changes|
  {
    if |changes| > 0 {
      UnpatchedStays(base, changes[..|changes| - 1], k);
    }
  }

  /**
   Writing one's own remembered overrides with a patch loses no stored override exactly when
   they agree with the stored ones outside the patch, as they do for a single manager.
   */
  lemma NothingLostExactly(remembered: Settings, stored: Settings, patch: Settings)
    ensures remembered + patch == stored + patch <==>
            remembered - patch.Keys == stored - patch.Keys
  {
    if remembered + patch == stored + patch {
      forall k | k !in patch.Keys ensures (k in remembered <==> k in stored) && (k in stored ==> remembered[k] == stored[k]) {
        assert k in remembered + patch <==> k in remembered;
        assert k in stored + patch <==> k in stored;
        if k in stored {
          assert (remembered + patch)[k] == remembered[k] && (stored + patch)[k] == stored[k];
        }
      }
    } else if remembered - patch.Keys == stored - patch.Keys {
      forall k | k in (remembered + patch).Keys + (stored + patch).Keys
        ensures k in remembered + patch && k in stored + patch && (remembered + patch)[k] == (stored + patch)[k]
      {
        if k !in patch {
          assert k in remembered - patch.Keys <==> k in stored - patch.Keys;
          assert k in remembered - patch.Keys ==> (remembered - patch.Keys)[k] == remembered[k];
          assert k in stored - patch.Keys ==> (stored - patch.Keys)[k] == stored[k];
        }
      }
    }
  }
}
