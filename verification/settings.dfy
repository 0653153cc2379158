/** The database section of the configuration and the order in which
    `NewDb` looks it up: the module-namespaced key, then the bare section
    key, then the built-in defaults. The configuration store is a map from
    key to what decoding the stored value yields. */
module Settings {
  import opened Wrappers

  /** Engine-wide switches of the section's `Config` block. */
  datatype EngineConfig = EngineConfig(
    openLog: bool,
    skipDefaultTransaction: bool,
    noLowerCase: bool)

  /** One database section: the connection string and the switches. */
  datatype Setting = Setting(connect: string, config: EngineConfig)

  /** The connection string used when the configuration has no section. */
  const DefaultConnect: string := "sqlite|./db/data.db&OFF"

  /** The section used when the configuration has none. */
  const DefaultSetting: Setting :=
    Setting(DefaultConnect, EngineConfig(false, true, true))

  /** The zero value of the section struct, left in place when the stored
      value cannot be re-encoded. */
  const ZeroSetting: Setting := Setting("", EngineConfig(false, false, false))

  /** What the JSON round trip of a stored value yields: the decoded
      section, a failure to encode the raw value (the decode step is then
      skipped), or a failure to decode it into the section struct. */
  datatype Stored = Decodes(setting: Setting) | EncodeFails | DecodeFails

  /** Which key the section was taken from. */
  datatype Source = Namespaced | Bare | Defaults

  /** The section that was found (`None` where `NewDb` returns nil) and
      where it came from. */
  datatype Resolution = Resolution(source: Source, setting: Option<Setting>)

  /** The key `<module>.<section>`. */
  function NamespacedKey(moduleName: string, section: string): (key: string)
    ensures |key| == |moduleName| + 1 + |section|
    ensures key[|moduleName|] == '.' && key[..|moduleName|] == moduleName && key[|moduleName| + 1..] == section
  {
    moduleName + "." + section
  }

  /** The section a stored value decodes to. An encode failure is ignored
      and leaves the zero section; a decode failure yields nothing. */
  function Decode(v: Stored): (r: Option<Setting>)
    ensures r.None? <==> v.DecodeFails?
    ensures v.EncodeFails? ==> r == Some(ZeroSetting)
    ensures v.Decodes? ==> r == Some(v.setting)
  {
    match v
    case Decodes(s) => Some(s)
    case EncodeFails => Some(ZeroSetting)
    case DecodeFails => None
  }

  /** Lookup precedence of `NewDb`. */
  function Resolve(store: map<string, Stored>, moduleName: string, section: string): (r: Resolution)
    ensures NamespacedKey(moduleName, section) in store ==>
              r == Resolution(Namespaced, Decode(store[NamespacedKey(moduleName, section)]))
    ensures NamespacedKey(moduleName, section) !in store && section in store ==>
              r == Resolution(Bare, Decode(store[section]))
    ensures NamespacedKey(moduleName, section) !in store && section !in store ==>
              r == Resolution(Defaults, Some(DefaultSetting))
  {
    var key := NamespacedKey(moduleName, section);
    if key in store then Resolution(Namespaced, Decode(store[key]))
    else if section in store then Resolution(Bare, Decode(store[section]))
    else Resolution(Defaults, Some(DefaultSetting))
  }

  /** A namespaced entry shadows the bare entry: whatever the bare section
      holds, or whether it is present at all, does not change the result. */
  lemma NamespacedShadowsBare(store: map<string, Stored>, moduleName: string, section: string, bare: Stored)
    requires NamespacedKey(moduleName, section) in store
    ensures Resolve(store[section := bare], moduleName, section) == Resolve(store, moduleName, section)
    ensures Resolve(store - {section}, moduleName, section) == Resolve(store, moduleName, section)
  {
    var key := NamespacedKey(moduleName, section);
    assert key != section;
    assert store[section := bare][key] == store[key];
    assert (store - {section})[key] == store[key];
  }

  /** The defaults are used only when neither key is present. */
  lemma DefaultsOnlyWhenAbsent(store: map<string, Stored>, moduleName: string, section: string)
    ensures Resolve(store, moduleName, section).source == Defaults <==>
              NamespacedKey(moduleName, section) !in store && section !in store
  {
  }
}
