/** `NewDb`: from a configuration section to a plan for opening a GORM
    session, with every panic of the Go code turned into a `Panic` value.
    The file-system and driver calls it makes are supplied by a `Host`. */
module Connection {
  import opened Wrappers
  import opened GoStrings
  import opened Settings

  /** The four backends the connection string can name. */
  datatype Kind = Sqlite | SqlServer | MySql | Postgres

  /** The exact, case-sensitive name of each backend. */
  function KindName(k: Kind): string {
    match k
    case Sqlite => "sqlite"
    case SqlServer => "sqlserver"
    case MySql => "mysql"
    case Postgres => "postgres"
  }

  /** The backend a name selects, if any: matching is exact. */
  function ParseKind(name: string): (k: Option<Kind>)
    ensures k.Some? ==> KindName(k.value) == name
    ensures k.None? ==> forall other: Kind :: KindName(other) != name
  {
    if name == "sqlite" then Some(Sqlite)
    else if name == "sqlserver" then Some(SqlServer)
    else if name == "mysql" then Some(MySql)
    else if name == "postgres" then Some(Postgres)
    else None
  }

  /** Every backend name is recognised as that backend. */
  lemma KindNameRoundTrip(k: Kind)
    ensures ParseKind(KindName(k)) == Some(k)
  {
  }

  /** GORM's logger: its own default, or the default switched to Info. */
  datatype Logger = GormDefault | InfoLevel

  /** The naming-strategy part of the GORM configuration. */
  datatype NamingStrategy = NamingStrategy(singularTable: bool, noLowerCase: bool)

  /** The GORM options `NewDb` builds. */
  datatype GormConfig = GormConfig(
    naming: NamingStrategy,
    skipDefaultTransaction: bool,
    logger: Logger)

  /** The GORM options a section's switches produce. */
  function GormOptions(c: EngineConfig): (g: GormConfig)
    ensures g.naming.singularTable
    ensures g.naming.noLowerCase == c.noLowerCase
    ensures g.skipDefaultTransaction == c.skipDefaultTransaction
    ensures g.logger == InfoLevel <==> c.openLog
  {
    GormConfig(
      NamingStrategy(true, c.noLowerCase),
      c.skipDefaultTransaction,
      if c.openLog then InfoLevel else GormDefault)
  }

  /** The switches a GORM configuration was built from. */
  function SwitchesOf(g: GormConfig): EngineConfig {
    EngineConfig(g.logger == InfoLevel, g.skipDefaultTransaction, g.naming.noLowerCase)
  }

  /** No switch is lost in the mapping: distinct sections give distinct
      GORM options. */
  lemma GormOptionsInjective(c: EngineConfig)
    ensures SwitchesOf(GormOptions(c)) == c
  {
  }

  /** The calls `NewDb` makes outside this package: path resolution,
      directory creation (true on success) and opening a driver with a DSN
      (true on success). */
  datatype Host = Host(
    fullPath: string -> string,
    createDirectory: string -> bool,
    open: (Kind, string) -> bool)

  /** An opened session: which driver, with which DSN (for sqlite, the
      resolved file path), the journal-mode statement run right after
      opening, and the GORM options. */
  datatype ConnectionPlan = ConnectionPlan(
    kind: Kind,
    dsn: string,
    pragma: Option<string>,
    config: GormConfig)

  /** The reasons `NewDb` panics. */
  datatype Fatal =
    | BaseConfigNotSet
    | UnknownDbType
    | IndexOutOfRange
    | CreateDirectoryFailed(path: string)
    | OpenFailed(kind: Kind, dsn: string)

  /** What `NewDb` ends with: a session, a nil result, or a panic. */
  datatype Outcome = Db(plan: ConnectionPlan) | NilDb | Panic(reason: Fatal)

  /** The scheme prefixed to a sqlserver DSN. */
  const SqlServerScheme: string := "sqlserver://"

  /** The statement that sets sqlite's journal mode. */
  function JournalPragma(mode: string): string {
    "PRAGMA journal_mode = " + mode + ";"
  }

  /** The sqlite branch, given the text after the first `|`: the file is the
      first `&`-piece, the journal mode the second. The directory is created
      and the file opened before the mode is looked at. */
  function OpenSqlite(param: string, config: GormConfig, host: Host): (r: Outcome)
    ensures r.Db? ==> r.plan.kind == Sqlite && r.plan.config == config
    ensures r.Db? ==> r.plan.dsn == host.fullPath(Split(param, '&')[0])
    ensures r.Db? ==> host.createDirectory(r.plan.dsn) && host.open(Sqlite, r.plan.dsn)
    ensures r.Panic? ==> r.reason.CreateDirectoryFailed? || r.reason.OpenFailed? || r.reason == IndexOutOfRange
    ensures !host.createDirectory(host.fullPath(Split(param, '&')[0])) ==>
              r == Panic(CreateDirectoryFailed(host.fullPath(Split(param, '&')[0])))
    ensures !r.NilDb?
  {
    var pieces := Split(param, '&');
    var file := host.fullPath(pieces[0]);
    if !host.createDirectory(file) then Panic(CreateDirectoryFailed(file))
    else if !host.open(Sqlite, file) then Panic(OpenFailed(Sqlite, file))
    else if |pieces| < 2 then Panic(IndexOutOfRange)
    else
      var mode := pieces[1];
      Db(ConnectionPlan(Sqlite, file, if mode != "" then Some(JournalPragma(mode)) else None, config))
  }

  /** The DSN of a client/server backend, given the text after the first `|`. */
  function ServerDsn(k: Kind, param: string): string
    requires k != Sqlite
  {
    if k == SqlServer then SqlServerScheme + param else param
  }

  /** Open the session a section describes. */
  function Connect(s: Setting, host: Host): (r: Outcome)
    ensures !r.NilDb?
    ensures r.Db? ==> r.plan.config == GormOptions(s.config)
    ensures r.Db? ==> host.open(r.plan.kind, r.plan.dsn)
    ensures r.Db? && r.plan.kind == Sqlite ==> host.createDirectory(r.plan.dsn)
    ensures r.Db? ==> r.plan.pragma.Some? ==> r.plan.kind == Sqlite
    ensures r.Db? ==> |KindName(r.plan.kind)| < |s.connect|
                      && s.connect[..|KindName(r.plan.kind)| + 1] == KindName(r.plan.kind) + "|"
  {
    var config := GormOptions(s.config);
    var sp := Split(s.connect, '|');
    match ParseKind(sp[0])
    case None => Panic(UnknownDbType)
    case Some(k) =>
      if |sp| < 2 then Panic(IndexOutOfRange)
      else
        JoinSplit(s.connect, '|');
        assert s.connect == sp[0] + "|" + Join(sp[1..], '|');
        if k == Sqlite then OpenSqlite(sp[1], config, host)
        else
          var dsn := ServerDsn(k, sp[1]);
          if host.open(k, dsn) then Db(ConnectionPlan(k, dsn, None, config))
          else Panic(OpenFailed(k, dsn))
  }

  /** `NewDb(section)` for a program whose module name is `moduleName` (`None`
      when no base configuration was registered). */
  function NewDb(moduleName: Option<string>, store: map<string, Stored>, section: string, host: Host): (r: Outcome)
    ensures moduleName.None? ==> r == Panic(BaseConfigNotSet)
    ensures r.NilDb? <==> moduleName.Some? && Resolve(store, moduleName.value, section).setting.None?
    ensures moduleName.Some? && NamespacedKey(moduleName.value, section) in store
            && store[NamespacedKey(moduleName.value, section)].Decodes? ==>
              r == Connect(store[NamespacedKey(moduleName.value, section)].setting, host)
    ensures moduleName.Some? && NamespacedKey(moduleName.value, section) !in store
            && section in store && store[section].Decodes? ==>
              r == Connect(store[section].setting, host)
    ensures moduleName.Some? && NamespacedKey(moduleName.value, section) !in store
            && section !in store ==>
              r == Connect(DefaultSetting, host)
  {
    match moduleName
    case None => Panic(BaseConfigNotSet)
    case Some(name) =>
      match Resolve(store, name, section).setting
      case None => NilDb
      case Some(s) => Connect(s, host)
  }

  /** The name before the first `|` (the whole string if there is none)
      selects the backend; any other name, the empty one and names that
      differ only in letter case included, is fatal. */
  lemma UnknownKindIsFatal(s: Setting, host: Host, name: string, tail: string)
    requires s.connect == name + tail
    requires '|' !in name && StartsPiece(tail, '|')
    requires forall k: Kind :: KindName(k) != name
    ensures Connect(s, host) == Panic(UnknownDbType)
  {
    SplitHead(name, '|', tail);
  }

  /** A recognised backend name with no `|` after it is fatal, whatever the
      host would have done. */
  lemma MissingBarIsFatal(s: Setting, host: Host, k: Kind)
    requires s.connect == KindName(k)
    ensures Connect(s, host) == Panic(IndexOutOfRange)
  {
    SplitNoSeparator(s.connect, '|');
  }

  /** Client/server backends: the parameter is the text between the first
      and the second `|` (anything after a second `|` is dropped), `&` is not
      split, sqlserver gets the `sqlserver://` scheme and the others use the
      parameter unchanged; no pragma is run. */
  lemma ServerConnectString(s: Setting, host: Host, k: Kind, param: string, tail: string)
    requires k != Sqlite
    requires s.connect == KindName(k) + "|" + param + tail
    requires '|' !in param && StartsPiece(tail, '|')
    ensures var dsn := if k == SqlServer then "sqlserver://" + param else param;
            Connect(s, host) ==
              if host.open(k, dsn) then Db(ConnectionPlan(k, dsn, None, GormOptions(s.config)))
              else Panic(OpenFailed(k, dsn))
  {
    FirstTwoPieces(KindName(k), '|', param, tail);
  }

  /** The sqlite branch reads the file and the journal mode from the first
      two `&`-pieces of its parameter; creating the file's directory and
      opening the file come first, and either failure is fatal. */
  lemma SqliteParameter(param: string, config: GormConfig, host: Host, file: string, mode: string, rest: string)
    requires param == file + "&" + mode + rest
    requires '&' !in file && '&' !in mode && StartsPiece(rest, '&')
    ensures var path := host.fullPath(file);
            OpenSqlite(param, config, host) ==
              if !host.createDirectory(path) then Panic(CreateDirectoryFailed(path))
              else if !host.open(Sqlite, path) then Panic(OpenFailed(Sqlite, path))
              else Db(ConnectionPlan(
                        Sqlite,
                        path,
                        if mode != "" then Some("PRAGMA journal_mode = " + mode + ";") else None,
                        config))
  {
    FirstTwoPieces(file, '&', mode, rest);
  }

  /** Sqlite: the file is the first `&`-piece of the parameter and the mode
      the second; a failure to create the directory or to open the file is
      fatal; otherwise the pragma is run exactly when the mode is non-empty,
      with the mode copied verbatim. */
  lemma SqliteConnectString(s: Setting, host: Host, file: string, mode: string, rest: string, tail: string)
    requires s.connect == "sqlite|" + file + "&" + mode + rest + tail
    requires '|' !in file && '|' !in mode && '|' !in rest && StartsPiece(tail, '|')
    requires '&' !in file && '&' !in mode && StartsPiece(rest, '&')
    ensures var path := host.fullPath(file);
            Connect(s, host) ==
              if !host.createDirectory(path) then Panic(CreateDirectoryFailed(path))
              else if !host.open(Sqlite, path) then Panic(OpenFailed(Sqlite, path))
              else Db(ConnectionPlan(
                        Sqlite,
                        path,
                        if mode != "" then Some("PRAGMA journal_mode = " + mode + ";") else None,
                        GormOptions(s.config)))
  {
    var param := file + "&" + mode + rest;
    assert '|' !in param;
    assert s.connect == "sqlite" + "|" + param + tail;
    FirstTwoPieces("sqlite", '|', param, tail);
    SqliteParameter(param, GormOptions(s.config), host, file, mode, rest);
  }

  /** Sqlite without `&`: the directory is created and the file opened
      first, so a failure there is reported; otherwise the missing journal
      mode is fatal. */
  lemma SqliteMissingAmpersand(s: Setting, host: Host, param: string, tail: string)
    requires s.connect == "sqlite|" + param + tail
    requires '|' !in param && '&' !in param && StartsPiece(tail, '|')
    ensures var file := host.fullPath(param);
            Connect(s, host) ==
              if !host.createDirectory(file) then Panic(CreateDirectoryFailed(file))
              else if !host.open(Sqlite, file) then Panic(OpenFailed(Sqlite, file))
              else Panic(IndexOutOfRange)
  {
    assert s.connect == "sqlite" + "|" + param + tail;
    FirstTwoPieces("sqlite", '|', param, tail);
    SplitNoSeparator(param, '&');
  }

  /** The built-in connection string names the sqlite file `./db/data.db`
      with journal mode `OFF`. */
  lemma DefaultConnectString(s: Setting, host: Host)
    requires s == DefaultSetting
    ensures var path := host.fullPath("./db/data.db");
            Connect(s, host) ==
              if !host.createDirectory(path) then Panic(CreateDirectoryFailed(path))
              else if !host.open(Sqlite, path) then Panic(OpenFailed(Sqlite, path))
              else Db(ConnectionPlan(Sqlite, path, Some(JournalPragma("OFF")), GormOptions(s.config)))
  {
    var file, mode := "./db/data.db", "OFF";
    assert '|' !in file && '&' !in file;
    assert '|' !in mode && '&' !in mode;
    assert s.connect == "sqlite|" + file + "&" + mode + "" + "";
    SqliteConnectString(s, host, file, mode, "", "");
  }

  /** With no section in the configuration, the built-in one opens the
      sqlite file `./db/data.db` with journal mode `OFF`, singular table
      names, no lower-casing, no default transaction and GORM's own logger;
      a failure to create its directory or open it is fatal. */
  lemma DefaultsOpenSqlite(moduleName: string, store: map<string, Stored>, section: string, host: Host)
    requires NamespacedKey(moduleName, section) !in store && section !in store
    ensures var path := host.fullPath("./db/data.db");
            NewDb(Some(moduleName), store, section, host) ==
              if !host.createDirectory(path) then Panic(CreateDirectoryFailed(path))
              else if !host.open(Sqlite, path) then Panic(OpenFailed(Sqlite, path))
              else Db(ConnectionPlan(
                        Sqlite,
                        path,
                        Some(JournalPragma("OFF")),
                        GormConfig(NamingStrategy(true, true), true, GormDefault)))
  {
    DefaultConnectString(DefaultSetting, host);
  }

  /** A stored section that cannot be re-encoded leaves the zero section,
      whose empty connection string names no backend. */
  lemma EncodeFailureIsUnknownType(moduleName: string, store: map<string, Stored>, section: string, host: Host)
    requires NamespacedKey(moduleName, section) in store
    requires store[NamespacedKey(moduleName, section)] == EncodeFails
    ensures NewDb(Some(moduleName), store, section, host) == Panic(UnknownDbType)
  {
    UnknownKindIsFatal(ZeroSetting, host, "", "");
  }

  /** When the namespaced entry exists, `NewDb` does not depend on the bare
      entry: adding, changing or removing it leaves the outcome unchanged. */
  lemma NewDbIgnoresBareEntry(moduleName: string, store: map<string, Stored>, section: string, bare: Stored, host: Host)
    requires NamespacedKey(moduleName, section) in store
    ensures NewDb(Some(moduleName), store[section := bare], section, host) == NewDb(Some(moduleName), store, section, host)
    ensures NewDb(Some(moduleName), store - {section}, section, host) == NewDb(Some(moduleName), store, section, host)
  {
    NamespacedShadowsBare(store, moduleName, section, bare);
  }

  /** Without a namespaced entry, a bare entry that decodes is the section
      connected, and one that fails to decode makes `NewDb` return nil; the
      defaults are not consulted in either case. */
  lemma NewDbUsesBareEntry(moduleName: string, store: map<string, Stored>, section: string, bare: Stored, host: Host)
    requires NamespacedKey(moduleName, section) !in store
    ensures var r := NewDb(Some(moduleName), store[section := bare], section, host);
            && (bare.Decodes? ==> r == Connect(bare.setting, host))
            && (bare.DecodeFails? ==> r == NilDb)
            && (bare.EncodeFails? ==> r == Panic(UnknownDbType))
  {
    var key := NamespacedKey(moduleName, section);
    assert key != section;
    assert key !in store[section := bare];
    if bare.EncodeFails? {
      UnknownKindIsFatal(ZeroSetting, host, "", "");
    }
  }
}
