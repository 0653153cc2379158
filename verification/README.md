# qdb data-access layer, modelled in Dafny

`qdb` is a thin layer over GORM. `NewDb(section)` reads a database section
from the configuration, parses its connection string
(`<kind>|<param>`, with sqlite's `<param>` being `<file>&<journalMode>`),
maps its switches onto GORM options and opens a session, panicking on any
setup failure. `Dao[T]` wraps that session with CRUD, batch and query
operations over an entity with an `Id` (uint64 key) and a `LastTime` audit
stamp, which every single-record write fills in when it is still at the
zero time `0001-01-01 00:00:00`.

The model keeps only the decisions this layer makes itself:

- `GoStrings` — Go's `strings.Split` for a one-character separator, with
  the proof that it is inverted by `Join` in both directions and lemmas that
  pick out the first pieces of a string built from known parts.
- `Settings` — the section (`Setting`, `EngineConfig`), the built-in
  defaults, what the JSON round trip of a stored value yields, and the
  lookup order `<module>.<section>`, then `<section>`, then the defaults.
- `Connection` — backend names, GORM option mapping, the sqlite branch
  (file, journal-mode pragma), DSN construction, and `NewDb` as a total
  function whose panics are `Panic(reason)` values and whose nil return is
  `NilDb`. Path resolution, directory creation and `gorm.Open` are the
  three functions of a `Host` parameter.
- `Dao` — the stamping rule, the result classification of every `Dao`
  operation given the backend's answer (error, affected rows, rows), the
  in-order, stop-at-first-failure loop of the `*List` transactions, and
  `NewDao`'s provision-or-nil rule. The backend is a function from what is
  sent (a record, a filter or a query) to its answer; the clock is a `now`
  parameter.

Facts about the code that the model keeps exactly:

- Single-row reads and `CheckExist` test `RowsAffected == 0`, so a model is
  returned for any non-zero row count.
- In `GetList`, `GetAll`, `GetConditions` and `GetConditionsLimit` the
  "error or no row" branch returns exactly what the other branch returns:
  the list and the backend's error, always.
- `UpdateList` checks only the driver error of each element; unlike
  `Update` it does not report an element that changed no row.
- A stored section whose JSON encoding fails is not an error: the zero
  section is used, and its empty connection string then panics with
  "unknown db type".
- `GetCount` never looks at the backend's error and returns whatever count
  the backend reported.
- The sqlite journal mode is passed to the pragma verbatim; it is not
  checked against `DELETE`/`MEMORY`/`WAL`/`OFF`.

## Model

| member | source | states |
|---|---|---|
| GoStrings.Split | database.go:109 | `strings.Split`: one piece more than separators, no piece contains the separator |
| GoStrings.JoinSplit | database.go:109 | joining the pieces of a split restores the string |
| GoStrings.SplitJoin | database.go:109 | splitting a join of separator-free pieces restores the pieces |
| GoStrings.SplitAtFirst | database.go:109 | the first piece is the text before the first separator, the rest is the split of what follows it |
| GoStrings.FirstTwoPieces | database.go:109-116 | piece 0 and piece 1 of a string built from two separator-free parts are exactly those parts; anything after a second separator is ignored |
| Settings.NamespacedKey | database.go:55 | the namespaced key is `<module>.<section>`, recoverable from its parts |
| Settings.Decode | database.go:81-97 | a decode failure yields no section (nil result); an encode failure leaves the zero section; otherwise the stored section |
| Settings.Resolve | database.go:53-98 | `<module>.<section>` first, then `<section>`, then the defaults (sqlite file `./db/data.db`, mode `OFF`), SkipDefaultTransaction and NoLowerCase true, OpenLog false |
| Settings.NamespacedShadowsBare | database.go:55-58 | when the namespaced key is present, adding, changing or removing the bare key changes nothing |
| Settings.DefaultsOnlyWhenAbsent | database.go:56-62 | the defaults are used if and only if both keys are absent |
| Connection.ParseKind | database.go:114-152 | the four backend names are matched exactly; any other text selects nothing |
| Connection.KindNameRoundTrip | database.go:114-152 | each backend's name selects that backend |
| Connection.GormOptions | database.go:99-108 | singular table names always; NoLowerCase and SkipDefaultTransaction copied; Info logger if and only if OpenLog |
| Connection.GormOptionsInjective | database.go:99-108 | the switches can be read back from the GORM options, so none is lost |
| Connection.OpenSqlite | database.go:116-133 | the sqlite session opens the resolved path of the first `&`-piece only after creating its directory and opening it; a failed directory creation is fatal; never nil |
| Connection.Connect | database.go:99-156 | a session is only produced for a string that starts with its backend's name followed by the bar separator, with the section's GORM options, by a successful open (and, for sqlite, directory creation); only sqlite runs a pragma |
| Connection.NewDb | database.go:48-156 | no base configuration panics; nil exactly when the chosen entry fails to decode; a decodable namespaced entry is connected, else a decodable bare entry, else the defaults |
| Connection.NewDbIgnoresBareEntry | database.go:55-58 | with a namespaced entry present, adding, changing or removing the bare entry does not change `NewDb`'s outcome |
| Connection.NewDbUsesBareEntry | database.go:55-97 | without a namespaced entry, a decodable bare entry is connected, an undecodable one gives nil, an unencodable one panics with "unknown db type" |
| Connection.UnknownKindIsFatal | database.go:109-155 | any text before the first bar separator that is not an exact backend name, the empty one included, panics with "unknown db type" |
| Connection.MissingBarIsFatal | database.go:109-148 | a backend name with no bar separator panics with index out of range whatever the host does |
| Connection.ServerConnectString | database.go:134-151 | sqlserver's DSN is `sqlserver://` + parameter, mysql's and postgres's the parameter itself, `&` not split, no pragma |
| Connection.SqliteParameter | database.go:116-133 | the file is the first `&`-piece, the mode the second; directory-creation and open failures are fatal; otherwise pragma `PRAGMA journal_mode = <mode>;` if and only if the mode is non-empty |
| Connection.SqliteConnectString | database.go:109-133 | a full sqlite connection string with file and mode panics if the directory cannot be created or the file opened, and otherwise opens that file with that mode's pragma, or none for an empty mode |
| Connection.SqliteMissingAmpersand | database.go:116-131 | without `&`, directory and open failures are reported first, otherwise the missing mode panics with index out of range |
| Connection.DefaultConnectString | database.go:60-133 | the default connection string opens `./db/data.db` with journal mode `OFF`, or panics on a directory or open failure |
| Connection.DefaultsOpenSqlite | database.go:56-133 | with no section configured, `NewDb` opens `./db/data.db`, mode `OFF`, singular, no lower-casing, no default transaction, GORM's own logger, or panics on a directory or open failure |
| Connection.EncodeFailureIsUnknownType | database.go:90-155 | an entry whose encoding fails leaves the zero section, which panics with "unknown db type" |
| Dao.Stamp | database.go:198-201 | LastTime becomes `now` only when it is the zero rendering; key and other fields never change |
| Dao.StampIdempotent | database.go:198-201 | stamping twice with one clock equals stamping once |
| Dao.StampSetsTime | database.go:198-201 | with a real clock, a stamped record never has the zero LastTime |
| Dao.Create | database.go:197-205 | the stamped caller's record is what is inserted, and that insert decides the error |
| Dao.Save | database.go:260-268 | the stamped caller's record is what is upserted, and that upsert decides the error |
| Dao.Update | database.go:226-240 | success if and only if rows were affected (even with a driver error); otherwise the driver error, else "update record does not exist" |
| Dao.WritesSubmitStamped | database.go:197-268 | Create, Save and Update send the backend the caller's record with only LastTime replaced, never unset |
| Dao.ToInt64 | database.go:329 | the page offset is the uint64 start reinterpreted as a signed 64-bit int; it is negative exactly for starts of 2^63 and above |
| Dao.ReadOne | database.go:304-309 | a model is returned if and only if there is no error and a non-zero row count; the error is passed through |
| Dao.ReadMany | database.go:329-333 | list reads return the rows and the backend error whatever the row count |
| Dao.GetModel | database.go:300-310 | (absent, error) on error, (absent, none) for no row, (model, none) otherwise |
| Dao.CheckExist | database.go:313-323 | true if and only if the key lookup has no error and a non-zero row count |
| Dao.CheckExistMatchesGetModel | database.go:300-323 | CheckExist is true exactly when GetModel returns a model |
| Dao.GetList | database.go:326-334 | the query carries limit `maxCount` and the converted offset; rows and error are passed through |
| Dao.GetAll | database.go:337-345 | an unfiltered, unlimited query; rows and error are passed through |
| Dao.GetCondition | database.go:348-356 | the first row for the condition, absent without error when none matches |
| Dao.GetConditions | database.go:359-367 | an unlimited conditional query; rows and error are passed through |
| Dao.LimitedQuery | database.go:373-383 | a limit is attached if and only if `maxCount > 0`, and then it is `maxCount` |
| Dao.GetConditionsLimit | database.go:370-385 | rows and error of the possibly limited conditional query |
| Dao.UnboundedLimitIsConditions | database.go:370-385 | with `maxCount <= 0` the result equals GetConditions |
| Dao.GetCount | database.go:388-395 | the reported count, whatever the error |
| Dao.GetCountIgnoresError | database.go:388-395 | backends reporting the same count give the same result, whatever their errors and row counts |
| Dao.Delete | database.go:288-291 | only the driver error is returned, so deleting an absent key succeeds |
| Dao.DeleteCondition | database.go:294-297 | only the driver error is returned |
| Dao.MissingRowAsymmetry | database.go:226-310 | the same error-free zero-row answer is "does not exist" for Update but success for Delete and absence without error for GetModel |
| Dao.RunTransaction | database.go:210-222 | a failed start is returned before any element is submitted; otherwise the loop's first failure, or the commit's error when every element succeeds |
| Dao.RunBatch | database.go:210-222 | elements are submitted in order; the result is the first failure's error after exactly that many submissions, or none after all of them |
| Dao.CreateList | database.go:208-223 | a failed transaction start is returned; otherwise no error if and only if every insert and the commit succeed; the first failing insert's error wins; with all inserts good, the commit's error |
| Dao.UpdateList | database.go:243-257 | as CreateList for updates; only driver errors count, affected-row counts are ignored |
| Dao.SaveList | database.go:271-285 | as CreateList for upserts |
| Dao.NewDao | database.go:178-189 | an existing table is not migrated; a missing one is, and a failed migration yields no object |

## Left out

- SQL execution (`gorm.Open`, `Create`, `Updates`, `Save`, `Find`, `Count`, `Delete`, `Exec`) is the backend's behaviour: its answers are inputs, so upsert semantics, zero-field skipping, row order, pagination coverage and count consistency are not modelled.
- Transaction atomicity of the `*List` variants is GORM's: the model gives the error that makes the transaction roll back, not the rows left in the database. The transaction wrapper is taken to return its start error, else the callback's error, else its commit error (`TxEnds`); GORM's handling of a panicking callback and of nested transactions is not modelled.
- CreateList: whether each per-iteration copy is stamped before the insert is not modelled, because the copy is handed to a reflective helper whose behaviour on a non-pointer value is not part of this model; the backend sees the caller's element.
- UpdateList: same omission as CreateList for the stamping of the per-iteration copy.
- SaveList: same omission as CreateList for the stamping of the per-iteration copy.
- Dao.Create: the backend's write-back into the caller's record (such as an engine-assigned `Id`) is not modelled; `submitted` is the stamped record handed to the backend, not the record the caller holds afterwards.
- Dao.Save: same write-back omission as Dao.Create.
- Dao.Update: same write-back omission as Dao.Create.
- Dao.ToInt64: models Go's `int` as 64 bits; on a 32-bit platform `int(startId)` truncates to 32 bits instead.
- Table-name derivation, `HasTable` and `AutoMigrate` in `NewDao` are foreign calls; their outcomes are parameters.
- viper lookups are a map from flat keys; viper's case-insensitive, dot-nested key handling is not modelled.
- Generating and writing the default configuration block (`qconfig.ToYAML`, `TrySave`) is file I/O and is left out; `Resolve` only reports that the defaults were used.
- JSON encoding and decoding are summarised by `Stored`: the decoded section, an encode failure, or a decode failure.
- `qio.GetFullPath` and `qio.CreateDirectory` are the `fullPath` and `createDirectory` functions of `Host`; `time.Now` and `qtime` formatting are replaced by a `now` value in its rendered form.
- The journal-mode pragma's own result is ignored by the code and not modelled.
- The module name comes from the global base configuration; the model takes it as an `Option` parameter (`None` when none was set). `SetBaseConfig` and `DB()` are plain accessors.
- setting.go is not part of this model: its only logic is a default config-file path overridable from the command line, and its default section equals the one in `Settings`.
