# prm-backup-job, modelled in Dafny

This project models the decision logic of the `prm-backup-job` backup script.
`backup.js` picks the configuration file: `PRM_BACKUP_CONFIG_PATH` if it is set to a non-empty string, else the one command-line argument.
It loads the JSON configuration and builds a `PRMBackupHandler`.
The handler's constructor validates the configuration by JavaScript truthiness before storing it.
`backup()` then lists `config.BACKUP_FILES_PATH` and zips every entry into a file of the same path plus `.zip`.
It calls the success callback once every per-file handler has succeeded.

The file system, the zip library and the JSON loader are not modelled.
They are replaced by the answers they give:
- a `Listing` (an error, or the entry names);
- a per-path `HandleOutcome` (the handler finished, or it threw);
- a `load` function (the parsed configuration, or `None` when reading or parsing throws).

Files and modules:
- `results.dfy` (`Results`): `Option` and `Result`.
- `js_values.dfy` (`JsValues`): JavaScript values, `Truthy` (ToBoolean, section 7.1.2 of ECMA-262), the entries a `for...in` loop visits, and property access.
- `config_validation.dfy` (`ConfigValidation`): `validateConfig` and the constructor.
- `backup_run.dfy` (`BackupRun`): `handleFile` archive naming and the `backup` fan-in.
- `entry_point.dfy` (`EntryPoint`): `backup.js`.

Assumption: `path.join(dir, name)` is modelled as `dir + "/" + name`.

Facts about the code that the model makes explicit:
- `backup` does not filter directory entries. Subdirectories are handed to `handleFile` like files.
- Each entry gets its own archive, written next to it as the entry's path plus `.zip`.
- An empty directory is an ordinary success: the callback is reached.
- Validation checks only that every value present is truthy. It requires no field to be present, and it rejects `0` and `false`.
- `backup.js` starts the backup without a success callback (see "## Findings").

## Model

| member | source | states |
|---|---|---|
| JsValues.Truthy | PRMBackupHandler.js:19 | A value fails `!v` exactly when it is one of `undefined`, `null`, `false`, `NaN`, `0`, `0n`, `""`. The per-type definition is proved equal to this explicit list. |
| JsValues.Get | PRMBackupHandler.js:32 | `config.BACKUP_FILES_PATH` is the value of the first property of that name when one exists. It is `undefined` when the object has no such property or the config is not an object. |
| JsValues.EnumerableEntries | PRMBackupHandler.js:17-18 | `for (const k in config)` visits an object's property names in order, an array's or string's indices 0 to length-1, and nothing for any other value. |
| JsValues.EntriesReadBack | PRMBackupHandler.js:17-18 | Each visited pair is a key together with `config[k]`: for an object with distinct names, a property, and for an array or string, the element or character at that index. |
| ConfigValidation.FirstFalsy | PRMBackupHandler.js:17-21 | The loop throws iff some value is falsy. When it throws, it stops at the first falsy entry in iteration order. |
| ConfigValidation.Validate | PRMBackupHandler.js:12-23 | A falsy config gives "Config is required" before any key is read. Otherwise the config is accepted iff every enumerated value is truthy, so `{}` is accepted. On rejection the error carries the key and value of the first falsy entry. |
| ConfigValidation.NewHandler | PRMBackupHandler.js:7-10 | A handler exists iff validation passes, and it holds the config unchanged. A rejected config yields validation's own error and no handler. |
| ConfigValidation.FirstFalsyIgnoresSuffix | PRMBackupHandler.js:17-20 | Once the entries visited so far contain a falsy value, appending any further entries does not change where the loop stops. |
| ConfigValidation.LaterKeysIrrelevant | PRMBackupHandler.js:17-20 | For an object config with a falsy value among its leading properties, the properties after them never change the outcome, and the config is rejected. |
| ConfigValidation.FalsyValueRejects | PRMBackupHandler.js:19-20 | Any single falsy value anywhere rejects an object config. If every property before it is truthy, the error names that property and value. |
| ConfigValidation.ValidationIsShallow | PRMBackupHandler.js:17-20 | A nested object or array setting is treated like `true`, whatever it contains. |
| ConfigValidation.TruthyPrimitiveAccepted | PRMBackupHandler.js:13-22 | A truthy non-object config (non-empty string, non-zero number, `true`) passes: a string's characters are all truthy and other primitives have no keys. |
| ConfigValidation.ObjectOfTruthyValuesAccepted | PRMBackupHandler.js:17-22 | An object whose values are all truthy is accepted. The empty object `{}` is accepted vacuously. |
| BackupRun.JoinPath | PRMBackupHandler.js:37 | The file path is the directory, one `/`, then the entry name, each recoverable from its position. |
| BackupRun.JoinInjective | PRMBackupHandler.js:37 | Joining two different entry names to the same directory gives two different file paths. |
| BackupRun.ArchivePath | PRMBackupHandler.js:28 | The archive name starts with the whole file path and ends with `.zip`, with nothing in between. |
| BackupRun.ArchiveRoundTrip | PRMBackupHandler.js:28 | Stripping `.zip` from an archive name recovers exactly the file path it was formed from. A name strips to a path iff it is that path plus `.zip`. |
| BackupRun.Archives | PRMBackupHandler.js:36-39 | The archives written are exactly `p + ".zip"` for each handled path `p` whose handler did not throw. Every path is archived iff every handler succeeded. |
| BackupRun.BackupDirectory | PRMBackupHandler.js:32 | The listed directory is `config.BACKUP_FILES_PATH` exactly when that is a string without a NUL character. Any other value gives none, as `fs.readdir` throws on it. |
| BackupRun.RunListing | PRMBackupHandler.js:32-43 | A listing error handles nothing and never reaches the callback. Otherwise every entry yields exactly one path, `join(dir, name)`, in order and without filtering. The continuation runs iff every handler succeeded, and the run is rejected iff one threw. |
| BackupRun.Backup | PRMBackupHandler.js:31-45 | A directory setting that is not a usable path stops the run before listing. Otherwise the run is the listing run on that directory, and the callback is reached only after a successful listing. |
| BackupRun.CallbackAsWritten | PRMBackupHandler.js:40-42 | The continuation as written: a missing callback throws a TypeError exactly when the fan-in resolved. A provided callback is invoked exactly then. |
| BackupRun.OnSuccess | PRMBackupHandler.js:40-42 | The continuation with an optional callback: it is invoked iff the fan-in resolved and a callback was given, and it never throws. |
| BackupRun.DistinctEntriesDistinctOutputs | PRMBackupHandler.js:28-37 | Distinct entry names give distinct file paths and distinct archive names, so no handler overwrites another's archive. |
| BackupRun.FanInIgnoresOrder | PRMBackupHandler.js:36-42 | Reordering the listing changes neither whether the callback is reached nor which archives are written. |
| BackupRun.OneFailureRejects | PRMBackupHandler.js:36-42 | One throwing handler keeps the callback from running, and every other entry whose handler succeeded is still archived. |
| BackupRun.EmptyListingResolves | PRMBackupHandler.js:36-42 | An empty directory handles nothing, writes nothing and still reaches the callback. |
| EntryPoint.ResolveConfigPath | backup.js:12-18 | A non-empty environment value is the path. Otherwise resolution succeeds iff argv has exactly three elements, and the path is `argv[2]`. Every other case is "Missing argument: config path!". |
| EntryPoint.EnvOverridesArgv | backup.js:12-13 | With a non-empty environment value, the result is that value whatever argv holds. |
| EntryPoint.EmptyEnvIsUnset | backup.js:13 | An empty environment value resolves exactly like an unset one. |
| EntryPoint.Launch | backup.js:12-24 | The script as written. A missing path stops it before anything is loaded, and an unreadable config stops it with that path. A config failing validation stops it with validation's error. A valid config always starts the backup on a handler holding it. The callback step throws a TypeError exactly when the fan-in resolved and is not reached otherwise. |
| EntryPoint.LaunchWithOptionalCallback | backup.js:24 | The script with an optional callback. It fails exactly when the as-written script does, with the same error, and otherwise runs the same backup. The callback is skipped iff the fan-in resolved. |
| EntryPoint.MissingCallbackThrowsAsWritten | backup.js:24 | For any valid config whose directory is usable, and any listing whose handlers all succeed (an empty directory included), the script as written launches and the fan-in resolves. The callback step then throws a TypeError. |
| EntryPoint.LaunchNeverThrowsInCallback | backup.js:24 | For every launched run, the as-written script throws in the callback step iff the fan-in resolved. The optional-callback script runs the same backup, skips the callback iff the fan-in resolved, and never throws or invokes a callback. |

## Left out

- `fs.readdir`, `fs.readFileSync`, `AdmZip.addLocalFile` and `writeZip` are file-system and library I/O. They appear only as the `Listing`, `HandleOutcome` and `load` inputs.
- `JSON.parse` and `dotenv.config()` are foreign parsers. `load` returns the parsed value or signals that reading or parsing threw.
- `path.join` normalisation (`.`, `..`, repeated or trailing separators) is a Node library call. It is modelled as `dir + "/" + name`.
- Promise scheduling and `Promise.all` concurrency are not modelled. The fan-in is "every handler succeeded". Order independence is proved separately.
- An unhandled rejection (from a throwing handler, or from the as-written callback call) affects only the process: a log or exit status. It is recorded as the fan-in or callback outcome and nothing more.
- `console.log` and `console.error` output, including the message on a listing error, is logging only.
- Inherited enumerable keys and the ordering of integer-like keys in `for...in` are left out. Key order is the given property order.
- Duplicate keys in the JSON text are left out. `JSON.parse` keeps the last value. The model assumes each key appears once, and `Get` reads the first match.
- Number precision, Symbols, functions and `document.all` cannot come out of `JSON.parse`. `NaN`, `undefined` and BigInt are modelled only for truthiness.
- A `Buffer` or URL directory setting, which `fs.readdir` also accepts, cannot come out of `JSON.parse`. Any non-string setting is treated as rejected, as is a string containing NUL.
- JsValues.Member: reads only the pairings the loop can produce (a name on an object, an index on an array or string). A numeric name on an array and built-in properties such as `length` read as `undefined`, since `validateConfig` never reads them.
- The exact text of the thrown error messages is not modelled. The errors carry the key and value the messages interpolate.
- BackupRun.Archives: states which archive names are written, not their order or multiplicity. The function does keep listing order.
- BackupRun.RunListing: inherits the same limit for its archives.

## Findings

| source | as written | input that shows it | evidently intended | confidence | as-written member | corrected member |
|---|---|---|---|---|---|---|
| backup.js:24 | `backup()` is called without a callback, but the continuation at PRMBackupHandler.js:41 calls `onSuccessCB()` unconditionally. | A valid config with a readable `BACKUP_FILES_PATH` whose files all zip successfully, e.g. an empty directory. `Promise.all` resolves, and calling `undefined` throws a TypeError, which becomes an unhandled promise rejection. | The callback is optional: a run whose handlers all succeeded ends normally. | high; not executed | EntryPoint.MissingCallbackThrowsAsWritten | EntryPoint.LaunchWithOptionalCallback |
