/** The `backup.js` script: choose the configuration file, load it,
    construct the handler and start one backup without a callback. */
module EntryPoint {
  import opened Results
  import opened JsValues
  import opened ConfigValidation
  import opened BackupRun

  /** The error `backup.js` throws when no configuration path is given. */
  datatype PathError = MissingConfigPath

  /** Why the script stops before `backup` is called. `ConfigUnreadable`
      stands for `fs.readFileSync` or `JSON.parse` throwing. */
  datatype LaunchError =
    | NoConfigPath(pathError: PathError)
    | ConfigUnreadable(path: string)
    | InvalidConfig(configError: ConfigError)

  /** A run that got as far as `backup`: its trace and what the success
      callback step did. */
  datatype JobRun = JobRun(trace: Trace, callback: CallbackStep)

  /** `process.env.PRM_BACKUP_CONFIG_PATH` is used when it is set to a
      non-empty string (an empty string is falsy, like `undefined`). */
  predicate UsableEnv(env: Option<string>)
  {
    env.Some? && env.value != ""
  }

  /** The configuration path: the environment variable when usable, else
      `argv[2]` when argv has exactly three elements, else an error. */
  function ResolveConfigPath(env: Option<string>, argv: seq<string>): (r: Result<string, PathError>)
    ensures r.Success? <==> UsableEnv(env) || |argv| == 3
    ensures r.Success? && UsableEnv(env) ==> r.value == env.value
    ensures r.Success? && !UsableEnv(env) ==> r.value == argv[2]
    ensures r.Failure? ==> r.error == MissingConfigPath
  {
    if UsableEnv(env) then Success(env.value)
    else if |argv| != 3 then Failure(MissingConfigPath)
    else Success(argv[2])
  }

  /** A usable environment value wins whatever argv holds. */
  lemma EnvOverridesArgv(value: string, argv1: seq<string>, argv2: seq<string>)
    requires value != ""
    ensures ResolveConfigPath(Some(value), argv1) == ResolveConfigPath(Some(value), argv2) == Success(value)
  {
  }

  /** An empty environment value behaves exactly as an unset one. */
  lemma EmptyEnvIsUnset(argv: seq<string>)
    ensures ResolveConfigPath(Some(""), argv) == ResolveConfigPath(None, argv)
  {
  }

  /** The whole script, as written. `load` answers what reading and parsing a
      file gives (`None` when either throws); `listing` and `outcome` answer
      for the file system during the run. The script passes no success
      callback, and the continuation calls it anyway. */
  function Launch(env: Option<string>, argv: seq<string>, load: string -> Option<JsValue>,
                  listing: Listing, outcome: string -> HandleOutcome): (r: Result<JobRun, LaunchError>)
    ensures ResolveConfigPath(env, argv).Failure? ==> r == Failure(NoConfigPath(MissingConfigPath))
    ensures ResolveConfigPath(env, argv).Success? && load(ResolveConfigPath(env, argv).value).None? ==>
      r == Failure(ConfigUnreadable(ResolveConfigPath(env, argv).value))
    ensures ResolveConfigPath(env, argv).Success? && load(ResolveConfigPath(env, argv).value).Some? ==>
      var config := load(ResolveConfigPath(env, argv).value).value;
      && (Validate(config).Failure? ==> r == Failure(InvalidConfig(Validate(config).error)))
      && (Validate(config).Success? ==> r.Success? && r.value.trace == Backup(Handler(config), listing, outcome))
    ensures r.Success? ==>
      r.value.callback == (if r.value.trace.fanIn == Resolved then TypeErrorThrown else NotReached)
  {
    match ResolveConfigPath(env, argv)
    case Failure(e) => Failure(NoConfigPath(e))
    case Success(path) =>
      match load(path)
      case None => Failure(ConfigUnreadable(path))
      case Some(config) =>
        match NewHandler(config)
        case Failure(e) => Failure(InvalidConfig(e))
        case Success(h) =>
          var trace := Backup(h, listing, outcome);
          Success(JobRun(trace, CallbackAsWritten(trace.fanIn, Missing)))
  }

  /** The script with the success callback treated as optional: it stops at
      the same point and runs the same backup, and a run whose handlers all
      succeeded skips the callback instead of throwing. */
  function LaunchWithOptionalCallback(env: Option<string>, argv: seq<string>, load: string -> Option<JsValue>,
                                      listing: Listing, outcome: string -> HandleOutcome): (r: Result<JobRun, LaunchError>)
    ensures r.Failure? <==> Launch(env, argv, load, listing, outcome).Failure?
    ensures r.Failure? ==> r.error == Launch(env, argv, load, listing, outcome).error
    ensures r.Success? ==> r.value.trace == Launch(env, argv, load, listing, outcome).value.trace
    ensures r.Success? ==>
      r.value.callback == (if r.value.trace.fanIn == Resolved then Skipped else NotReached)
  {
    match Launch(env, argv, load, listing, outcome)
    case Failure(e) => Failure(e)
    case Success(run) => Success(JobRun(run.trace, OnSuccess(run.trace.fanIn, Missing)))
  }

  /** The script as written, on any valid configuration whose directory can
      be listed, and a listing whose every handler succeeds (an empty
      directory in particular): the fan-in resolves, and the unconditional
      `onSuccessCB()` on the callback the script left out throws a TypeError. */
  lemma MissingCallbackThrowsAsWritten(env: Option<string>, argv: seq<string>, load: string -> Option<JsValue>,
                                       names: seq<string>, outcome: string -> HandleOutcome)
    requires ResolveConfigPath(env, argv).Success?
    requires load(ResolveConfigPath(env, argv).value).Some?
    requires Validate(load(ResolveConfigPath(env, argv).value).value).Success?
    requires BackupDirectory(load(ResolveConfigPath(env, argv).value).value).Some?
    requires forall i :: 0 <= i < |names| ==>
      outcome(JoinPath(BackupDirectory(load(ResolveConfigPath(env, argv).value).value).value, names[i])) == Handled
    ensures Launch(env, argv, load, Listed(names), outcome).Success?
    ensures Launch(env, argv, load, Listed(names), outcome).value.trace.fanIn == Resolved
    ensures Launch(env, argv, load, Listed(names), outcome).value.callback == TypeErrorThrown
  {
  }

  /** For every launch, the as-written script throws in the callback step
      exactly when the fan-in resolved, and the optional-callback script
      skips the callback in exactly those runs and never throws. */
  lemma LaunchNeverThrowsInCallback(env: Option<string>, argv: seq<string>, load: string -> Option<JsValue>,
                                    listing: Listing, outcome: string -> HandleOutcome)
    requires Launch(env, argv, load, listing, outcome).Success?
    ensures var asWritten := Launch(env, argv, load, listing, outcome).value;
      var corrected := LaunchWithOptionalCallback(env, argv, load, listing, outcome);
      && corrected.Success?
      && corrected.value.trace == asWritten.trace
      && (asWritten.callback == TypeErrorThrown <==> asWritten.trace.fanIn == Resolved)
      && (corrected.value.callback == Skipped <==> asWritten.trace.fanIn == Resolved)
      && corrected.value.callback != TypeErrorThrown
      && corrected.value.callback != Invoked
  {
  }
}
