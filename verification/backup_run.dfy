/** `PRMBackupHandler.handleFile` and `PRMBackupHandler.backup`, with the file
    system and the zip library replaced by the answers they give. */
module BackupRun {
  import opened Results
  import opened JsValues
  import opened ConfigValidation

  /** The configuration key naming the directory to back up. */
  const BackupFilesPathKey: string := "BACKUP_FILES_PATH"

  /** The suffix `handleFile` appends to form the archive name. */
  const ZipSuffix: string := ".zip"

  /** What `fs.readdir` passes to its callback: an error, or the entry names. */
  datatype Listing = ListingError | Listed(names: seq<string>)

  /** Whether `handleFile` returned normally or threw (from `addLocalFile`
      or `writeZip`); an async function that throws yields a rejected promise. */
  datatype HandleOutcome = Handled | Threw

  /** How the run ends:
      - `DirectoryArgumentRejected`: the configured directory is not a string,
        so `fs.readdir` throws before listing anything;
      - `ListingFailed`: the listing callback got an error and only logs it;
      - `Rejected`: some handler threw, so `Promise.all` rejects and its
        continuation never runs;
      - `Resolved`: every handler finished and the continuation runs, which
        is where the success callback is called. */
  datatype FanIn = DirectoryArgumentRejected | ListingFailed | Rejected | Resolved

  /** The observable effect of one run: every path handed to `handleFile`,
      in listing order; every archive written; and how the fan-in ended. */
  datatype Trace = Trace(filePaths: seq<string>, archives: seq<string>, fanIn: FanIn)

  /** The `onSuccessCB` argument of `backup`: a function, or left out. */
  datatype SuccessCallback = Missing | Provided

  /** What happens at the `onSuccessCB()` call in the continuation. */
  datatype CallbackStep = NotReached | Invoked | Skipped | TypeErrorThrown

  /** The continuation as written: it calls `onSuccessCB()` unconditionally,
      so a missing callback raises a TypeError inside the promise chain,
      which nothing catches. */
  function CallbackAsWritten(fanIn: FanIn, cb: SuccessCallback): (s: CallbackStep)
    ensures s == TypeErrorThrown <==> fanIn == Resolved && cb.Missing?
    ensures s == Invoked <==> fanIn == Resolved && cb.Provided?
    ensures s == NotReached <==> fanIn != Resolved
  {
    if fanIn != Resolved then NotReached
    else if cb.Provided? then Invoked
    else TypeErrorThrown
  }

  /** The continuation with the callback treated as optional: a provided
      callback runs exactly when the fan-in resolved, and a missing one is
      skipped instead of throwing. */
  function OnSuccess(fanIn: FanIn, cb: SuccessCallback): (s: CallbackStep)
    ensures s == Invoked <==> fanIn == Resolved && cb.Provided?
    ensures s == Skipped <==> fanIn == Resolved && cb.Missing?
    ensures s == NotReached <==> fanIn != Resolved
    ensures s != TypeErrorThrown
  {
    if fanIn != Resolved then NotReached
    else if cb.Provided? then Invoked
    else Skipped
  }

  /** `path.join(dir, name)`, taken as plain concatenation with one separator
      (Node's normalisation of `.`, `..` and repeated separators is not modelled). */
  function JoinPath(dir: string, name: string): (p: string)
    ensures |p| == |dir| + 1 + |name|
    ensures p[..|dir|] == dir && p[|dir|] == '/' && p[|dir| + 1..] == name
  {
    dir + "/" + name
  }

  /** The archive `handleFile(filePath)` writes. */
  function ArchivePath(filePath: string): (a: string)
    ensures |a| == |filePath| + |ZipSuffix|
    ensures a[..|filePath|] == filePath && a[|filePath|..] == ZipSuffix
  {
    filePath + ZipSuffix
  }

  /** The file an archive name was formed from, if it ends in `.zip`. */
  function ArchiveSource(archive: string): (r: Option<string>)
    ensures r.Some? ==> |r.value| + |ZipSuffix| == |archive|
  {
    if |archive| >= |ZipSuffix| && archive[|archive| - |ZipSuffix|..] == ZipSuffix
    then Some(archive[..|archive| - |ZipSuffix|])
    else None
  }

  predicate AllHandled(paths: seq<string>, outcome: string -> HandleOutcome)
  {
    forall i :: 0 <= i < |paths| ==> outcome(paths[i]) == Handled
  }

  /** The archives written while handling `paths` in order: one per path
      whose handler did not throw. */
  function Archives(paths: seq<string>, outcome: string -> HandleOutcome): (r: seq<string>)
    ensures |r| <= |paths|
    ensures forall a :: a in r <==> exists p :: p in paths && outcome(p) == Handled && a == ArchivePath(p)
    ensures |r| == |paths| <==> AllHandled(paths, outcome)
  {
    if |paths| == 0 then []
    else
      var rest := Archives(paths[1..], outcome);
      assert forall p :: p in paths <==> p == paths[0] || p in paths[1..];
      assert AllHandled(paths, outcome) <==> outcome(paths[0]) == Handled && AllHandled(paths[1..], outcome);
      if outcome(paths[0]) == Handled then [ArchivePath(paths[0])] + rest else rest
  }

  /** The directory `backup` lists: `config.BACKUP_FILES_PATH`, usable only
      when it is a string without a NUL character; `fs.readdir` throws
      synchronously on any other argument. */
  function BackupDirectory(config: JsValue): (r: Option<string>)
    ensures r.Some? <==> Get(config, BackupFilesPathKey).Str? && '\0' !in Get(config, BackupFilesPathKey).s
    ensures r.Some? ==> Get(config, BackupFilesPathKey) == Str(r.value)
  {
    match Get(config, BackupFilesPathKey)
    case Str(dir) => if '\0' in dir then None else Some(dir)
    case _ => None
  }

  /** `backup` once the directory is known: every listed entry is joined to
      the directory and handled, with no filtering; the continuation runs
      exactly when every handler succeeded, including when there were none. */
  function RunListing(dir: string, listing: Listing, outcome: string -> HandleOutcome): (r: Trace)
    ensures listing.ListingError? ==> r == Trace([], [], ListingFailed)
    ensures listing.Listed? ==>
      && |r.filePaths| == |listing.names|
      && forall i :: 0 <= i < |listing.names| ==> r.filePaths[i] == JoinPath(dir, listing.names[i])
    ensures forall a :: a in r.archives <==> exists p :: p in r.filePaths && outcome(p) == Handled && a == ArchivePath(p)
    ensures r.fanIn == Resolved <==> listing.Listed? && AllHandled(r.filePaths, outcome)
    ensures r.fanIn == Rejected <==> listing.Listed? && !AllHandled(r.filePaths, outcome)
  {
    match listing
    case ListingError => Trace([], [], ListingFailed)
    case Listed(names) =>
      var paths := seq(|names|, i requires 0 <= i < |names| => JoinPath(dir, names[i]));
      Trace(paths, Archives(paths, outcome), if AllHandled(paths, outcome) then Resolved else Rejected)
  }

  /** `handler.backup(...)`: a directory setting that is not a usable path
      makes `fs.readdir` throw, so nothing is listed, handled or called back. */
  function Backup(h: Handler, listing: Listing, outcome: string -> HandleOutcome): (r: Trace)
    ensures BackupDirectory(h.config).None? ==> r == Trace([], [], DirectoryArgumentRejected)
    ensures BackupDirectory(h.config).Some? ==> r == RunListing(BackupDirectory(h.config).value, listing, outcome)
    ensures r.fanIn == Resolved ==> listing.Listed? && BackupDirectory(h.config).Some?
  {
    match BackupDirectory(h.config)
    case None => Trace([], [], DirectoryArgumentRejected)
    case Some(dir) => RunListing(dir, listing, outcome)
  }

  /** Stripping the suffix recovers the file, and only names formed by
      `ArchivePath` are recovered. */
  lemma ArchiveRoundTrip(filePath: string, archive: string)
    ensures ArchiveSource(ArchivePath(filePath)) == Some(filePath)
    ensures ArchiveSource(archive) == Some(filePath) <==> archive == ArchivePath(filePath)
  {
  }

  /** Distinct entry names give distinct file paths and distinct archives:
      no two handlers overwrite each other's output. */
  lemma DistinctEntriesDistinctOutputs(dir: string, names: seq<string>, outcome: string -> HandleOutcome)
    requires forall i, j :: 0 <= i < j < |names| ==> names[i] != names[j]
    ensures var t := RunListing(dir, Listed(names), outcome);
      forall i, j :: 0 <= i < j < |t.filePaths| ==>
        t.filePaths[i] != t.filePaths[j] && ArchivePath(t.filePaths[i]) != ArchivePath(t.filePaths[j])
  {
  }

  lemma JoinInjective(dir: string, a: string, b: string)
    ensures JoinPath(dir, a) == JoinPath(dir, b) ==> a == b
  {
  }

  /** The handlers run concurrently and `Promise.all` waits for all of them,
      so the order in which `fs.readdir` lists the entries cannot change
      whether the success callback runs, nor which archives are written. */
  lemma FanInIgnoresOrder(dir: string, a: seq<string>, b: seq<string>, outcome: string -> HandleOutcome)
    requires multiset(a) == multiset(b)
    ensures RunListing(dir, Listed(a), outcome).fanIn == RunListing(dir, Listed(b), outcome).fanIn
    ensures forall x :: x in RunListing(dir, Listed(a), outcome).archives <==> x in RunListing(dir, Listed(b), outcome).archives
  {
    var ta, tb := RunListing(dir, Listed(a), outcome), RunListing(dir, Listed(b), outcome);
    forall p | p in ta.filePaths ensures p in tb.filePaths {
      var i :| 0 <= i < |a| && ta.filePaths[i] == p;
      assert a[i] in multiset(b);
      var j :| 0 <= j < |b| && b[j] == a[i];
      assert tb.filePaths[j] == p;
    }
    forall p | p in tb.filePaths ensures p in ta.filePaths {
      var j :| 0 <= j < |b| && tb.filePaths[j] == p;
      assert b[j] in multiset(a);
      var i :| 0 <= i < |a| && a[i] == b[j];
      assert ta.filePaths[i] == p;
    }
    AllHandledOfSubset(ta.filePaths, tb.filePaths, outcome);
    AllHandledOfSubset(tb.filePaths, ta.filePaths, outcome);
  }

  lemma AllHandledOfSubset(xs: seq<string>, ys: seq<string>, outcome: string -> HandleOutcome)
    requires forall p :: p in xs ==> p in ys
    ensures AllHandled(ys, outcome) ==> AllHandled(xs, outcome)
  {
    if AllHandled(ys, outcome) {
      forall i | 0 <= i < |xs| ensures outcome(xs[i]) == Handled {
        assert xs[i] in ys;
        var j :| 0 <= j < |ys| && ys[j] == xs[i];
      }
    }
  }

  /** An empty directory still reaches the success callback. */
  lemma EmptyListingResolves(dir: string, outcome: string -> HandleOutcome)
    ensures RunListing(dir, Listed([]), outcome) == Trace([], [], Resolved)
  {
  }

  /** A single failing entry is enough to keep the callback from running,
      while the other entries are still handled and archived. */
  lemma OneFailureRejects(dir: string, names: seq<string>, k: int, outcome: string -> HandleOutcome)
    requires 0 <= k < |names| && outcome(JoinPath(dir, names[k])) == Threw
    ensures RunListing(dir, Listed(names), outcome).fanIn == Rejected
    ensures forall i :: 0 <= i < |names| && outcome(JoinPath(dir, names[i])) == Handled ==>
      ArchivePath(JoinPath(dir, names[i])) in RunListing(dir, Listed(names), outcome).archives
  {
  }
}
