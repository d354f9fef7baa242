/**
 * The part of the `nova_act_download` tool that runs after the browser agent
 * has been told to download a file: it lists the directories a browser
 * download may land in, keeps the regular files changed in the last 45
 * seconds, copies the newest of them next to the temporary directory, falls
 * back to a download event when polling found nothing, rejects empty and
 * partial files and describes the upload in a status record.
 *
 * The filesystem, the clock, the copy, the event, the upload and the browser
 * session itself are inputs: the directory listings are given as they stand
 * when the scan runs, and every collaborator that can fail is given as its
 * outcome.
 */
module DownloadDetector {
  import opened Wrappers
  import opened Paths

  /** Seconds within which a file counts as freshly downloaded. */
  const RecencyWindow: int := 45
  const DownloadsSubdir: string := "downloads"
  const FallbackName: string := "downloaded_file"
  const KeyPrefix: string := "downloaded-files/"

  /** One entry of a directory listing: its path as listed, modification time, size, and whether it is a regular file. */
  datatype FsEntry = FsEntry(path: string, mtime: int, size: nat, isFile: bool)

  /** The existing directories, each with what listing its `*` pattern yields, in that order. */
  type Listing = map<string, seq<FsEntry>>

  /** The download's `suggested_filename`: a plain value, or a callable returning a possibly-falsy value. */
  datatype SuggestedName = Attribute(name: string) | Callable(outcome: Option<string>)

  /**
   * What the event fallback yields: nothing (timeout, an error, or an empty
   * event), or a captured download with its suggested name and the size of
   * the file then found at the save path (None if none is there).
   */
  datatype DownloadEvent = NoEvent | Captured(suggested: SuggestedName, savedSize: Option<nat>)

  /** The upload and the presigned URL, as one outcome: the URL, or the `repr` of the error. */
  datatype Upload = Uploaded(url: string) | UploadFailed(repr: string)

  /** Everything outside the tool's own logic, fixed for one call. */
  datatype Environment = Environment(
    importError: Option<string>,      // `str()` of the error importing the agent library
    sessionError: Option<string>,     // `repr()` of an error starting the session or running the instruction
    tempDir: string,                  // the temporary directory, also the copy destination
    playwrightDirs: seq<string>,      // the `playwright-*` directories under it, as listed
    fs: Listing,
    now: int,                         // the one clock reading taken before the scan
    copyError: Option<string>,        // `repr()` of an error copying the newest file
    event: DownloadEvent,
    upload: Upload)

  /** The status record the tool returns. */
  datatype ToolResult =
    | Success(s3Key: string, s3Url: string, fileName: string, fileSize: nat, via: string)
    | Error(reason: string)
    | S3Error(reason: string)

  function Status(r: ToolResult): string
  {
    match r
    case Success(_, _, _, _, _) => "success"
    case Error(_) => "error"
    case S3Error(_) => "s3_error"
  }

  // ---------------------------------------------------------------------
  // Search roots

  /** The `downloads` subdirectory of each `playwright-*` directory that has one, in listing order. */
  function DownloadSubdirs(pw: seq<string>, fs: Listing): seq<string>
  {
    if pw == [] then []
    else
      var sub := Join(pw[|pw| - 1], DownloadsSubdir);
      DownloadSubdirs(pw[..|pw| - 1], fs) + (if sub in fs then [sub] else [])
  }

  /** The `playwright-*` directories that exist, in listing order. */
  function ExistingDirs(pw: seq<string>, fs: Listing): seq<string>
  {
    if pw == [] then []
    else ExistingDirs(pw[..|pw| - 1], fs) + (if pw[|pw| - 1] in fs then [pw[|pw| - 1]] else [])
  }

  /** Where polling looks, in order: downloads subdirectories, then the session directories, then the temporary directory. */
  function SearchRoots(pw: seq<string>, tempDir: string, fs: Listing): seq<string>
  {
    DownloadSubdirs(pw, fs) + ExistingDirs(pw, fs) + [tempDir]
  }

  /** Builds the list of directories to search, as the tool appends to it. */
  method CollectSearchRoots(pw: seq<string>, tempDir: string, fs: Listing) returns (roots: seq<string>)
    ensures roots == SearchRoots(pw, tempDir, fs)
  {
    roots := [];
    for i := 0 to |pw|
      invariant roots == DownloadSubdirs(pw[..i], fs)
    {
      assert pw[..i + 1][..i] == pw[..i];
      var downloadsSubdir := Join(pw[i], DownloadsSubdir);
      if downloadsSubdir in fs {
        roots := roots + [downloadsSubdir];
      }
    }
    assert pw[..|pw|] == pw;
    ghost var subdirs := roots;
    for i := 0 to |pw|
      invariant roots == subdirs + ExistingDirs(pw[..i], fs)
    {
      assert pw[..i + 1][..i] == pw[..i];
      if pw[i] in fs {
        roots := roots + [pw[i]];
      }
    }
    roots := roots + [tempDir];
  }

  lemma {:induction false} DownloadSubdirsMembers(pw: seq<string>, fs: Listing, x: string)
    ensures x in DownloadSubdirs(pw, fs) <==> x in fs && exists d :: d in pw && x == Join(d, DownloadsSubdir)
    decreases |pw|
  {
    if pw != [] {
      var init := pw[..|pw| - 1];
      DownloadSubdirsMembers(init, fs, x);
      assert pw == init + [pw[|pw| - 1]];
      if exists d :: d in pw && x == Join(d, DownloadsSubdir) {
        var d :| d in pw && x == Join(d, DownloadsSubdir);
        if d != pw[|pw| - 1] {
          assert d in init;
        }
      }
    }
  }

  lemma {:induction false} ExistingDirsMembers(pw: seq<string>, fs: Listing, x: string)
    ensures x in ExistingDirs(pw, fs) <==> x in pw && x in fs
    decreases |pw|
  {
    if pw != [] {
      var init := pw[..|pw| - 1];
      ExistingDirsMembers(init, fs, x);
      assert pw == init + [pw[|pw| - 1]];
    }
  }

  /**
   * The search roots are the existing `downloads` subdirectories of the
   * session directories, then the existing session directories, then the
   * temporary directory, and nothing else.
   */
  lemma SearchRootsOrder(pw: seq<string>, tempDir: string, fs: Listing)
    ensures var roots := SearchRoots(pw, tempDir, fs);
      var n, m := |DownloadSubdirs(pw, fs)|, |ExistingDirs(pw, fs)|;
      && |roots| == n + m + 1 && roots[n + m] == tempDir
      && (forall i :: 0 <= i < n ==> roots[i] in fs && exists d :: d in pw && roots[i] == Join(d, DownloadsSubdir))
      && (forall i :: n <= i < n + m ==> roots[i] in pw && roots[i] in fs)
  {
    var roots := SearchRoots(pw, tempDir, fs);
    var ds, ed := DownloadSubdirs(pw, fs), ExistingDirs(pw, fs);
    forall i | 0 <= i < |ds| ensures roots[i] in fs && exists d :: d in pw && roots[i] == Join(d, DownloadsSubdir) {
      assert roots[i] == ds[i];
      DownloadSubdirsMembers(pw, fs, ds[i]);
    }
    forall i | |ds| <= i < |ds| + |ed| ensures roots[i] in pw && roots[i] in fs {
      assert roots[i] == ed[i - |ds|];
      ExistingDirsMembers(pw, fs, ed[i - |ds|]);
    }
  }

  // ---------------------------------------------------------------------
  // Recent files

  /** A freshly downloaded candidate: a regular file younger than the window (strictly). */
  predicate IsRecent(e: FsEntry, now: int)
  {
    e.isFile && now - e.mtime < RecencyWindow
  }

  /** The recent files of one listing, in listing order. */
  function RecentIn(entries: seq<FsEntry>, now: int): seq<FsEntry>
  {
    if entries == [] then []
    else
      var e := entries[|entries| - 1];
      RecentIn(entries[..|entries| - 1], now) + (if IsRecent(e, now) then [e] else [])
  }

  /** The recent files of all existing roots, root by root. */
  function RecentFiles(roots: seq<string>, fs: Listing, now: int): seq<FsEntry>
  {
    if roots == [] then []
    else
      var r := roots[|roots| - 1];
      RecentFiles(roots[..|roots| - 1], fs, now) + (if r in fs then RecentIn(fs[r], now) else [])
  }

  /** Scans every root against one clock reading, as the tool appends to `recent_files`. */
  method ScanRecentFiles(roots: seq<string>, fs: Listing, now: int) returns (recent: seq<FsEntry>)
    ensures recent == RecentFiles(roots, fs, now)
  {
    recent := [];
    for i := 0 to |roots|
      invariant recent == RecentFiles(roots[..i], fs, now)
    {
      assert roots[..i + 1][..i] == roots[..i];
      var location := roots[i];
      if location in fs {
        var allFiles := fs[location];
        ghost var before := recent;
        for j := 0 to |allFiles|
          invariant recent == before + RecentIn(allFiles[..j], now)
        {
          assert allFiles[..j + 1][..j] == allFiles[..j];
          var f := allFiles[j];
          if f.isFile {
            var fileAge := now - f.mtime;
            if fileAge < RecencyWindow {
              recent := recent + [f];
            }
          }
        }
        assert allFiles[..|allFiles|] == allFiles;
      }
    }
    assert roots[..|roots|] == roots;
  }

  lemma {:induction false} RecentInMembers(entries: seq<FsEntry>, now: int, e: FsEntry)
    ensures e in RecentIn(entries, now) <==> e in entries && IsRecent(e, now)
    decreases |entries|
  {
    if entries != [] {
      var init := entries[..|entries| - 1];
      RecentInMembers(init, now, e);
      assert entries == init + [entries[|entries| - 1]];
    }
  }

  /** A file is a candidate exactly when it is listed in an existing root, is a regular file and is recent. */
  lemma {:induction false} CandidateIff(roots: seq<string>, fs: Listing, now: int, e: FsEntry)
    ensures e in RecentFiles(roots, fs, now)
        <==> IsRecent(e, now) && exists r :: r in roots && r in fs && e in fs[r]
    decreases |roots|
  {
    if roots != [] {
      var init, last := roots[..|roots| - 1], roots[|roots| - 1];
      CandidateIff(init, fs, now, e);
      assert roots == init + [last];
      if last in fs {
        RecentInMembers(fs[last], now, e);
      }
      if IsRecent(e, now) && exists r :: r in roots && r in fs && e in fs[r] {
        var r :| r in roots && r in fs && e in fs[r];
        if r != last {
          assert r in init;
        }
      }
    }
  }

  // ---------------------------------------------------------------------
  // Selection

  /**
   * Index `k` is what a stable sort by modification time, newest first,
   * puts first: no entry is newer, and every earlier entry is strictly older.
   */
  ghost predicate IsStableHead(s: seq<FsEntry>, k: nat)
  {
    && k < |s|
    && (forall j :: 0 <= j < |s| ==> s[j].mtime <= s[k].mtime)
    && (forall j :: 0 <= j < k ==> s[j].mtime < s[k].mtime)
  }

  /** The head of `recent_files` after `sort(key=mtime, reverse=True)`. */
  function NewestIndex(s: seq<FsEntry>): (k: nat)
    requires s != []
    ensures IsStableHead(s, k)
    decreases |s|
  {
    if |s| == 1 then 0
    else
      var k := NewestIndex(s[..|s| - 1]);
      if s[|s| - 1].mtime > s[k].mtime then |s| - 1 else k
  }

  /** At most one index is the head of the stable sort. */
  lemma StableHeadUnique(s: seq<FsEntry>, k1: nat, k2: nat)
    requires IsStableHead(s, k1) && IsStableHead(s, k2)
    ensures k1 == k2
  {
    assert s[k1].mtime == s[k2].mtime;
    assert k1 <= k2;
  }

  // ---------------------------------------------------------------------
  // Detection and result

  /** The file name the event fallback saves under. */
  function EventFileName(n: SuggestedName): string
  {
    match n
    case Attribute(name) => name
    case Callable(r) => if r.None? || r.value == "" then FallbackName else r.value
  }

  /** Python truthiness of the `file_path` variable. */
  predicate Truthy(p: Option<string>)
  {
    p.Some? && p.value != ""
  }

  /** The variables the validation reads: `file_path`, the size of the file there (None if absent) and `download_triggered`. */
  datatype Detection =
    | CopyFailed(repr: string)
    | Detected(filePath: Option<string>, size: Option<nat>, downloadTriggered: bool)

  /** The recent files of the scan the tool runs in `env`. */
  function Candidates(env: Environment): seq<FsEntry>
  {
    RecentFiles(SearchRoots(env.playwrightDirs, env.tempDir, env.fs), env.fs, env.now)
  }

  /**
   * How the newest candidate is brought into the temporary directory.
   * `Copy2` is `shutil.copy2` as the tool calls it, which refuses to copy a
   * file onto itself; `SkipSameFile` uses a candidate already at the
   * destination in place.
   */
  datatype CopyRule = Copy2 | SkipSameFile

  /** `repr()` of the error `shutil.copy2` raises when source and destination are the same file. */
  function SameFileErrorRepr(src: string, dst: string): string
  {
    "SameFileError(\"'" + src + "' and '" + dst + "' are the same file\")"
  }

  /** The `repr()` of the error bringing `src` to `dst`, if any. */
  function CopyFailure(env: Environment, rule: CopyRule, src: string, dst: string): Option<string>
  {
    if src != dst then env.copyError
    else match rule
      case Copy2 => Some(SameFileErrorRepr(src, dst))
      case SkipSameFile => None
  }

  /** Where polling puts the newest candidate. */
  function Destination(env: Environment, f: FsEntry): string
  {
    Join(env.tempDir, Basename(f.path))
  }

  /** Polling, over the scan's candidates `recent`, first; the event only when polling left `file_path` falsy. */
  function DetectFrom(env: Environment, recent: seq<FsEntry>, rule: CopyRule): Detection
  {
    if recent == [] then Fallback(env, None, None, false)
    else PollNewest(env, recent[NewestIndex(recent)], rule)
  }

  /** Polling once the newest candidate `f` is chosen: copy it to the temporary directory, then check `file_path`. */
  function PollNewest(env: Environment, f: FsEntry, rule: CopyRule): Detection
  {
    var dst := Destination(env, f);
    match CopyFailure(env, rule, f.path, dst)
    case Some(e) => CopyFailed(e)
    case None =>
      if dst != "" then Detected(Some(dst), Some(f.size), true)
      else Fallback(env, Some(dst), Some(f.size), true)
  }

  /** The event fallback, given what polling left in `file_path`, the size there and `download_triggered`. */
  function Fallback(env: Environment, polled: Option<string>, size: Option<nat>, triggered: bool): Detection
  {
    match env.event
    case NoEvent => Detected(polled, size, triggered)
    case Captured(name, saved) => Detected(Some(Join(env.tempDir, EventFileName(name))), saved, triggered)
  }

  /** What detection yields for the scan the tool runs. */
  function Detect(env: Environment, rule: CopyRule): Detection
  {
    DetectFrom(env, Candidates(env), rule)
  }

  /** The extensions of a browser download still being written. */
  predicate IsPartialExtension(ext: string)
  {
    ext == ".crdownload" || ext == ".part"
  }

  /**
   * Validation of the detected file and the upload. A failed copy is the
   * outer handler's error; a success is keyed under the client's folder by
   * the slash-free name it reports, carries the upload's URL and names its
   * detection path by `download_triggered`.
   */
  function Finish(clientName: string, d: Detection, upload: Upload): (r: ToolResult)
    ensures d.CopyFailed? ==> r == Error("NovaAct execution failed: " + d.repr)
    ensures d.Detected? && !(Truthy(d.filePath) && d.size.Some?) ==> r == Error("File not downloaded - all methods failed")
    ensures r.Success? ==> && d.Detected? && r.via == (if d.downloadTriggered then "filesystem_check" else "event")
                           && r.s3Key == KeyPrefix + clientName + "/" + r.fileName
                           && '/' !in r.fileName && r.fileSize > 0
                           && upload.Uploaded? && r.s3Url == upload.url
    ensures r.S3Error? ==> upload.UploadFailed? && r.reason == upload.repr
  {
    match d
    case CopyFailed(e) => Error("NovaAct execution failed: " + e)
    case Detected(fp, size, triggered) =>
      if Truthy(fp) && size.Some? then
        if size.value == 0 then Error("File is empty")
        else if IsPartialExtension(Extension(fp.value)) then Error("Partial download detected")
        else
          var key := KeyPrefix + clientName + "/" + Basename(fp.value);
          match upload
          case Uploaded(url) =>
            Success(key, url, Basename(fp.value), size.value, if triggered then "filesystem_check" else "event")
          case UploadFailed(r) => S3Error(r)
      else Error("File not downloaded - all methods failed")
  }

  /** What `nova_act_download` returns when it brings the newest candidate over by `rule`. */
  function Outcome(clientName: string, env: Environment, rule: CopyRule): ToolResult
  {
    if env.importError.Some? then Error("Failed to import NovaAct: " + env.importError.value)
    else if env.sessionError.Some? then Error("NovaAct execution failed: " + env.sessionError.value)
    else Finish(clientName, Detect(env, rule), env.upload)
  }

  /** The newest candidate, the one polling keeps. */
  function Newest(env: Environment): (f: FsEntry)
    requires Candidates(env) != []
    ensures f in Candidates(env)
  {
    Candidates(env)[NewestIndex(Candidates(env))]
  }

  /**
   * `nova_act_download` as written. It differs from the tool with the
   * in-place correction only when it gets as far as polling and the newest
   * candidate is its own destination; then it reports the same-file error.
   */
  function DownloadOutcomeAsWritten(clientName: string, env: Environment): (r: ToolResult)
    ensures r != DownloadOutcome(clientName, env) ==>
      env.importError.None? && env.sessionError.None? && Candidates(env) != [] && Newest(env).path == Destination(env, Newest(env))
    ensures env.importError.None? && env.sessionError.None? && Candidates(env) != []
            && Newest(env).path == Destination(env, Newest(env)) ==>
      r == Error("NovaAct execution failed: " + SameFileErrorRepr(Newest(env).path, Newest(env).path))
  {
    Outcome(clientName, env, Copy2)
  }

  /** `nova_act_download` with a candidate already in the temporary directory used in place. */
  function DownloadOutcome(clientName: string, env: Environment): ToolResult
  {
    Outcome(clientName, env, SkipSameFile)
  }

  /**
   * `nova_act_download`, with its flags reassigned as the tool does, except
   * that a candidate already at its destination is not copied onto itself.
   */
  method NovaActDownload(clientName: string, env: Environment) returns (r: ToolResult)
    ensures r == DownloadOutcome(clientName, env)
  {
    if env.importError.Some? {
      return Error("Failed to import NovaAct: " + env.importError.value);
    }
    var downloadDir := env.tempDir;
    var filePath: Option<string> := None;
    var fileSize: Option<nat> := None;
    var downloadTriggered := false;
    if env.sessionError.Some? {
      return Error("NovaAct execution failed: " + env.sessionError.value);
    }
    var possibleDownloadDirs := CollectSearchRoots(env.playwrightDirs, env.tempDir, env.fs);
    var recentFiles := ScanRecentFiles(possibleDownloadDirs, env.fs, env.now);
    if recentFiles != [] {
      var mostRecentFile := recentFiles[NewestIndex(recentFiles)];
      filePath := Some(Join(downloadDir, Basename(mostRecentFile.path)));
      if filePath.value != mostRecentFile.path && env.copyError.Some? {
        return Error("NovaAct execution failed: " + env.copyError.value);
      }
      fileSize := Some(mostRecentFile.size);
      downloadTriggered := true;
    }
    if !Truthy(filePath) {
      match env.event
      case NoEvent =>
      case Captured(name, saved) =>
        filePath := Some(Join(downloadDir, EventFileName(name)));
        fileSize := saved;
    }
    r := ValidateAndUpload(clientName, filePath, fileSize, downloadTriggered, env.upload);
  }

  /** The validation and upload that end `nova_act_download`. */
  method ValidateAndUpload(clientName: string, filePath: Option<string>, fileSize: Option<nat>,
                           downloadTriggered: bool, upload: Upload) returns (r: ToolResult)
    ensures r == Finish(clientName, Detected(filePath, fileSize, downloadTriggered), upload)
  {
    if Truthy(filePath) && fileSize.Some? {
      if fileSize.value == 0 {
        return Error("File is empty");
      }
      var fileExt := Extension(filePath.value);
      if fileExt == ".crdownload" || fileExt == ".part" {
        return Error("Partial download detected");
      }
      var s3FileKey := KeyPrefix + clientName + "/" + Basename(filePath.value);
      match upload
      case Uploaded(url) =>
        return Success(s3FileKey, url, Basename(filePath.value), fileSize.value,
                       if downloadTriggered then "filesystem_check" else "event");
      case UploadFailed(repr) =>
        return S3Error(repr);
    } else {
      return Error("File not downloaded - all methods failed");
    }
  }

  // ---------------------------------------------------------------------
  // Properties

  /** The file polling keeps is a recent regular file of some search root, and no candidate is newer. */
  lemma ChosenIsNewestCandidate(env: Environment)
    requires Candidates(env) != []
    ensures var recent := Candidates(env);
      var f := recent[NewestIndex(recent)];
      && IsRecent(f, env.now)
      && (exists r :: r in SearchRoots(env.playwrightDirs, env.tempDir, env.fs) && r in env.fs && f in env.fs[r])
      && (forall c :: c in recent ==> c.mtime <= f.mtime)
  {
    var recent := Candidates(env);
    var f := recent[NewestIndex(recent)];
    CandidateIff(SearchRoots(env.playwrightDirs, env.tempDir, env.fs), env.fs, env.now, f);
  }

  /** The result of a call whose scan found something to copy: validation reads the copy of the newest candidate. */
  lemma PolledFileDecides(clientName: string, env: Environment)
    requires env.importError.None? && env.sessionError.None? && env.copyError.None?
    requires Candidates(env) != [] && env.tempDir != ""
    ensures var recent := Candidates(env);
      var f := recent[NewestIndex(recent)];
      var name := Basename(f.path);
      var r := DownloadOutcome(clientName, env);
      && (f.size == 0 ==> r == Error("File is empty"))
      && (f.size > 0 && IsPartialExtension(Extension(name)) ==> r == Error("Partial download detected"))
      && (r.Success? <==> f.size > 0 && !IsPartialExtension(Extension(name)) && env.upload.Uploaded?)
      && (r.S3Error? <==> f.size > 0 && !IsPartialExtension(Extension(name)) && env.upload.UploadFailed?)
      && (r.Success? ==> && r.fileName == name && r.fileSize == f.size && r.via == "filesystem_check"
                         && r.s3Key == KeyPrefix + clientName + "/" + name && r.s3Url == env.upload.url)
  {
    var recent := Candidates(env);
    var f := recent[NewestIndex(recent)];
    var name := Basename(f.path);
    var path := Join(env.tempDir, name);
    BasenameOfJoin(env.tempDir, name);
    ExtensionOfJoin(env.tempDir, name);
    assert path != "";
    var d := Detected(Some(path), Some(f.size), true);
    assert Detect(env, SkipSameFile) == d;
    assert DownloadOutcome(clientName, env) == Finish(clientName, d, env.upload);
    FinishOnFile(clientName, path, f.size, true, env.upload);
  }

  /** Validation of an existing, named file: size first, then extension, then the upload. */
  lemma FinishOnFile(clientName: string, path: string, size: nat, triggered: bool, upload: Upload)
    requires path != ""
    ensures var r := Finish(clientName, Detected(Some(path), Some(size), triggered), upload);
      && (size == 0 ==> r == Error("File is empty"))
      && (size > 0 && IsPartialExtension(Extension(path)) ==> r == Error("Partial download detected"))
      && (r.Success? <==> size > 0 && !IsPartialExtension(Extension(path)) && upload.Uploaded?)
      && (r.S3Error? <==> size > 0 && !IsPartialExtension(Extension(path)) && upload.UploadFailed?)
      && (r.Success? ==> && r.fileName == Basename(path) && r.fileSize == size
                         && r.via == (if triggered then "filesystem_check" else "event")
                         && r.s3Key == KeyPrefix + clientName + "/" + Basename(path) && r.s3Url == upload.url)
  {
  }

  /** When polling found nothing, the event alone decides, and success is reported as coming from it. */
  lemma EventDecidesWhenPollingFindsNothing(clientName: string, env: Environment)
    requires env.importError.None? && env.sessionError.None?
    requires Candidates(env) == []
    ensures var r := DownloadOutcome(clientName, env);
      && (env.event.NoEvent? ==> r == Error("File not downloaded - all methods failed"))
      && (env.event.Captured? && env.event.savedSize.None? ==> r == Error("File not downloaded - all methods failed"))
      && (env.tempDir != "" && env.event.Captured? && env.event.savedSize == Some(0) ==> r == Error("File is empty"))
      && (r.Success? ==> && env.event.Captured? && r.via == "event"
                         && r.fileName == Basename(Join(env.tempDir, EventFileName(env.event.suggested)))
                         && Some(r.fileSize) == env.event.savedSize)
  {
  }

  /** With a named temporary directory, polling sets `download_triggered` exactly when its scan found a file. */
  lemma TriggeredIffPolled(env: Environment, rule: CopyRule)
    requires env.tempDir != "" && Detect(env, rule).Detected?
    ensures Detect(env, rule).downloadTriggered <==> Candidates(env) != []
  {
    var recent := Candidates(env);
    if recent != [] {
      var f := recent[NewestIndex(recent)];
      var polled := Destination(env, f);
      assert polled != "";
      assert CopyFailure(env, rule, f.path, polled).None?;
      assert Detect(env, rule) == Detected(Some(polled), Some(f.size), true);
    } else {
      assert Detect(env, rule).downloadTriggered == false;
    }
  }

  /** With a named temporary directory, a success says "filesystem_check" exactly when polling found a file. */
  lemma MethodTellsDetection(clientName: string, env: Environment)
    requires env.tempDir != ""
    requires DownloadOutcome(clientName, env).Success?
    ensures DownloadOutcome(clientName, env).via == "filesystem_check" <==> Candidates(env) != []
  {
    var d := Detect(env, SkipSameFile);
    assert DownloadOutcome(clientName, env) == Finish(clientName, d, env.upload);
    TriggeredIffPolled(env, SkipSameFile);
  }

  /** The event's file keeps its suggested name, unless a callable yields nothing and the fallback name is used. */
  lemma EventNameFallsBack(n: string)
    ensures EventFileName(Attribute(n)) == n
    ensures EventFileName(Callable(Some(n))) == (if n == "" then FallbackName else n)
    ensures EventFileName(Callable(None)) == FallbackName
  {
  }

  /** An empty file is reported as empty even when it also carries a partial-download extension. */
  lemma EmptyCheckedBeforePartial(clientName: string, path: string, triggered: bool, upload: Upload)
    requires path != ""
    ensures Finish(clientName, Detected(Some(path), Some(0), triggered), upload) == Error("File is empty")
  {
  }

  /** A non-empty file still being written by the browser is never uploaded. */
  lemma PartialNeverUploaded(clientName: string, stem: string, ext: string, size: nat, triggered: bool, upload: Upload)
    requires '/' !in stem && (exists j :: 0 <= j < |stem| && stem[j] != '.')
    requires ext == ".crdownload" || ext == ".part"
    requires size > 0
    ensures Finish(clientName, Detected(Some(stem + ext), Some(size), triggered), upload) == Error("Partial download detected")
  {
    ExtensionOfName(stem, ext);
    FinishOnFile(clientName, stem + ext, size, triggered, upload);
  }

  /** A failure of the import or of the session hides everything that follows; the import is checked first. */
  lemma EarlyFailuresWin(clientName: string, env: Environment)
    ensures env.importError.Some? ==> DownloadOutcome(clientName, env) == Error("Failed to import NovaAct: " + env.importError.value)
    ensures env.importError.None? && env.sessionError.Some? ==>
      DownloadOutcome(clientName, env) == Error("NovaAct execution failed: " + env.sessionError.value)
  {
  }

  /** A successful result always names an upload key under the client's folder that ends in the reported file name. */
  lemma SuccessKeyLayout(clientName: string, env: Environment)
    requires DownloadOutcome(clientName, env).Success?
    ensures var r := DownloadOutcome(clientName, env);
      && r.s3Key == KeyPrefix + clientName + "/" + r.fileName
      && '/' !in r.fileName && r.fileSize > 0
      && r.s3Url == env.upload.url
      && Status(r) == "success"
  {
    assert DownloadOutcome(clientName, env) == Finish(clientName, Detect(env, SkipSameFile), env.upload);
  }

  // ---------------------------------------------------------------------
  // A file already in the temporary directory

  /** A recent regular file listed directly in the temporary directory is a candidate. */
  lemma TempDirFilesAreCandidates(env: Environment, e: FsEntry)
    requires env.tempDir in env.fs && e in env.fs[env.tempDir] && IsRecent(e, env.now)
    ensures e in Candidates(env)
  {
    var roots := SearchRoots(env.playwrightDirs, env.tempDir, env.fs);
    assert roots[|roots| - 1] == env.tempDir;
    CandidateIff(roots, env.fs, env.now, e);
  }

  /**
   * As written, a newest candidate that sits directly in the temporary
   * directory is copied onto itself, and the call fails however good the
   * file is.
   */
  lemma SameFileCopyFailsAsWritten(clientName: string, env: Environment, name: string)
    requires env.importError.None? && env.sessionError.None? && '/' !in name
    requires Candidates(env) != [] && Newest(env).path == Join(env.tempDir, name)
    ensures var p := Join(env.tempDir, name);
      DownloadOutcomeAsWritten(clientName, env) == Error("NovaAct execution failed: " + SameFileErrorRepr(p, p))
  {
    BasenameOfJoin(env.tempDir, name);
  }

  /** Outside the same-file case, the tool as written and the corrected tool agree on every input. */
  lemma AsWrittenAgreesOffTheEdge(clientName: string, env: Environment)
    requires Candidates(env) != [] ==> Newest(env).path != Destination(env, Newest(env))
    ensures DownloadOutcomeAsWritten(clientName, env) == DownloadOutcome(clientName, env)
  {
  }

  /** A candidate directly in the temporary directory is its own polling destination. */
  lemma DestinationInPlace(env: Environment, f: FsEntry, name: string)
    requires '/' !in name && f.path == Join(env.tempDir, name)
    ensures Destination(env, f) == f.path
  {
    BasenameOfJoin(env.tempDir, name);
  }

  /** Used in place, a newest candidate already in the temporary directory is detected by polling at its own path. */
  lemma InPlaceDetected(env: Environment, f: FsEntry, name: string)
    requires '/' !in name && env.tempDir != "" && f.path == Join(env.tempDir, name)
    ensures PollNewest(env, f, SkipSameFile) == Detected(Some(f.path), Some(f.size), true)
  {
    DestinationInPlace(env, f, name);
  }

  /** A complete, non-empty file that uploads is reported under its name. */
  lemma FinishUploads(clientName: string, path: string, name: string, size: nat, triggered: bool, url: string)
    requires path != "" && Basename(path) == name && !IsPartialExtension(Extension(path)) && size > 0
    ensures Finish(clientName, Detected(Some(path), Some(size), triggered), Uploaded(url))
         == Success(KeyPrefix + clientName + "/" + name, url, name, size, if triggered then "filesystem_check" else "event")
  {
  }

  /** The same call with the file used in place reports it as found by polling. */
  lemma SameFileUsedInPlace(clientName: string, env: Environment, name: string)
    requires env.importError.None? && env.sessionError.None? && '/' !in name && env.tempDir != ""
    requires Candidates(env) != [] && Newest(env).path == Join(env.tempDir, name)
    ensures Newest(env).size > 0 && !IsPartialExtension(Extension(name)) && env.upload.Uploaded? ==>
      DownloadOutcome(clientName, env)
        == Success(KeyPrefix + clientName + "/" + name, env.upload.url, name, Newest(env).size, "filesystem_check")
  {
    var f := Newest(env);
    if f.size > 0 && !IsPartialExtension(Extension(name)) && env.upload.Uploaded? {
      InPlaceFinish(clientName, env, f, name);
      assert Detect(env, SkipSameFile) == PollNewest(env, f, SkipSameFile);
      assert DownloadOutcome(clientName, env) == Finish(clientName, Detect(env, SkipSameFile), env.upload);
    }
  }

  /** Polling a complete file in place, then validating and uploading it, reports it under its own name. */
  lemma InPlaceFinish(clientName: string, env: Environment, f: FsEntry, name: string)
    requires '/' !in name && env.tempDir != "" && f.path == Join(env.tempDir, name)
    requires f.size > 0 && !IsPartialExtension(Extension(name)) && env.upload.Uploaded?
    ensures Finish(clientName, PollNewest(env, f, SkipSameFile), env.upload)
         == Success(KeyPrefix + clientName + "/" + name, env.upload.url, name, f.size, "filesystem_check")
  {
    InPlaceDetected(env, f, name);
    BasenameOfJoin(env.tempDir, name);
    ExtensionOfJoin(env.tempDir, name);
    FinishUploads(clientName, f.path, name, f.size, true, env.upload.url);
  }

  /** The name of the scenario's file, `report.pdf`, built from its stem and its extension. */
  const ReportName: string := "report" + ".pdf"

  /** A 2048-byte `report.pdf` saved directly in `/tmp` ten seconds ago, and nothing else recent. */
  function ReportInTempDir(): Environment
  {
    Environment(None, None, "/tmp", [], map["/tmp" := [FsEntry(Join("/tmp", ReportName), 100, 2048, true)]], 110,
                None, NoEvent, Uploaded("https://bucket/report.pdf"))
  }

  lemma ReportIsTheCandidate()
    ensures Candidates(ReportInTempDir()) == [FsEntry(Join("/tmp", ReportName), 100, 2048, true)]
  {
    var env := ReportInTempDir();
    var e := FsEntry(Join("/tmp", ReportName), 100, 2048, true);
    assert DownloadSubdirs([], env.fs) == [] && ExistingDirs([], env.fs) == [];
    assert SearchRoots([], "/tmp", env.fs) == ["/tmp"];
    assert [e][..0] == [];
    assert RecentIn([e], 110) == [e];
    assert ["/tmp"][..0] == [];
    assert RecentFiles(["/tmp"], env.fs, 110) == RecentFiles([], env.fs, 110) + RecentIn([e], 110);
  }

  /** The file's name is slash-free, and its full path is `/tmp/report.pdf`. */
  lemma ReportPath()
    ensures '/' !in ReportName
    ensures Join("/tmp", ReportName) == "/tmp/report.pdf"
  {
    assert "/tmp"[3] != '/' && ReportName[0] != '/';
    assert Join("/tmp", ReportName) == "/tmp" + "/" + "report" + ".pdf";
  }

  /** The file's extension is `.pdf`, which is not a partial download's. */
  lemma ReportExtension()
    ensures Extension(ReportName) == ".pdf" && !IsPartialExtension(".pdf")
  {
    assert "report"[0] != '.';
    assert ".pdf"[1..] == "pdf";
    ExtensionOfName("report", ".pdf");
  }

  /** The scenario above: the tool as written fails although the file is complete. */
  lemma ReportFailsAsWritten()
    ensures DownloadOutcomeAsWritten("acme", ReportInTempDir())
         == Error("NovaAct execution failed: " + SameFileErrorRepr("/tmp/report.pdf", "/tmp/report.pdf"))
  {
    var env := ReportInTempDir();
    ReportIsTheCandidate();
    ReportPath();
    SameFileCopyFailsAsWritten("acme", env, ReportName);
  }

  /** The scenario above: used in place, the file is uploaded. */
  lemma ReportUploadedInPlace()
    ensures DownloadOutcome("acme", ReportInTempDir())
         == Success(KeyPrefix + "acme" + "/" + ReportName, "https://bucket/report.pdf", ReportName, 2048, "filesystem_check")
  {
    var env := ReportInTempDir();
    ReportIsTheCandidate();
    assert '/' !in "report" && '/' !in ".pdf";
    ReportExtension();
    assert Newest(env) == FsEntry(Join("/tmp", ReportName), 100, 2048, true);
    SameFileUsedInPlace("acme", env, ReportName);
  }
}
