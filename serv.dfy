/** The transfer client (src/serv.rs): builds the upload and download URLs
    from the effective configuration and performs the HTTP and file effects in
    a fixed order. Each effect is recorded as an Action in a trace; whether it
    succeeds is an input, since it depends on the network and the disk. */
module Serv {
  import opened Wrappers
  import opened Conf

  /** What `try_exists` on the local file answers: Ok(true), Ok(false), Err. */
  datatype Probe = Exists | Missing | ProbeError

  /** An effect on the outside world, in the order it is attempted. */
  datatype Action =
    | CheckExists(path: string)              // try_exists on the local file
    | PostMkdir(url: string, folder: string) // multipart POST with text field "mkdir"
    | ReadFile(path: string)                 // opening the file for the "path" form field
    | PostFile(url: string, path: string)    // multipart POST carrying the file
    | CreateFile(path: string)               // File::create, which truncates
    | Get(url: string)                       // GET with redirects disabled
    | CopyBody(path: string)                 // streaming the response into the file

  /** How an operation ends: normally, with an error propagated by `?`, or by
      a panic that terminates the process. */
  datatype Outcome = Done | Failed | Panicked(message: string)

  /** Panic message when `try_exists` answers Ok(false). */
  const PanicMissing: string := "Error evaluating file existence"
  /** Panic message when `try_exists` answers Err. */
  const PanicProbeError: string := "Could not find file to upload"

  /** `s.chars().last()`. */
  function Last(s: string): (r: Option<char>)
    ensures r.Some? <==> s != ""
    ensures r.Some? ==> r.value == s[|s| - 1]
  {
    if s == [] then None else Some(s[|s| - 1])
  }

  /** The URL the upload POST goes to: the upload endpoint, followed by the
      folder and a slash when the folder is active (has a last character). */
  function UploadUrl(uploadTarget: string, folder: string): (url: string)
    ensures folder != "" ==> url == uploadTarget + folder + "/"
    ensures folder == "" ==> url == uploadTarget
  {
    match Last(folder)
    case Some(_) => uploadTarget + folder + "/"
    case None => uploadTarget
  }

  /** The URL a download fetches: the target, the folder and a slash when the
      folder is active, then the file name. */
  function DownloadUrl(target: string, folder: string, file: string): (url: string)
    ensures folder != "" ==> url == target + folder + "/" + file
    ensures folder == "" ==> url == target + file
  {
    match Last(folder)
    case Some(_) => target + folder + "/" + file
    case None => target + file
  }

  /** `create_active_folder`: posts a `mkdir` form naming the effective folder
      to the upload endpoint exactly when that folder is non-empty. */
  method CreateActiveFolder(cfg: ToolConfig, env: Env, sendOk: bool)
    returns (outcome: Outcome, trace: seq<Action>)
    ensures trace != [] <==> cfg.GetFolder(env).value != ""
    ensures trace != [] ==>
      trace == [PostMkdir(cfg.GetUploadTarget(env).value, cfg.GetFolder(env).value)]
    ensures outcome == Done || outcome == Failed
    ensures outcome == Failed <==> trace != [] && !sendOk
  {
    var folder := cfg.GetFolder(env).value;
    match Last(folder)
    case Some(_) =>
      var url := cfg.GetUploadTarget(env).value;
      trace := [PostMkdir(url, folder)];
      outcome := if sendOk then Done else Failed;
    case None =>
      trace, outcome := [], Done;
  }

  /** `upload_file`: the existence check comes first and a failed check
      panics before any network action; the mkdir POST (for an active folder)
      comes before the single upload POST, whose URL is the upload endpoint
      extended by the active folder. */
  method UploadFile(cfg: ToolConfig, env: Env, path: string, probe: Probe,
                    mkdirOk: bool, formOk: bool, postOk: bool)
    returns (outcome: Outcome, trace: seq<Action>)
    ensures |trace| > 0 && trace[0] == CheckExists(path)
    ensures forall i | 0 < i < |trace| :: !trace[i].CheckExists?
    ensures probe == Missing ==> outcome == Panicked(PanicMissing) && trace == [CheckExists(path)]
    ensures probe == ProbeError ==> outcome == Panicked(PanicProbeError) && trace == [CheckExists(path)]
    ensures probe == Exists ==> !outcome.Panicked?
    ensures PostMkdir(cfg.GetUploadTarget(env).value, cfg.GetFolder(env).value) in trace
      <==> probe == Exists && cfg.GetFolder(env).value != ""
    ensures forall i, j | 0 <= i < |trace| && 0 <= j < |trace| ::
      trace[i].PostMkdir? && trace[j].PostFile? ==> i < j
    ensures forall i | 0 <= i < |trace| && trace[i].PostFile? ::
      i == |trace| - 1 &&
      trace[i] == PostFile(UploadUrl(cfg.GetUploadTarget(env).value, cfg.GetFolder(env).value), path)
    ensures (|trace| > 0 && trace[|trace| - 1].PostFile?)
      <==> probe == Exists && (cfg.GetFolder(env).value == "" || mkdirOk) && formOk
    ensures outcome == Done
      <==> probe == Exists && (cfg.GetFolder(env).value == "" || mkdirOk) && formOk && postOk
    ensures probe == Exists ==>
      var u, f := cfg.GetUploadTarget(env).value, cfg.GetFolder(env).value;
      var goOn := f == "" || mkdirOk;
      trace == [CheckExists(path)]
        + (if f != "" then [PostMkdir(u, f)] else [])
        + (if goOn then [ReadFile(path)] else [])
        + (if goOn && formOk then [PostFile(UploadUrl(u, f), path)] else [])
  {
    trace := [CheckExists(path)];
    match probe {
      case Exists =>
      case Missing =>
        outcome := Panicked(PanicMissing);
        return;
      case ProbeError =>
        outcome := Panicked(PanicProbeError);
        return;
    }

    var mkdirOutcome, mkdirTrace := CreateActiveFolder(cfg, env, mkdirOk);
    trace := trace + mkdirTrace;
    if mkdirOutcome == Failed {
      outcome := Failed;
      return;
    }

    trace := trace + [ReadFile(path)];
    if !formOk {
      outcome := Failed;
      return;
    }
    var target := cfg.GetUploadTarget(env).value;
    var folder := cfg.GetFolder(env).value;
    match Last(folder) {
      case Some(_) =>
        target := target + folder;
        target := target + "/";
      case None =>
    }

    trace := trace + [PostFile(target, path)];
    outcome := if postOk then Done else Failed;
  }

  /** `download`: the destination is created (or truncated) before the GET is
      sent, so it exists even when the GET fails; the body is copied only
      after a successful GET. The source URL is the effective target, the
      active folder with a slash, then the file name. */
  method Download(cfg: ToolConfig, env: Env, file: string, dest: string,
                  createOk: bool, getOk: bool, copyOk: bool)
    returns (outcome: Outcome, trace: seq<Action>)
    ensures |trace| > 0 && trace[0] == CreateFile(dest)
    ensures forall i | 0 <= i < |trace| && trace[i].Get? ::
      i == 1 && trace[i].url == DownloadUrl(cfg.GetTarget(env).value, cfg.GetFolder(env).value, file)
    ensures forall i | 0 <= i < |trace| && trace[i].CopyBody? ::
      i == 2 && trace[1].Get? && trace[i].path == dest
    ensures !createOk ==> trace == [CreateFile(dest)] && outcome == Failed
    ensures createOk ==>
      |trace| > 1 && trace[1] == Get(DownloadUrl(cfg.GetTarget(env).value, cfg.GetFolder(env).value, file))
    ensures CopyBody(dest) in trace <==> createOk && getOk
    ensures outcome == Done || outcome == Failed
    ensures outcome == Done <==> createOk && getOk && copyOk
    ensures var url := DownloadUrl(cfg.GetTarget(env).value, cfg.GetFolder(env).value, file);
      trace == [CreateFile(dest)]
        + (if createOk then [Get(url)] else [])
        + (if createOk && getOk then [CopyBody(dest)] else [])
  {
    var src := cfg.GetTarget(env).value;
    var folder := cfg.GetFolder(env).value;
    match Last(folder) {
      case Some(_) =>
        src := src + folder;
        src := src + "/";
      case None =>
    }

    src := src + file;

    trace := [CreateFile(dest)];
    if !createOk {
      outcome := Failed;
      return;
    }
    trace := trace + [Get(src)];
    if !getOk {
      outcome := Failed;
      return;
    }
    trace := trace + [CopyBody(dest)];
    outcome := if copyOk then Done else Failed;
  }

  /** The upload URL names the folder: over one upload endpoint, two folders
      give the same upload URL exactly when they are equal. */
  lemma {:induction false} UploadUrlDeterminesFolder(uploadTarget: string, f1: string, f2: string)
    ensures UploadUrl(uploadTarget, f1) == UploadUrl(uploadTarget, f2) <==> f1 == f2
    ensures |UploadUrl(uploadTarget, f1)| >= |uploadTarget|
    ensures UploadUrl(uploadTarget, f1)[..|uploadTarget|] == uploadTarget
  {
    var u1, u2 := UploadUrl(uploadTarget, f1), UploadUrl(uploadTarget, f2);
    if u1 == u2 && f1 != "" && f2 != "" {
      assert f1 == u1[|uploadTarget|..|u1| - 1];
      assert f2 == u2[|uploadTarget|..|u2| - 1];
    }
  }

  /** The download URL names the file: for one target and folder, two file
      names give the same URL exactly when they are equal, and the URL always
      starts with the target and ends with the file name. */
  lemma DownloadUrlDeterminesFile(target: string, folder: string, x: string, y: string)
    ensures DownloadUrl(target, folder, x) == DownloadUrl(target, folder, y) <==> x == y
    ensures var url := DownloadUrl(target, folder, x);
      |url| >= |target| + |x| && url[..|target|] == target && url[|url| - |x|..] == x
  {
    var p := if folder == "" then target else target + folder + "/";
    assert DownloadUrl(target, folder, x) == p + x;
    assert DownloadUrl(target, folder, y) == p + y;
    assert (p + x)[|p|..] == x && (p + y)[|p|..] == y;
  }

  /** The folder/file split is not recoverable from a download URL: an active
      folder "docs" with file "a" and no folder with file "docs/a" fetch the
      same URL. */
  lemma DownloadSplitAmbiguous(target: string)
    ensures DownloadUrl(target, "docs", "a") == DownloadUrl(target, "", "docs/a")
  {
  }
}
