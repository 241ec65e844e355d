/** The configuration record of the tool (src/conf.rs): a persisted
    {version, target, folder} triple whose effective target and folder may be
    overridden by two environment variables. */
module Conf {
  import opened Wrappers

  /** Rust's `u8`, the width of the `version` field. */
  newtype U8 = x: int | 0 <= x < 256

  /** Name of the variable that overrides the persisted target. */
  const EnvTarget: string := "MINIUPLOAD_TARGET"
  /** Name of the variable that overrides the persisted folder. */
  const EnvFolder: string := "MINIUPLOAD_FOLDER"
  /** Appended to the effective target to form the upload endpoint. */
  const UploadSuffix: string := "upload?path=/"

  /** A snapshot of the process environment. A variable is present exactly when
      it is a key; a variable whose value is not valid Unicode is absent. */
  type Env = map<string, string>

  /** Why `env::var` failed. Only absence is modelled. */
  datatype VarError = NotPresent

  /** `env::var(key)`: the value when the variable is present, else an error. */
  function EnvVar(env: Env, key: string): Result<string, VarError> {
    if key in env then Ok(env[key]) else Err(NotPresent)
  }

  /** The value of a ToolConfig: what is persisted under an application name. */
  datatype Record = Record(version: U8, target: string, folder: string)

  /** `Default::default()` for ToolConfig. */
  const DefaultRecord: Record := Record(0, "", "")

  /** The persisted configuration files, keyed by application name. */
  type Store = map<string, Record>

  /** `confy::load`: the stored record, or the default when none is stored. */
  function Load(store: Store, app: string): (r: Record)
    ensures app in store ==> r == store[app]
    ensures app !in store ==> r == DefaultRecord
  {
    if app in store then store[app] else DefaultRecord
  }

  /** Saving a record and loading it back under the same name yields that
      record, and every other application's record is untouched. */
  lemma SaveLoadRoundTrip(store: Store, app: string, r: Record, other: string)
    ensures Load(store[app := r], app) == r
    ensures other != app ==> Load(store[app := r], other) == Load(store, other)
  {
  }

  class ToolConfig {
    var version: U8
    var target: string
    var folder: string

    /** The record these fields hold. */
    function Value(): Record
      reads this
    {
      Record(version, target, folder)
    }

    /** `Default::default()`: version 0, empty target and folder. */
    constructor Default()
      ensures Value() == DefaultRecord
    {
      version, target, folder := 0, "", "";
    }

    /** `ToolConfig::from_app`: a fresh config holding what `confy::load`
        returns for `app`. */
    constructor FromApp(store: Store, app: string)
      ensures Value() == Load(store, app)
    {
      var r := Load(store, app);
      version, target, folder := r.version, r.target, r.folder;
    }

    /** `get_folder`: the value of MINIUPLOAD_FOLDER when that variable is
        present (even when it is empty), otherwise the persisted folder. It
        never fails. */
    function GetFolder(env: Env): (r: Result<string, VarError>)
      reads this
      ensures r.Ok?
      ensures EnvFolder in env ==> r.value == env[EnvFolder]
      ensures EnvFolder !in env ==> r.value == folder
    {
      match EnvVar(env, EnvFolder)
      case Ok(v) => Ok(v)
      case Err(_) => Ok(folder)
    }

    /** `get_target`: the value of MINIUPLOAD_TARGET when that variable is
        present (even when it is empty), otherwise the persisted target. It
        never fails. */
    function GetTarget(env: Env): (r: Result<string, VarError>)
      reads this
      ensures r.Ok?
      ensures EnvTarget in env ==> r.value == env[EnvTarget]
      ensures EnvTarget !in env ==> r.value == target
    {
      match EnvVar(env, EnvTarget)
      case Ok(v) => Ok(v)
      case Err(_) => Ok(target)
    }

    /** `get_upload_target`: the effective target followed by the fixed
        upload suffix; it fails only when `get_target` does, so never. */
    function GetUploadTarget(env: Env): (r: Result<string, VarError>)
      reads this
      ensures r.Ok?
      ensures |r.value| == |GetTarget(env).value| + |UploadSuffix|
      ensures r.value[..|GetTarget(env).value|] == GetTarget(env).value
      ensures r.value[|GetTarget(env).value|..] == UploadSuffix
    {
      // `get_target()?` cannot take its error path: GetTarget is always Ok.
      Ok(GetTarget(env).value + UploadSuffix)
    }

    /** `save_app`: the store after writing this config under `app`. */
    function SaveApp(store: Store, app: string): (s: Store)
      reads this
      ensures Load(s, app) == Value()
      ensures forall other :: other != app ==> Load(s, other) == Load(store, other)
    {
      store[app := Value()]
    }

    /** `update_target`: replaces the target and nothing else. */
    method UpdateTarget(newTarget: string)
      modifies this
      ensures target == newTarget
      ensures version == old(version) && folder == old(folder)
    {
      target := newTarget;
    }

    /** `update_folder`: replaces the folder and nothing else. */
    method UpdateFolder(newFolder: string)
      modifies this
      ensures folder == newFolder
      ensures version == old(version) && target == old(target)
    {
      folder := newFolder;
    }
  }

  /** The two overrides are independent: setting or removing the target
      variable never changes the effective folder, and vice versa. */
  lemma OverridesIndependent(c: ToolConfig, env: Env, v: string)
    ensures c.GetFolder(env[EnvTarget := v]) == c.GetFolder(env)
    ensures c.GetFolder(env - {EnvTarget}) == c.GetFolder(env)
    ensures c.GetTarget(env[EnvFolder := v]) == c.GetTarget(env)
    ensures c.GetTarget(env - {EnvFolder}) == c.GetTarget(env)
  {
  }

  /** Presence decides: whatever is persisted, a present MINIUPLOAD_TARGET,
      even an empty one, is the effective target, and a present
      MINIUPLOAD_FOLDER is the effective folder. */
  lemma PresenceOverrides(c: ToolConfig, env: Env, t: string, f: string)
    ensures c.GetTarget(env[EnvTarget := t]) == Ok(t)
    ensures c.GetFolder(env[EnvFolder := f]) == Ok(f)
    ensures c.GetUploadTarget(env[EnvTarget := ""]) == Ok(UploadSuffix)
  {
  }

  /** A default config read without a target override has the bare suffix as
      its upload endpoint, and an empty effective target and folder. */
  lemma DefaultUploadTarget(c: ToolConfig, env: Env)
    requires c.Value() == DefaultRecord
    requires EnvTarget !in env && EnvFolder !in env
    ensures c.GetUploadTarget(env) == Ok("upload?path=/")
    ensures c.GetTarget(env) == Ok("") && c.GetFolder(env) == Ok("")
  {
  }

  /** The scenario of the unit test `verify_get_behaviour`: a config saved
      with target "MY_TARGET" and folder "MY_FOLDER" and loaded back reads the
      environment's values while both variables are set, and the stored values
      once both are removed. */
  method GetBehaviourScenario(store: Store, app: string, env: Env)
    returns (envTarget: string, envFolder: string, fileTarget: string, fileFolder: string)
    ensures envTarget == "MY_ENV_TARGET" && envFolder == "MY_ENV_FOLDER"
    ensures fileTarget == "MY_TARGET" && fileFolder == "MY_FOLDER"
  {
    var setup := new ToolConfig.Default();
    setup.UpdateTarget("MY_TARGET");
    setup.UpdateFolder("MY_FOLDER");
    var saved := setup.SaveApp(store, app);
    var conf := new ToolConfig.FromApp(saved, app);

    var withVars := env[EnvTarget := "MY_ENV_TARGET"][EnvFolder := "MY_ENV_FOLDER"];
    envTarget := conf.GetTarget(withVars).value;
    envFolder := conf.GetFolder(withVars).value;

    var withoutVars := withVars - {EnvTarget, EnvFolder};
    fileTarget := conf.GetTarget(withoutVars).value;
    fileFolder := conf.GetFolder(withoutVars).value;
  }
}
