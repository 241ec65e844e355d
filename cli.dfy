/** The `config` subcommand of the command-line front end (src/main.rs): load
    the persisted config, apply the optional folder and address, optionally
    print the effective values, and save. */
module Cli {
  import opened Wrappers
  import opened Conf

  /** The application name the config is stored under. */
  const AppName: string := "MiniUpload"

  /** The options of `config`: `--folder`, `--address` and `--print`. */
  datatype ConfigArgs = ConfigArgs(folder: Option<string>, address: Option<string>, printValues: bool)

  /** An observable step of the subcommand, in order. */
  datatype Step =
    | LoadConfig(app: string)
    | Println(line: string)
    | SaveConfig(app: string, saved: Record)

  /** The `Commands::Config` arm. The saved record takes the given folder and
      address when they are present and keeps the loaded ones otherwise; the
      version, the environment and the print flag never reach it. It is
      loaded first and saved exactly once, last, after both updates; with
      `--print` the two lines in between show the effective values, in which
      a present environment variable wins over the value just set. */
  method RunConfig(store: Store, env: Env, args: ConfigArgs) returns (saved: Store, steps: seq<Step>)
    ensures forall app | app != AppName :: Load(saved, app) == Load(store, app)
    ensures Load(saved, AppName).version == Load(store, AppName).version
    ensures Load(saved, AppName).folder == args.folder.GetOr(Load(store, AppName).folder)
    ensures Load(saved, AppName).target == args.address.GetOr(Load(store, AppName).target)
    ensures |steps| >= 2 && steps[0] == LoadConfig(AppName)
    ensures steps[|steps| - 1] == SaveConfig(AppName, Load(saved, AppName))
    ensures forall i | 0 <= i < |steps| - 1 :: !steps[i].SaveConfig?
    ensures forall i | 0 < i < |steps| :: !steps[i].LoadConfig?
    ensures !args.printValues ==> |steps| == 2
    ensures args.printValues ==> |steps| == 4
    ensures args.printValues ==> steps[1] == Println("Current Target: " +
      (if EnvTarget in env then env[EnvTarget] else Load(saved, AppName).target))
    ensures args.printValues ==> steps[2] == Println("Current Folder: " +
      (if EnvFolder in env then env[EnvFolder] else Load(saved, AppName).folder))
  {
    var cfg := new ToolConfig.FromApp(store, AppName);
    steps := [LoadConfig(AppName)];

    match args.folder {
      case Some(folder) => cfg.UpdateFolder(folder);
      case None =>
    }

    match args.address {
      case Some(target) => cfg.UpdateTarget(target);
      case None =>
    }

    if args.printValues {
      steps := steps + [Println("Current Target: " + cfg.GetTarget(env).value)];
      steps := steps + [Println("Current Folder: " + cfg.GetFolder(env).value)];
    }

    saved := cfg.SaveApp(store, AppName);
    steps := steps + [SaveConfig(AppName, cfg.Value())];
  }
}
