# miniupload, modelled in Dafny

miniupload is a command-line tool that uploads a local file to a file-server
endpoint, downloads a file from it, and keeps a small persisted configuration
(a target base URL and a remote folder). This project models its core: how the
effective configuration is resolved (an environment variable, when present,
wins over the persisted value), how the upload and download URLs are built by
string concatenation, in what order the tool touches the network and the
disk, and how the `config` subcommand updates and saves the configuration.

Layout:

- `wrappers.dfy` (module `Wrappers`): `Option` and `Result`.
- `conf.dfy` (module `Conf`, src/conf.rs): the `ToolConfig` class with its
  three fields, the environment as an explicit `map<string, string>` (a
  variable is present exactly when it is a key), the persisted store as a
  map from application name to record, the getters and the setters.
- `serv.dfy` (module `Serv`, src/serv.rs): `create_active_folder`,
  `upload_file` and `download` as methods that build their URL step by step
  and return the ordered trace of effects they attempt (existence check,
  mkdir POST, file read, upload POST, file creation, GET, body copy) with the
  outcome (done, a propagated error, or a panic). Whether each effect
  succeeds is an input.
- `cli.dfy` (module `Cli`, src/main.rs): the `Commands::Config` arm.

Two behaviours of the code are worth stating outright, because they are easy
to get wrong:

- An override counts when the variable is present, even when its value is
  empty: `env::var` returning `Ok("")` wins (src/conf.rs:21, 25).
- The folder and its slash enter a URL only when the folder is non-empty
  (`chars().last()` is `Some`); an empty folder adds nothing, not even a
  slash (src/serv.rs:47-53, 76-84).

As written, the two panic messages of `upload_file` read the wrong way round:
a file that does not exist reports "Error evaluating file existence" and a
failed existence query reports "Could not find file to upload". The model
keeps them as written (`Serv.PanicMissing`, `Serv.PanicProbeError`).

## Model

| member | source | states |
|---|---|---|
| Conf.Load | src/conf.rs:16-18 | loading an application's config gives the stored record, or the default record (version 0, empty target and folder) when nothing is stored |
| Conf.SaveLoadRoundTrip | src/conf.rs:34-36 | saving a record and loading it under the same name gives that record back; other applications' records are untouched |
| Conf.ToolConfig.Default | src/conf.rs:47-55 | the default config holds the default record: version 0, an empty target and an empty folder |
| Conf.ToolConfig.FromApp | src/conf.rs:16-18 | a config built from the store holds exactly what loading returns |
| Conf.ToolConfig.GetFolder | src/conf.rs:20-22 | never fails; the effective folder is MINIUPLOAD_FOLDER's value whenever that variable is present, even empty, and the persisted folder otherwise |
| Conf.ToolConfig.GetTarget | src/conf.rs:24-26 | never fails; the effective target is MINIUPLOAD_TARGET's value whenever that variable is present, even empty, and the persisted target otherwise |
| Conf.ToolConfig.GetUploadTarget | src/conf.rs:28-32 | never fails; the upload endpoint is the effective target followed by exactly "upload?path=/" |
| Conf.ToolConfig.SaveApp | src/conf.rs:34-36 | after saving, loading the application's config gives this config's fields; every other application's config is unchanged |
| Conf.ToolConfig.UpdateTarget | src/conf.rs:38-40 | the target becomes the new value; version and folder are unchanged |
| Conf.ToolConfig.UpdateFolder | src/conf.rs:42-44 | the folder becomes the new value; version and target are unchanged |
| Conf.OverridesIndependent | src/conf.rs:5-6 | the two overrides are independent: setting or removing MINIUPLOAD_TARGET never changes the effective folder, and setting or removing MINIUPLOAD_FOLDER never changes the effective target |
| Conf.PresenceOverrides | src/conf.rs:20-26 | whatever is persisted, a present variable is the effective value, so an empty MINIUPLOAD_TARGET yields the bare suffix as upload endpoint |
| Conf.DefaultUploadTarget | src/conf.rs:166-174 | a default config with no override has empty effective target and folder and the upload endpoint "upload?path=/" |
| Conf.GetBehaviourScenario | src/conf.rs:90-146 | a config whose target "MY_TARGET" and folder "MY_FOLDER" were set on a default, saved and loaded back reads "MY_ENV_TARGET" and "MY_ENV_FOLDER" while both variables are set, and the stored values once both are removed |
| Serv.Last | src/serv.rs:13 | `chars().last()` is present exactly when the string is non-empty and is its final character, so a folder is active iff it is non-empty |
| Serv.UploadUrl | src/serv.rs:44-53 | the upload POST URL is the upload endpoint followed by the folder and a slash when the folder is non-empty, and exactly the upload endpoint when it is empty |
| Serv.DownloadUrl | src/serv.rs:73-84 | the download URL is the target, the folder, a slash and the file name when the folder is non-empty, and the target followed directly by the file name when it is empty |
| Serv.CreateActiveFolder | src/serv.rs:9-27 | a mkdir POST is issued iff the effective folder is non-empty, to the upload endpoint with the form field equal to the folder; it fails only when that POST fails |
| Serv.UploadFile | src/serv.rs:29-66 | the existence check is the first and only check; a missing file or a failed check panics with nothing else attempted; the mkdir POST happens iff the file exists and the folder is active, and always before the upload POST; the upload POST is the last action, happens at most once, goes to the endpoint plus folder and slash (endpoint alone for an empty folder), and is reached iff the check, mkdir and file read succeed; the upload is done iff all steps succeed; for an existing file the trace is exactly the check, the mkdir (active folder only), the file read (unless the mkdir failed) and the upload POST (unless the read failed), nothing else |
| Serv.Download | src/serv.rs:68-97 | the destination is created first, so it exists even if the GET fails; the GET is second and is attempted iff creation succeeds, with URL target plus folder and slash plus file name (no slash for an empty folder); the body is copied into the destination iff the GET succeeded; the download is done iff every step succeeds; the trace is exactly the creation, the GET (if creation succeeded) and the copy (if the GET succeeded), nothing else |
| Serv.UploadUrlDeterminesFolder | src/serv.rs:44-53 | the upload URL starts with the upload endpoint, and over one endpoint two folders give the same URL iff they are equal |
| Serv.DownloadUrlDeterminesFile | src/serv.rs:73-84 | the download URL starts with the target and ends with the file name, and for one target and folder two file names give the same URL iff they are equal |
| Serv.DownloadSplitAmbiguous | src/serv.rs:76-84 | the folder/file split cannot be read back from a download URL: folder "docs" with file "a" fetches the same URL as no folder with file "docs/a" |
| Cli.RunConfig | src/main.rs:64-83 | the saved config takes `--folder` and `--address` when given and keeps the loaded values otherwise; version, environment and `--print` never reach it; the config is loaded first and saved exactly once, last, after both updates; with `--print` two lines in between show the effective values, where a present variable wins over the value just set |

## Left out

- Reading and writing the configuration file (confy): the store is a map from application name to record. confy's writing of the default file on a first load, the file format, and load or save errors (a corrupt or unwritable file) are not modelled.
- The second configuration load inside `create_active_folder` (src/serv.rs:10): the model passes the configuration the caller loaded, i.e. one consistent snapshot of disk and environment.
- `env::current_dir` and `PathBuf::push` (src/serv.rs:31-32, 69-70): paths are taken as already resolved strings; the failure of `current_dir` and the panic of `into_string().unwrap()` on a non-Unicode path are not modelled.
- Building the reqwest client and its failure: a failed build is a propagated error in `create_active_folder` and `upload_file` (src/serv.rs:15-17, 55-57) and a panic in `download` after the destination file was created (src/serv.rs:88-91); the model always builds the client, so `Download` never reaches that panic.
- The redirect policy (redirects disabled on every client) is not represented.
- Multipart encoding and response bodies: the file read, the sends and the streaming `copy` are represented only as trace actions whose success is an input.
- Non-Unicode environment values: treated as absent variables.
- Console output of `upload_file` in a debug build (src/serv.rs:62-63) and of `--print`'s formatting beyond the two lines' text.
- Argument parsing by clap and the `Upload` and `Download` dispatch in `main` (src/main.rs:9-62): command-line plumbing.
- The test helper `MultiAssert` (src/conf.rs:62-88): test scaffolding.
