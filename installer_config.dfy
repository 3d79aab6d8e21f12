/** The installer's settings (`InstallerConfig`): per-platform download and
    interpreter locations, the model to install and the download tuning.
    Paths are sequences of components. */
module InstallerConfig {
  import opened Wrappers
  import opened InstallErrors

  type Path = seq<string>

  /** `Path.parent`: drops the last component. */
  function Parent(p: Path): Path {
    if p == [] then [] else p[..|p| - 1]
  }

  /** One platform's entry of `PLATFORM_CONFIG`; keys an entry lacks are `None`. */
  datatype PlatformConfig = PlatformConfig(
    ollamaUrl: string,
    installerName: Option<string>,
    installArgs: Option<seq<string>>,
    installPath: Option<Path>,
    pythonPath: Path)

  /** `VENV_DIR`: `.venv` three levels above the settings file. */
  function VenvDir(settingsFile: Path): Path {
    Parent(Parent(Parent(settingsFile))) + [".venv"]
  }

  /** `PLATFORM_CONFIG` for a given `VENV_DIR`. */
  function PlatformTable(venv: Path): map<string, PlatformConfig> {
    map[
      "win32" := PlatformConfig("https://ollama.ai/download/OllamaSetup.exe", Some("OllamaSetup.exe"),
                                Some(["/VERYSILENT", "/NORESTART"]), None, venv + ["Scripts", "python.exe"]),
      "darwin" := PlatformConfig("https://ollama.com/download/Ollama-darwin.zip", Some("Ollama-darwin.zip"),
                                 None, Some(["/", "Applications", "Ollama.app"]), venv + ["bin", "python"]),
      "linux" := PlatformConfig("https://ollama.com/install.sh", None, None, None, venv + ["bin", "python"])
    ]
  }

  const ModelName: string := "codellama"
  const ModelVersion: string := "latest"
  const ChunkSize: nat := 8192
  const DownloadTimeout: nat := 30
  const RetryAttempts: nat := 3
  const RetryDelay: nat := 1

  /** `get_platform_config`: the entry for a known platform, a platform error otherwise. */
  function GetPlatformConfig(platform: string, venv: Path): Result<PlatformConfig, InstallError> {
    var table := PlatformTable(venv);
    if platform !in table then Err(PlatformError(platform)) else Ok(table[platform])
  }

  /** Exactly win32, darwin and linux are supported; any other platform gets
      the "Unsupported platform" error naming it. */
  lemma SupportedPlatforms(platform: string, venv: Path)
    ensures GetPlatformConfig(platform, venv).Ok? <==> platform in {"win32", "darwin", "linux"}
    ensures GetPlatformConfig(platform, venv).Err? ==>
              ErrorText(GetPlatformConfig(platform, venv).error) == "Unsupported platform: " + platform
  {
  }

  /** The interpreter is `Scripts/python.exe` in the environment on win32 and
      `bin/python` elsewhere; only win32 passes installer arguments, and only
      linux has no installer file. */
  lemma PlatformEntries(platform: string, venv: Path)
    requires GetPlatformConfig(platform, venv).Ok?
    ensures var c := GetPlatformConfig(platform, venv).value;
      && c.pythonPath == venv + (if platform == "win32" then ["Scripts", "python.exe"] else ["bin", "python"])
      && (c.installArgs.Some? <==> platform == "win32")
      && (c.installArgs.Some? ==> c.installArgs.value == ["/VERYSILENT", "/NORESTART"])
      && (c.installerName.None? <==> platform == "linux")
  {
  }
}
