/** Installing the Ollama model server (`OllamaManager`): checking whether
    it answers, the per-platform install steps with their temporary-file
    cleanup, and the wrapping of every failure into one Ollama error. The
    subprocesses, the network and the file system are parameters. */
module OllamaSetup {
  import opened Wrappers
  import opened Text
  import opened InstallErrors
  import opened InstallerConfig
  import opened Progress
  import opened Download

  /** What running `ollama --version` did. */
  datatype VersionProbe = Exited(returnCode: int, stdout: string) | NotFound | ProbeRaised(error: string)

  const NotResponding: string := "Ollama is not responding"
  const NotInPath: string := "Ollama not found in PATH"

  /** `verify_installation`. */
  function VerifyInstallation(probe: VersionProbe): (bool, string) {
    match probe
    case Exited(code, out) => if code == 0 then (true, "Ollama " + Strip(out)) else (false, NotResponding)
    case NotFound => (false, NotInPath)
    case ProbeRaised(e) => (false, e)
  }

  /** Only a zero exit counts as installed, and then the message is the
      stripped version after "Ollama "; each failure has its own message. */
  lemma VerifyInstallationCases(probe: VersionProbe)
    ensures VerifyInstallation(probe).0 <==> probe.Exited? && probe.returnCode == 0
    ensures VerifyInstallation(probe).0 ==>
              StartsWith(VerifyInstallation(probe).1, "Ollama ")
              && VerifyInstallation(probe).1[|"Ollama "|..] == Strip(probe.stdout)
    ensures probe.Exited? && probe.returnCode != 0 ==> VerifyInstallation(probe).1 == NotResponding
    ensures probe.NotFound? ==> VerifyInstallation(probe).1 == NotInPath
    ensures probe.ProbeRaised? ==> VerifyInstallation(probe).1 == probe.error
  {
    if probe.Exited? && probe.returnCode == 0 {
      var m := "Ollama " + Strip(probe.stdout);
      assert m[..|"Ollama "|] == "Ollama ";
    }
  }

  /** The result of the Linux install script. */
  datatype ScriptResult = ScriptResult(returnCode: int, stderr: string)

  /** What the platform steps meet: where temporary files go, the response
      to each download attempt, the outcome of each checked subprocess run in
      order (a failure by its text), and the Linux install script's result. */
  datatype Environment = Environment(
    tempDir: Path,
    downloads: nat -> HttpResponse,
    commands: nat -> Outcome<string>,
    script: ScriptResult)

  /** The outcome of `download` as the text of what it raises. */
  function DownloadStep(url: string, responses: nat -> HttpResponse): Outcome<string> {
    if FirstSuccess(responses, RetryAttempts) < RetryAttempts then Pass
    else Fail(ErrorText(DownloadError(url, AttemptResult(responses(RetryAttempts - 1)).error)))
  }

  /** Runs the first `n` checked commands, stopping at the first that fails. */
  function CommandsStep(commands: nat -> Outcome<string>, n: nat): Outcome<string> {
    if n == 0 then Pass
    else match CommandsStep(commands, n - 1)
      case Fail(e) => Fail(e)
      case Pass => commands(n - 1)
  }

  function WindowsStep(c: PlatformConfig, env: Environment): Outcome<string> {
    match DownloadStep(c.ollamaUrl, env.downloads)
    case Fail(e) => Fail(e)
    case Pass => CommandsStep(env.commands, 1)
  }

  function MacStep(c: PlatformConfig, env: Environment): Outcome<string> {
    match DownloadStep(c.ollamaUrl, env.downloads)
    case Fail(e) => Fail(e)
    case Pass => CommandsStep(env.commands, 3)
  }

  function LinuxStep(env: Environment): Outcome<string> {
    if env.script.returnCode != 0 then Fail(ErrorText(OllamaError("Installation failed: " + env.script.stderr, None)))
    else Pass
  }

  /** The platform dispatch of `install`. */
  function PlatformStep(platform: string, c: PlatformConfig, env: Environment): Outcome<string> {
    if platform == "win32" then WindowsStep(c, env)
    else if platform == "darwin" then MacStep(c, env)
    else if StartsWith(platform, "linux") then LinuxStep(env)
    else Fail(ErrorText(OllamaError("Unsupported platform", Some(platform))))
  }

  /** `install` as a specification: nothing to do when Ollama already
      answers; otherwise the platform step and a second check, with every
      failure wrapped as "Installation failed" carrying the cause's text. */
  function InstallResult(before: VersionProbe, platform: string, c: PlatformConfig, env: Environment,
                         after: VersionProbe): Outcome<InstallError> {
    if VerifyInstallation(before).0 then Pass
    else match PlatformStep(platform, c, env)
      case Fail(e) => Fail(OllamaError("Installation failed", Some(e)))
      case Pass =>
        if VerifyInstallation(after).0 then Pass
        else Fail(OllamaError("Installation failed",
                              Some(ErrorText(OllamaError("Installation verification failed", Some(VerifyInstallation(after).1))))))
  }

  /** Every failure of `install` is an Ollama error whose text starts with
      "Ollama error: Installation failed". */
  lemma InstallFailuresWrapped(before: VersionProbe, platform: string, c: PlatformConfig, env: Environment,
                               after: VersionProbe)
    requires InstallResult(before, platform, c, env, after).Fail?
    ensures var e := InstallResult(before, platform, c, env, after).error;
      e.kind == Ollama && StartsWith(ErrorText(e), "Ollama error: " + "Installation failed")
  {
    var e := InstallResult(before, platform, c, env, after).error;
    var step := PlatformStep(platform, c, env);
    if step.Fail? {
      assert e == OllamaError("Installation failed", Some(step.error));
      OllamaErrorPlatform("Installation failed", Some(step.error));
    } else {
      var inner := ErrorText(OllamaError("Installation verification failed", Some(VerifyInstallation(after).1)));
      assert e == OllamaError("Installation failed", Some(inner));
      OllamaErrorPlatform("Installation failed", Some(inner));
    }
  }

  /** A failed second check is wrapped twice: its text nests the inner
      Ollama error in the platform slot of the outer one. */
  lemma VerificationFailureWrappedTwice(message: string)
    requires message != ""
    ensures var inner := ErrorText(OllamaError("Installation verification failed", Some(message)));
      && inner == "Ollama error: " + "Installation verification failed" + " on platform " + message
      && ErrorText(OllamaError("Installation failed", Some(inner)))
           == "Ollama error: " + "Installation failed" + " on platform " + inner
  {
    OllamaErrorPlatform("Installation verification failed", Some(message));
    var inner := ErrorText(OllamaError("Installation verification failed", Some(message)));
    assert inner != "" by {
      assert |inner| >= |"Ollama error: "|;
    }
    OllamaErrorPlatform("Installation failed", Some(inner));
  }

  class OllamaManager {
    const platform: string
    const config: PlatformConfig
    const spinner: SpinnerProgress
    /** Whether the temporary installer file exists. */
    var tempFilePresent: bool

    ghost predicate Valid(venv: Path)
      reads this
    {
      GetPlatformConfig(platform, venv) == Ok(config)
    }

    /** `__init__` once the platform's settings are known. */
    constructor (platform: string, config: PlatformConfig, tempFilePresent: bool)
      ensures this.platform == platform && this.config == config && this.tempFilePresent == tempFilePresent
      ensures fresh(spinner) && spinner.current == 0 && spinner.message == ""
    {
      this.platform := platform;
      this.config := config;
      spinner := new SpinnerProgress();
      this.tempFilePresent := tempFilePresent;
    }

    /** `_install_windows`: download the installer, run it, and remove the
        installer file whatever happened. */
    method InstallWindows(env: Environment) returns (r: Outcome<string>)
      modifies this, spinner
      ensures r == WindowsStep(config, env)
      ensures !tempFilePresent
    {
      var installer := env.tempDir + [if config.installerName.Some? then config.installerName.value else ""];
      var downloaded, attempts, pauses, created := Download.Download(config.ollamaUrl, installer, env.downloads);
      tempFilePresent := tempFilePresent || created;
      var step: Outcome<string> := if downloaded.Ok? then Pass else Fail(ErrorText(downloaded.error));
      var mark;
      step, mark := spinner.Task("Downloading Ollama", step);
      if step.Pass? {
        step, mark := spinner.Task("Installing Ollama", env.commands(0));
      }
      r := step;
      tempFilePresent := false;
    }

    /** `_install_mac`: download the archive, unpack it, clear the quarantine
        flag and start the app, then remove the archive whatever happened. */
    method InstallMac(env: Environment) returns (r: Outcome<string>)
      modifies this, spinner
      ensures r == MacStep(config, env)
      ensures !tempFilePresent
    {
      var archive := env.tempDir + [if config.installerName.Some? then config.installerName.value else ""];
      var downloaded, attempts, pauses, created := Download.Download(config.ollamaUrl, archive, env.downloads);
      tempFilePresent := tempFilePresent || created;
      var step: Outcome<string> := if downloaded.Ok? then Pass else Fail(ErrorText(downloaded.error));
      var mark;
      step, mark := spinner.Task("Downloading Ollama", step);
      if step.Pass? {
        var k := 0;
        var unpacked: Outcome<string> := Pass;
        while k < 3 && unpacked.Pass?
          invariant 0 <= k <= 3
          invariant unpacked == CommandsStep(env.commands, k)
          invariant unpacked.Fail? ==> CommandsStep(env.commands, 3) == unpacked
        {
          unpacked := env.commands(k);
          k := k + 1;
          if unpacked.Fail? {
            CommandsStepSticks(env.commands, k, 3);
          }
        }
        step, mark := spinner.Task("Installing Ollama", unpacked);
      }
      r := step;
      tempFilePresent := false;
    }

    /** `_install_linux`: run the install script; a non-zero exit raises. */
    method InstallLinux(env: Environment) returns (r: Outcome<string>)
      modifies spinner
      ensures r == LinuxStep(env)
    {
      var step: Outcome<string> := Pass;
      if env.script.returnCode != 0 {
        step := Fail(ErrorText(OllamaError("Installation failed: " + env.script.stderr, None)));
      }
      var mark;
      r, mark := spinner.Task("Installing Ollama", step);
    }

    /** `install`. */
    method Install(before: VersionProbe, env: Environment, after: VersionProbe) returns (r: Outcome<InstallError>)
      modifies this, spinner
      ensures r == InstallResult(before, platform, config, env, after)
      ensures VerifyInstallation(before).0 ==> tempFilePresent == old(tempFilePresent) && unchanged(spinner)
      ensures !VerifyInstallation(before).0 && (platform == "win32" || platform == "darwin") ==> !tempFilePresent
      ensures platform != "win32" && platform != "darwin" ==> tempFilePresent == old(tempFilePresent)
    {
      var (installed, _) := VerifyInstallation(before);
      if installed {
        return Pass;
      }
      var step: Outcome<string>;
      if platform == "win32" {
        step := InstallWindows(env);
      } else if platform == "darwin" {
        step := InstallMac(env);
      } else if StartsWith(platform, "linux") {
        step := InstallLinux(env);
      } else {
        step := Fail(ErrorText(OllamaError("Unsupported platform", Some(platform))));
      }
      if step.Fail? {
        return Fail(OllamaError("Installation failed", Some(step.error)));
      }
      var (ok, message) := VerifyInstallation(after);
      if !ok {
        return Fail(OllamaError("Installation failed",
                                Some(ErrorText(OllamaError("Installation verification failed", Some(message))))));
      }
      r := Pass;
    }
  }

  /** Once a command fails, running more of them keeps that failure. */
  lemma {:induction false} CommandsStepSticks(commands: nat -> Outcome<string>, k: nat, n: nat)
    requires k <= n && CommandsStep(commands, k).Fail?
    ensures CommandsStep(commands, n) == CommandsStep(commands, k)
    decreases n - k
  {
    if k < n {
      CommandsStepSticks(commands, k, n - 1);
    }
  }

  /** `OllamaManager()`: reads the platform's settings first, so an unknown
      platform raises the platform error before any install step exists. */
  method NewOllamaManager(platform: string, venv: Path, tempFilePresent: bool)
    returns (r: Result<OllamaManager, InstallError>)
    ensures r.Err? <==> platform !in {"win32", "darwin", "linux"}
    ensures r.Err? ==> r.error == PlatformError(platform)
    ensures r.Ok? ==> fresh(r.value) && r.value.Valid(venv) && r.value.platform == platform
  {
    var settings := GetPlatformConfig(platform, venv);
    if settings.Err? {
      return Err(settings.error);
    }
    var manager := new OllamaManager(platform, settings.value, tempFilePresent);
    r := Ok(manager);
  }

  /** A manager that could be constructed never takes the unsupported-platform
      branch of `install`: only the three known platforms get that far. */
  lemma ConstructedManagerIsSupported(m: OllamaManager, venv: Path)
    requires m.Valid(venv)
    ensures m.platform == "win32" || m.platform == "darwin" || StartsWith(m.platform, "linux")
  {
    if m.platform == "linux" {
      assert m.platform[..5] == "linux";
    }
  }
}
