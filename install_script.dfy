/** The stand-alone installer script of the install package: the virtual
    environment's interpreter path, requirement installation that counts
    successes and carries on past failures, a download whose progress line
    is throttled to 5 % steps, the Ollama check and install, and the check
    for the CodeLlama model. Subprocesses, the network and the Ollama
    client are parameters. */
module InstallScript {
  import opened Wrappers
  import opened Text
  import opened InstallerConfig
  import opened Progress
  import opened Download
  import opened Requirements
  import opened OllamaSetup

  /** `create_and_activate_venv`'s result: the interpreter inside `.venv`. */
  function VenvPython(platform: string): (p: Path)
    ensures |p| == 3 && p[0] == ".venv"
  {
    if platform == "win32" then [".venv", "Scripts", "python.exe"] else [".venv", "bin", "python"]
  }

  /** For every platform of the installer's table, the script's interpreter is
      the one the table names for a `.venv` directory. */
  lemma VenvPythonMatchesTable(platform: string)
    requires GetPlatformConfig(platform, [".venv"]).Ok?
    ensures VenvPython(platform) == GetPlatformConfig(platform, [".venv"]).value.pythonPath
  {
    PlatformEntries(platform, [".venv"]);
  }

  // ---------------------------------------------------------------------
  // Requirements

  /** A subprocess run whose return code is looked at: it exits with a code
      or raises. */
  datatype PipRun = Exit(code: int) | RunRaised(error: string)

  /** How one requirement ends: `pip show` on its module name finds it, or
      `pip install` of the whole requirement line succeeds or fails, or one
      of the two runs raises. */
  datatype Verdict = AlreadyInstalled | NewlyInstalled | InstallFailed | Raised

  function VerdictOf(requirement: string, show: string -> PipRun, install: string -> PipRun): Verdict {
    match show(ModuleName(requirement))
    case RunRaised(_) => Raised
    case Exit(c) =>
      if c == 0 then AlreadyInstalled
      else match install(requirement)
        case RunRaised(_) => Raised
        case Exit(d) => if d == 0 then NewlyInstalled else InstallFailed
  }

  predicate Succeeded(v: Verdict) {
    v == AlreadyInstalled || v == NewlyInstalled
  }

  /** The verdict of every requirement, for the given pip runs. */
  function Verdicts(show: string -> PipRun, install: string -> PipRun): string -> Verdict {
    requirement => VerdictOf(requirement, show, install)
  }

  /** The index of the first requirement whose runs raise, or the count. */
  function FirstRaised(requirements: seq<string>, verdict: string -> Verdict): (k: nat)
    ensures k <= |requirements|
    ensures forall j :: 0 <= j < k ==> verdict(requirements[j]) != Raised
    ensures k < |requirements| ==> verdict(requirements[k]) == Raised
  {
    if requirements == [] then 0
    else if verdict(requirements[0]) == Raised then 0
    else 1 + FirstRaised(requirements[1..], verdict)
  }

  /** How many requirements succeeded. */
  function SuccessCount(requirements: seq<string>, verdict: string -> Verdict): nat {
    if requirements == [] then 0
    else SuccessCount(requirements[..|requirements| - 1], verdict)
         + (if Succeeded(verdict(requirements[|requirements| - 1])) then 1 else 0)
  }

  /** The requirements reported as failed to install, in order. */
  function Failures(requirements: seq<string>, verdict: string -> Verdict): seq<string> {
    if requirements == [] then []
    else Failures(requirements[..|requirements| - 1], verdict)
         + (if verdict(requirements[|requirements| - 1]) == InstallFailed then [requirements[|requirements| - 1]] else [])
  }

  /** When nothing raises, every requirement is either counted as a success
      or reported as failed, never both and never neither. */
  lemma {:induction false} CountedOrReported(requirements: seq<string>, verdict: string -> Verdict)
    requires forall j :: 0 <= j < |requirements| ==> verdict(requirements[j]) != Raised
    ensures SuccessCount(requirements, verdict) + |Failures(requirements, verdict)| == |requirements|
    ensures SuccessCount(requirements, verdict) == |requirements| <==>
              forall j :: 0 <= j < |requirements| ==> Succeeded(verdict(requirements[j]))
  {
    if requirements != [] {
      var n := |requirements| - 1;
      var init := requirements[..n];
      assert forall j :: 0 <= j < |init| ==> init[j] == requirements[j];
      CountedOrReported(init, verdict);
      if SuccessCount(requirements, verdict) == |requirements| {
        assert SuccessCount(init, verdict) <= |init|;
        forall j | 0 <= j < |requirements|
          ensures Succeeded(verdict(requirements[j]))
        {
          if j < n {
            assert init[j] == requirements[j];
          }
        }
      }
    }
  }

  /** `install_requirements`: no file gives False before any run; otherwise
      each requirement in order, counting successes and reporting failures
      without stopping; a run that raises gives False at once. */
  method InstallRequirements(file: Option<seq<string>>, show: string -> PipRun, install: string -> PipRun)
    returns (ok: bool, successCount: nat, failed: seq<string>, checked: seq<string>)
    ensures file.None? ==> !ok && successCount == 0 && failed == [] && checked == []
    ensures file.Some? ==>
      var requirements := FilterRequirements(file.value);
      var verdict := Verdicts(show, install);
      var k := FirstRaised(requirements, verdict);
      && (ok <==> k == |requirements|)
      && successCount == SuccessCount(requirements[..k], verdict)
      && failed == Failures(requirements[..k], verdict)
      && checked == requirements[..if k < |requirements| then k + 1 else k]
  {
    if file.None? {
      return false, 0, [], [];
    }
    ok, successCount, failed, checked := InstallEach(FilterRequirements(file.value), Verdicts(show, install));
  }

  /** The loop of `install_requirements`; `runs` gives the verdict of the pip
      runs for each requirement. */
  method InstallEach(requirements: seq<string>, runs: string -> Verdict)
    returns (ok: bool, successCount: nat, failed: seq<string>, checked: seq<string>)
    ensures var k := FirstRaised(requirements, runs);
      && (ok <==> k == |requirements|)
      && successCount == SuccessCount(requirements[..k], runs)
      && failed == Failures(requirements[..k], runs)
      && checked == requirements[..if k < |requirements| then k + 1 else k]
  {
    successCount, failed, checked := 0, [], [];
    var i := 0;
    while i < |requirements|
      invariant 0 <= i <= |requirements|
      invariant i <= FirstRaised(requirements, runs)
      invariant successCount == SuccessCount(requirements[..i], runs)
      invariant failed == Failures(requirements[..i], runs)
      invariant checked == requirements[..i]
    {
      var requirement := requirements[i];
      assert requirements[..i + 1][..i] == requirements[..i];
      checked := checked + [requirement];
      var v := runs(requirement);
      if v == Raised {
        return false, successCount, failed, checked;
      }
      if Succeeded(v) {
        successCount := successCount + 1;
      } else {
        failed := failed + [requirement];
      }
      i := i + 1;
    }
    assert requirements[..i] == requirements;
    ok := true;
  }

  /** A failed install does not make the script fail: with nothing raising,
      the script answers True and counts fewer successes than requirements
      exactly when some requirement failed. */
  lemma FailuresStillSucceed(requirements: seq<string>, verdict: string -> Verdict)
    requires forall j :: 0 <= j < |requirements| ==> verdict(requirements[j]) != Raised
    ensures FirstRaised(requirements, verdict) == |requirements|
    ensures SuccessCount(requirements, verdict) < |requirements| <==>
              exists j :: 0 <= j < |requirements| && verdict(requirements[j]) == InstallFailed
  {
    CountedOrReported(requirements, verdict);
  }

  // ---------------------------------------------------------------------
  // Download with a throttled progress line

  /** The download loop's variables and the progress lines printed so far. */
  datatype Meter = Meter(downloaded: nat, lastPercent: int, printed: seq<int>)

  /** One chunk: add its length; when the size is known, print the whole
      percent if it has risen by at least 5 since the last print. */
  function Feed(m: Meter, chunk: nat, total: int): Meter {
    var downloaded := m.downloaded + chunk;
    if total != 0 && TruncDiv(downloaded * 100, total) >= m.lastPercent + 5 then
      var percent := TruncDiv(downloaded * 100, total);
      Meter(downloaded, percent, m.printed + [percent])
    else Meter(downloaded, m.lastPercent, m.printed)
  }

  /** The chunks in order, up to the first empty read (the end of the body). */
  function FeedAll(m: Meter, chunks: seq<nat>, total: int): Meter
    decreases |chunks|
  {
    if chunks == [] || chunks[0] == 0 then m
    else FeedAll(Feed(m, chunks[0], total), chunks[1..], total)
  }

  /** Each printed percent is at least 5 above the one before it, the first
      at least 5 above where the count started. */
  predicate Spaced(printed: seq<int>, start: int) {
    && (printed != [] ==> printed[0] >= start + 5)
    && forall i :: 0 < i < |printed| ==> printed[i] >= printed[i - 1] + 5
  }

  predicate Tracks(m: Meter, start: int) {
    Spaced(m.printed, start)
    && m.lastPercent == (if m.printed == [] then start else m.printed[|m.printed| - 1])
  }

  /** The throttle: what is printed stays spaced by at least 5, earlier lines
      are never changed, and `last_percent` never decreases. */
  lemma {:induction false} ThrottleSpacing(m: Meter, chunks: seq<nat>, total: int, start: int)
    requires Tracks(m, start)
    ensures var r := FeedAll(m, chunks, total);
      && Tracks(r, start)
      && r.lastPercent >= m.lastPercent
      && |m.printed| <= |r.printed|
      && r.printed[..|m.printed|] == m.printed
    decreases |chunks|
  {
    if chunks != [] && chunks[0] != 0 {
      var n := Feed(m, chunks[0], total);
      assert n.printed[..|m.printed|] == m.printed;
      ThrottleSpacing(n, chunks[1..], total, start);
      var r := FeedAll(n, chunks[1..], total);
      assert r.printed[..|n.printed|][..|m.printed|] == r.printed[..|m.printed|];
    }
  }

  /** With no usable content-length nothing is printed. */
  lemma {:induction false} UnknownSizeNoProgress(m: Meter, chunks: seq<nat>)
    ensures FeedAll(m, chunks, 0).printed == m.printed
    decreases |chunks|
  {
    if chunks != [] && chunks[0] != 0 {
      UnknownSizeNoProgress(Feed(m, chunks[0], 0), chunks[1..]);
    }
  }

  /** `download_with_progress`: False when the request fails, otherwise True
      after writing the body and printing the throttled progress lines. */
  method DownloadWithProgress(url: string, outputPath: Path, response: HttpResponse)
    returns (ok: bool, downloaded: nat, printed: seq<int>)
    ensures ok <==> response.Response?
    ensures !ok ==> downloaded == 0 && printed == []
    ensures ok ==>
      var r := FeedAll(Meter(0, 0, []), response.chunks, TotalSize(response));
      downloaded == r.downloaded && printed == r.printed
  {
    if response.RequestFailed? {
      return false, 0, [];
    }
    var total := TotalSize(response);
    var chunks := response.chunks;
    var lastPercent := 0;
    downloaded, printed := 0, [];
    var i := 0;
    while i < |chunks| && chunks[i] != 0
      invariant 0 <= i <= |chunks|
      invariant FeedAll(Meter(downloaded, lastPercent, printed), chunks[i..], total)
                == FeedAll(Meter(0, 0, []), chunks, total)
    {
      assert chunks[i..][1..] == chunks[i + 1..];
      downloaded := downloaded + chunks[i];
      if total != 0 {
        var percent := TruncDiv(downloaded * 100, total);
        if percent >= lastPercent + 5 {
          printed := printed + [percent];
          lastPercent := percent;
        }
      }
      i := i + 1;
    }
    ok := true;
  }

  // ---------------------------------------------------------------------
  // Ollama

  const NotInstalled: string := "Ollama is not installed or not in PATH"
  const CheckFailed: string := "Error checking Ollama installation: "

  /** `is_ollama_installed`. */
  function IsOllamaInstalled(probe: VersionProbe): (bool, string) {
    match probe
    case Exited(code, out) => if code == 0 then (true, "Ollama " + Strip(out)) else (false, NotInstalled)
    case NotFound => (false, NotInstalled)
    case ProbeRaised(e) => (false, CheckFailed + e)
  }

  /** The script's check agrees with the installer's `verify_installation`
      on the verdict and on the version message; only the failure messages
      differ, and a missing binary reads like a non-zero exit. */
  lemma IsOllamaInstalledAgrees(probe: VersionProbe)
    ensures IsOllamaInstalled(probe).0 == VerifyInstallation(probe).0
    ensures IsOllamaInstalled(probe).0 ==> IsOllamaInstalled(probe).1 == VerifyInstallation(probe).1
    ensures !IsOllamaInstalled(probe).0 && !probe.ProbeRaised? ==> IsOllamaInstalled(probe).1 == NotInstalled
    ensures probe.ProbeRaised? ==> IsOllamaInstalled(probe).1 == CheckFailed + probe.error
  {
  }

  /** What `client.list()` gave: a response with model names, one of an
      unexpected shape, or an error. */
  datatype ModelList = Models(names: seq<string>) | UnexpectedFormat | ListFailed(error: string)

  datatype PullResult = Pulled | PullFailed(error: string)

  /** Each model name without its `:tag`. */
  function Untagged(names: seq<string>): (r: seq<string>)
    ensures |r| == |names|
    ensures forall i :: 0 <= i < |names| ==> r[i] == BeforeFirst(names[i], ":")
  {
    if names == [] then [] else [BeforeFirst(names[0], ":")] + Untagged(names[1..])
  }

  /** `check_and_install_model` with the Ollama client library: success
      without a pull when an installed model is CodeLlama under any tag,
      otherwise the result of pulling it. Returns the verdict and whether a
      pull was started. */
  function CheckAndInstallModel(list: ModelList, pull: PullResult): (bool, bool) {
    match list
    case ListFailed(_) => (false, false)
    case _ =>
      var names := if list.Models? then Untagged(list.names) else [];
      if ModelName in names then (true, false)
      else (pull.Pulled?, true)
  }

  /** The module `check_and_install_model` imports is the installer's own
      `core.ollama`, which defines these names and no `Client`. */
  const OwnOllamaModuleNames: set<string> :=
    {"sys", "os", "time", "subprocess", "Path", "Tuple", "InstallerConfig", "OllamaError",
     "SpinnerProgress", "Downloader", "OllamaManager"}

  /** `check_and_install_model` as written: `ollama.Client()` is looked up on
      that module, the lookup raises, and the outer handler returns False. */
  function CheckAndInstallModelAsWritten(list: ModelList, pull: PullResult): (bool, bool) {
    if "Client" in OwnOllamaModuleNames then CheckAndInstallModel(list, pull) else (false, false)
  }

  /** As written, the model check fails whatever Ollama has installed, even
      when CodeLlama is already present (compare `ModelCheckFindsAnyTag`). */
  lemma AsWrittenModelCheckAlwaysFails(list: ModelList, pull: PullResult)
    ensures CheckAndInstallModelAsWritten(list, pull) == (false, false)
  {
    assert |"Client"| == 6;
  }

  /** The text before the first ':' of `a:b` is `a` when `a` has no ':'. */
  lemma {:induction false} UntagColon(a: string, b: string)
    requires ':' !in a
    ensures BeforeFirst(a + ":" + b, ":") == a
    decreases |a|
  {
    var s := a + ":" + b;
    if a == [] {
      assert s[..1] == ":";
    } else {
      assert s[..1] != ":" by {
        assert s[0] == a[0];
      }
      assert s[1..] == a[1..] + ":" + b;
      UntagColon(a[1..], b);
    }
  }

  /** A name without ':' has no tag to remove. */
  lemma {:induction false} UntaggedName(a: string)
    requires ':' !in a
    ensures BeforeFirst(a, ":") == a
    decreases |a|
  {
    if a != [] {
      assert a[..1] != ":" by {
        assert a[..1][0] == a[0];
      }
      UntaggedName(a[1..]);
    }
  }

  /** The corrected check: CodeLlama under any tag, or untagged, is found and
      nothing is pulled; when no installed model is CodeLlama the answer is
      the pull's. */
  lemma ModelCheckFindsAnyTag(names: seq<string>, tag: string, pull: PullResult)
    ensures CheckAndInstallModel(Models(names + [ModelName + ":" + tag]), pull) == (true, false)
    ensures CheckAndInstallModel(Models(names + [ModelName]), pull) == (true, false)
    ensures (forall i :: 0 <= i < |names| ==> BeforeFirst(names[i], ":") != ModelName) ==>
              CheckAndInstallModel(Models(names), pull) == (pull.Pulled?, true)
  {
    assert ':' !in ModelName;
    UntagColon(ModelName, tag);
    UntaggedName(ModelName);
    var tagged := Untagged(names + [ModelName + ":" + tag]);
    assert tagged[|names|] == ModelName;
    var plain := Untagged(names + [ModelName]);
    assert plain[|names|] == ModelName;
  }

  const WindowsInstallerUrl: string := "https://ollama.ai/download/OllamaSetup.exe"
  const WindowsInstallerName: string := "OllamaSetup.exe"
  const MacArchiveUrl: string := "https://ollama.com/download/Ollama-darwin.zip"
  const MacArchiveName: string := "Ollama-darwin.zip"

  /** `install_ollama` as a specification, given what `check_and_install_model`
      returns: an installed Ollama goes straight to the model check;
      otherwise the platform's steps, a second check, and the model check
      only when that one succeeds. The download uses the first response, the
      installer commands the first (win32) or first three (darwin) command
      outcomes. */
  function InstallOllamaResult(platform: string, before: VersionProbe, env: Environment, after: VersionProbe,
                               modelOk: bool): bool {
    var finish := IsOllamaInstalled(after).0 && modelOk;
    if IsOllamaInstalled(before).0 then modelOk
    else if platform == "win32" then env.downloads(0).Response? && env.commands(0).Pass? && finish
    else if platform == "darwin" then env.downloads(0).Response? && CommandsStep(env.commands, 3).Pass? && finish
    else if StartsWith(platform, "linux") then env.script.returnCode == 0 && finish
    else false
  }

  /** Whether `install_ollama` downloads an installer: only when Ollama does
      not answer and the platform is Windows or macOS. */
  predicate DownloadsInstaller(platform: string, before: VersionProbe) {
    !IsOllamaInstalled(before).0 && (platform == "win32" || platform == "darwin")
  }

  /** `install_ollama`, composed with the model check whose result is
      `modelCheck` (`CheckAndInstallModel` in this model; the code as
      written calls `CheckAndInstallModelAsWritten`). `installerPresent` says
      whether a file already sits at the installer's path; `downloads`
      counts download requests and `leftover` says whether a file is at
      that path afterwards. */
  method InstallOllama(platform: string, before: VersionProbe, env: Environment, after: VersionProbe,
                       modelCheck: bool, installerPresent: bool)
    returns (ok: bool, downloads: nat, leftover: bool)
    ensures ok == InstallOllamaResult(platform, before, env, after, modelCheck)
    ensures downloads == if DownloadsInstaller(platform, before) then 1 else 0
    ensures leftover == (installerPresent && !DownloadsInstaller(platform, before))
  {
    downloads, leftover := 0, installerPresent;
    var (installed, _) := IsOllamaInstalled(before);
    if installed {
      ok := modelCheck;
      return;
    }
    if platform == "win32" || platform == "darwin" {
      var url := if platform == "win32" then WindowsInstallerUrl else MacArchiveUrl;
      var name := if platform == "win32" then WindowsInstallerName else MacArchiveName;
      var downloaded, _, _ := DownloadWithProgress(url, env.tempDir + [name], env.downloads(0));
      downloads := 1;
      leftover := leftover || downloaded;
      ok := downloaded;
      if ok {
        var step := if platform == "win32" then env.commands(0) else CommandsStep(env.commands, 3);
        ok := step.Pass?;
      }
      if ok {
        ok := IsOllamaInstalled(after).0 && modelCheck;
      }
      // the `finally` clause removes whatever file is at the path
      leftover := false;
    } else if StartsWith(platform, "linux") {
      ok := env.script.returnCode == 0;
      if ok {
        ok := IsOllamaInstalled(after).0 && modelCheck;
      }
    } else {
      ok := false;
    }
  }

  /** Composed with the model check as written, `install_ollama` never
      succeeds, on any platform and whatever Ollama answers. */
  lemma InstallOllamaAsWrittenFails(platform: string, before: VersionProbe, env: Environment, after: VersionProbe,
                                    list: ModelList, pull: PullResult)
    ensures !InstallOllamaResult(platform, before, env, after, CheckAndInstallModelAsWritten(list, pull).0)
  {
    AsWrittenModelCheckAlwaysFails(list, pull);
  }

  /** With the corrected check, success means Ollama answered (before or
      after the platform's steps) and CodeLlama is present or was pulled;
      an Ollama that already answers leads to the model check alone, and
      an unsupported platform always fails. */
  lemma InstallOllamaSucceedsOnlyWithModel(platform: string, before: VersionProbe, env: Environment,
                                           after: VersionProbe, list: ModelList, pull: PullResult)
    ensures InstallOllamaResult(platform, before, env, after, CheckAndInstallModel(list, pull).0) ==>
              (IsOllamaInstalled(before).0 || IsOllamaInstalled(after).0) && CheckAndInstallModel(list, pull).0
    ensures IsOllamaInstalled(before).0 ==>
              InstallOllamaResult(platform, before, env, after, CheckAndInstallModel(list, pull).0)
              == CheckAndInstallModel(list, pull).0
    ensures !IsOllamaInstalled(before).0 && platform != "win32" && platform != "darwin" && !StartsWith(platform, "linux") ==>
              !InstallOllamaResult(platform, before, env, after, CheckAndInstallModel(list, pull).0)
  {
  }
}
