/** The top-level installer script of the server: the same interpreter
    path, requirement filter, package-name split and Ollama check as the
    install package's script, but requirement installation that stops at
    the first failure, a download without a throttled progress line, and an
    Ollama install that ends as soon as Ollama answers and has no macOS
    branch. Subprocesses and the network are parameters. */
module ServerInstall {
  import opened Wrappers
  import opened Text
  import opened InstallerConfig
  import opened Download
  import opened Requirements
  import opened OllamaSetup
  import opened InstallScript

  /** The index of the first requirement that does not succeed, or the count. */
  function FirstUnsuccessful(requirements: seq<string>, runs: string -> Verdict): (k: nat)
    ensures k <= |requirements|
    ensures forall j :: 0 <= j < k ==> Succeeded(runs(requirements[j]))
    ensures k < |requirements| ==> !Succeeded(runs(requirements[k]))
  {
    if requirements == [] then 0
    else if !Succeeded(runs(requirements[0])) then 0
    else 1 + FirstUnsuccessful(requirements[1..], runs)
  }

  /** `install_requirements`: no file gives False; otherwise the requirements
      in order until the first that is neither already installed nor
      installed now, which gives False with the rest not attempted. */
  method InstallRequirements(file: Option<seq<string>>, show: string -> PipRun, install: string -> PipRun)
    returns (ok: bool, checked: seq<string>)
    ensures file.None? ==> !ok && checked == []
    ensures file.Some? ==>
      var requirements := FilterRequirements(file.value);
      var k := FirstUnsuccessful(requirements, Verdicts(show, install));
      && (ok <==> k == |requirements|)
      && checked == requirements[..if k < |requirements| then k + 1 else k]
  {
    if file.None? {
      return false, [];
    }
    ok, checked := InstallUntilFailure(FilterRequirements(file.value), Verdicts(show, install));
  }

  /** The loop of `install_requirements`, with an early return. */
  method InstallUntilFailure(requirements: seq<string>, runs: string -> Verdict) returns (ok: bool, checked: seq<string>)
    ensures var k := FirstUnsuccessful(requirements, runs);
      && (ok <==> k == |requirements|)
      && checked == requirements[..if k < |requirements| then k + 1 else k]
  {
    checked := [];
    var i := 0;
    while i < |requirements|
      invariant 0 <= i <= |requirements|
      invariant i <= FirstUnsuccessful(requirements, runs)
      invariant checked == requirements[..i]
    {
      var requirement := requirements[i];
      checked := checked + [requirement];
      var v := runs(requirement);
      if !Succeeded(v) {
        return false, checked;
      }
      i := i + 1;
    }
    assert requirements[..i] == requirements;
    ok := true;
  }

  /** The two installers agree when every requirement succeeds, and only
      then: this one answers True exactly when the other counts every
      requirement as a success. A failed pip install makes this one answer
      False, while the other still answers True. */
  lemma InstallersAgreeOnFullSuccess(requirements: seq<string>, runs: string -> Verdict)
    requires forall j :: 0 <= j < |requirements| ==> runs(requirements[j]) != Raised
    ensures FirstUnsuccessful(requirements, runs) == |requirements| <==>
              SuccessCount(requirements, runs) == |requirements|
    ensures FirstRaised(requirements, runs) == |requirements|
  {
    CountedOrReported(requirements, runs);
  }

  /** `download_with_progress`: False when the request fails; otherwise the
      body is written in full and the answer is True. */
  method DownloadWithProgress(url: string, outputPath: Path, response: HttpResponse)
    returns (ok: bool, written: nat)
    ensures ok <==> response.Response?
    ensures ok ==> written == Sum(response.chunks)
    ensures !ok ==> written == 0
  {
    if response.RequestFailed? {
      return false, 0;
    }
    var chunks := response.chunks;
    written := 0;
    for i := 0 to |chunks|
      invariant written == Sum(chunks[..i])
    {
      assert chunks[..i + 1] == chunks[..i] + [chunks[i]];
      SumAppend(chunks[..i], chunks[i]);
      written := written + chunks[i];
    }
    assert chunks[..|chunks|] == chunks;
    ok := true;
  }

  /** `install_ollama` as a specification: True at once when Ollama answers;
      otherwise the win32 or Linux steps and a second check; any other
      platform, macOS included, is unsupported. */
  function InstallOllamaResult(platform: string, before: VersionProbe, env: Environment, after: VersionProbe): bool {
    if IsOllamaInstalled(before).0 then true
    else if platform == "win32" then env.downloads(0).Response? && env.commands(0).Pass? && IsOllamaInstalled(after).0
    else if StartsWith(platform, "linux") then env.script.returnCode == 0 && IsOllamaInstalled(after).0
    else false
  }

  /** `install_ollama`. `installerPresent` says whether a file already sits
      at the installer's path; `downloads` counts the download requests made
      and `leftover` says whether a file is at that path afterwards. */
  method InstallOllama(platform: string, before: VersionProbe, env: Environment, after: VersionProbe,
                       installerPresent: bool)
    returns (ok: bool, downloads: nat, leftover: bool)
    ensures ok == InstallOllamaResult(platform, before, env, after)
    ensures IsOllamaInstalled(before).0 ==> ok && downloads == 0
    ensures downloads == (if !IsOllamaInstalled(before).0 && platform == "win32" then 1 else 0)
    ensures leftover == (installerPresent && downloads == 0)
  {
    downloads, leftover := 0, installerPresent;
    var (installed, _) := IsOllamaInstalled(before);
    if installed {
      return true, downloads, leftover;
    }
    if platform == "win32" {
      var fetched, _ := DownloadWithProgress(WindowsInstallerUrl, env.tempDir + [WindowsInstallerName], env.downloads(0));
      downloads := 1;
      leftover := leftover || fetched;
      ok := fetched && env.commands(0).Pass? && IsOllamaInstalled(after).0;
      // the `finally` clause removes whatever file is at the path
      leftover := false;
    } else if StartsWith(platform, "linux") {
      ok := env.script.returnCode == 0 && IsOllamaInstalled(after).0;
    } else {
      ok := false;
    }
  }

  /** Off macOS, the two scripts' installs agree whenever the install
      package's model check succeeds; when it fails, that script fails
      whatever this one does. */
  lemma InstallOllamaScriptsAgree(platform: string, before: VersionProbe, env: Environment, after: VersionProbe,
                                  modelOk: bool)
    requires platform != "darwin"
    ensures modelOk ==> InstallScript.InstallOllamaResult(platform, before, env, after, modelOk)
                        == InstallOllamaResult(platform, before, env, after)
    ensures !modelOk ==> !InstallScript.InstallOllamaResult(platform, before, env, after, modelOk)
  {
  }

  /** macOS is supported by the install package's script but not by this one. */
  lemma NoMacBranch(before: VersionProbe, env: Environment, after: VersionProbe)
    requires !IsOllamaInstalled(before).0
    ensures !InstallOllamaResult("darwin", before, env, after)
  {
    assert !StartsWith("darwin", "linux") by {
      assert "darwin"[..5] != "linux" by {
        assert "darwin"[0] == 'd';
      }
    }
  }
}
