/** Python package installation from `requirements.txt`
    (`RequirementsManager`), together with the requirement-line filter and
    the package-name split that the stand-alone install scripts share.
    The file system and pip are parameters. */
module Requirements {
  import opened Wrappers
  import opened Text
  import opened InstallErrors
  import opened InstallerConfig
  import opened Progress

  /** Whether a line of the file is a requirement: not blank once stripped,
      and not a comment, which is judged on the unstripped line. */
  predicate Kept(line: string) {
    Strip(line) != "" && !StartsWith(line, "#")
  }

  /** The requirements in a file: the stripped kept lines, in file order. */
  function FilterRequirements(lines: seq<string>): seq<string> {
    if lines == [] then []
    else (if Kept(lines[0]) then [Strip(lines[0])] else []) + FilterRequirements(lines[1..])
  }

  /** Every requirement comes from a kept line, every kept line gives one, and
      none is blank or padded. */
  lemma {:induction false} FilterRequirementsExactly(lines: seq<string>)
    ensures |FilterRequirements(lines)| <= |lines|
    ensures forall x :: x in FilterRequirements(lines) <==> exists l :: l in lines && Kept(l) && x == Strip(l)
    ensures forall x :: x in FilterRequirements(lines) ==> x != "" && Strip(x) == x
  {
    if lines != [] {
      FilterRequirementsExactly(lines[1..]);
      forall x | x in FilterRequirements(lines)
        ensures x != "" && Strip(x) == x
      {
        if Kept(lines[0]) && x == Strip(lines[0]) {
          StripIdempotent(lines[0]);
        }
      }
      assert forall l :: l in lines <==> l == lines[0] || l in lines[1..];
    }
  }

  /** A comment is dropped only when `#` is the line's first character: an
      indented comment stays, as its stripped text. */
  lemma IndentedCommentKept(comment: string)
    requires Strip(comment) == comment && comment != "" && comment[0] == '#'
    ensures FilterRequirements([" " + comment]) == [comment]
    ensures FilterRequirements([comment]) == []
  {
    var line := " " + comment;
    assert TrimStart(line) == TrimStart(comment) by {
      assert line[1..] == comment;
    }
    StripFixesUnpadded(comment);
    assert !StartsWith(line, "#") by {
      assert line[0] == ' ';
    }
  }

  /** The package name of a requirement: the text before the first `==`,
      then before `>=`, then before `<=`, stripped. */
  function ModuleName(requirement: string): string {
    Strip(BeforeFirst(BeforeFirst(BeforeFirst(requirement, "=="), ">="), "<="))
  }

  /** The unstripped name is a prefix of the requirement holding none of the
      three operators, and a requirement without any operator is its own name. */
  lemma ModuleNameSpec(requirement: string)
    ensures var cut := BeforeFirst(BeforeFirst(BeforeFirst(requirement, "=="), ">="), "<=");
      && StartsWith(requirement, cut)
      && !Contains(cut, "==") && !Contains(cut, ">=") && !Contains(cut, "<=")
      && ModuleName(requirement) == Strip(cut)
    ensures !Contains(requirement, "==") && !Contains(requirement, ">=") && !Contains(requirement, "<=") ==>
              ModuleName(requirement) == Strip(requirement)
  {
    var a := BeforeFirst(requirement, "==");
    var b := BeforeFirst(a, ">=");
    var c := BeforeFirst(b, "<=");
    BeforeFirstHasNoSeparator(requirement, "==");
    BeforeFirstHasNoSeparator(a, ">=");
    BeforeFirstHasNoSeparator(b, "<=");
    BeforeFirstIsPrefix(requirement, "==");
    BeforeFirstIsPrefix(a, ">=");
    BeforeFirstIsPrefix(b, "<=");
    PrefixKeepsAbsence(a, b, "==");
    PrefixKeepsAbsence(b, c, "==");
    PrefixKeepsAbsence(b, c, ">=");
    assert StartsWith(requirement, c) by {
      assert c == b[..|c|] && b == a[..|b|] && a == requirement[..|a|];
    }
    if !Contains(requirement, "==") && !Contains(requirement, ">=") && !Contains(requirement, "<=") {
      BeforeFirstAbsent(requirement, "==");
      BeforeFirstAbsent(a, ">=");
      BeforeFirstAbsent(b, "<=");
    }
  }

  /** A prefix of a string without `sub` does not hold `sub` either. */
  lemma {:induction false} PrefixKeepsAbsence(s: string, p: string, sub: string)
    requires StartsWith(s, p) && !Contains(s, sub)
    ensures !Contains(p, sub)
    decreases |p|
  {
    if |sub| <= |p| {
      assert p[..|sub|] == s[..|sub|];
    }
    if |p| > 0 {
      assert p[1..] == s[1..][..|p| - 1];
      PrefixKeepsAbsence(s[1..], p[1..], sub);
    }
  }

  /** `pip install`, as `check=True` sees it. */
  datatype PipResult = Installed | PipFailed(stderr: string)

  const RequirementsFile: string := "requirements.txt"
  const MissingFile: string := "File not found in server directory"

  /** Where the requirements file is looked up: three levels above the interpreter. */
  function RequirementsPath(pythonPath: Path): Path {
    Parent(Parent(Parent(pythonPath))) + [RequirementsFile]
  }

  /** For the configured interpreter of any platform, the requirements file
      sits beside the `.venv` directory. */
  lemma RequirementsBesideVenv(platform: string, venv: Path)
    requires venv != [] && GetPlatformConfig(platform, venv).Ok?
    ensures RequirementsPath(GetPlatformConfig(platform, venv).value.pythonPath) == Parent(venv) + [RequirementsFile]
  {
    var python := GetPlatformConfig(platform, venv).value.pythonPath;
    assert Parent(python) == venv + [python[|python| - 2]];
    assert Parent(Parent(python)) == venv;
  }

  /** `parse_requirements` on the file's lines, or `None` when there is no file. */
  function ParseRequirements(file: Option<seq<string>>): (r: Result<seq<string>, InstallError>)
    ensures r.Err? <==> file.None?
    ensures r.Err? ==> r.error == RequirementsError(RequirementsFile, MissingFile)
    ensures r.Ok? ==> r.value == FilterRequirements(file.value)
  {
    if file.None? then Err(RequirementsError(RequirementsFile, MissingFile))
    else Ok(FilterRequirements(file.value))
  }

  /** The index of the first requirement pip fails on, or the count. */
  function FirstFailure(requirements: seq<string>, pip: string -> PipResult): (k: nat)
    ensures k <= |requirements|
    ensures forall j :: 0 <= j < k ==> pip(requirements[j]).Installed?
    ensures k < |requirements| ==> pip(requirements[k]).PipFailed?
  {
    if requirements == [] then 0
    else if pip(requirements[0]).PipFailed? then 0
    else 1 + FirstFailure(requirements[1..], pip)
  }

  class RequirementsManager {
    const pythonPath: Path

    constructor (pythonPath: Path)
      ensures this.pythonPath == pythonPath
    {
      this.pythonPath := pythonPath;
    }

    /** `install_package`: a failing pip raises a requirements error naming the package. */
    method InstallPackage(package: string, pip: string -> PipResult) returns (r: Outcome<InstallError>)
      ensures r.Pass? <==> pip(package).Installed?
      ensures r.Fail? ==> r.error == RequirementsError(package, pip(package).stderr)
    {
      match pip(package) {
        case Installed => r := Pass;
        case PipFailed(stderr) => r := Fail(RequirementsError(package, stderr));
      }
    }

    /** `install_all`: installs the requirements one by one in file order,
        each inside a progress task, and stops at the first failure. */
    method InstallAll(file: Option<seq<string>>, pip: string -> PipResult)
      returns (r: Outcome<InstallError>, attempted: seq<string>, bar: ProgressBar?)
      ensures file.None? ==> r == Fail(ParseRequirements(file).error) && attempted == [] && bar == null
      ensures file.Some? ==>
        var requirements := FilterRequirements(file.value);
        var k := FirstFailure(requirements, pip);
        && bar != null && fresh(bar) && bar.total == |requirements|
        && (r.Pass? <==> k == |requirements|)
        && attempted == requirements[..if k < |requirements| then k + 1 else k]
        && (r.Fail? ==> r.error == RequirementsError(requirements[k], pip(requirements[k]).stderr))
        && (requirements != [] ==> bar.current == bar.total)
    {
      var parsed := ParseRequirements(file);
      if parsed.Err? {
        return Fail(parsed.error), [], null;
      }
      var requirements := parsed.value;
      bar := new ProgressBar(|requirements|, "Installing packages", 50);
      attempted := [];
      var i := 0;
      while i < |requirements|
        invariant 0 <= i <= |requirements|
        invariant bar.total == |requirements|
        invariant attempted == requirements[..i]
        invariant forall j :: 0 <= j < i ==> pip(requirements[j]).Installed?
        invariant i > 0 ==> bar.current == bar.total
        invariant 0 <= bar.current <= bar.total
      {
        var requirement := requirements[i];
        attempted := attempted + [requirement];
        var installed := InstallPackage(requirement, pip);
        if installed.Fail? {
          var exited := bar.ExitTask();
          FirstFailureIs(requirements, pip, i);
          assert attempted == requirements[..i + 1];
          return installed, attempted, bar;
        }
        var shown := bar.Update(None);
        var exited := bar.ExitTask();
        i := i + 1;
      }
      FirstFailureIs(requirements, pip, i);
      assert requirements[..i] == requirements;
      r := Pass;
    }
  }

  lemma {:induction false} FirstFailureIs(requirements: seq<string>, pip: string -> PipResult, k: nat)
    requires k <= |requirements|
    requires forall j :: 0 <= j < k ==> pip(requirements[j]).Installed?
    requires k < |requirements| ==> pip(requirements[k]).PipFailed?
    ensures FirstFailure(requirements, pip) == k
    decreases k
  {
    if k > 0 {
      FirstFailureIs(requirements[1..], pip, k - 1);
    }
  }
}
