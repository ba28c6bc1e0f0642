/** The clone step: the `git clone` command line for a URL, a target path
    and a depth choice, and the choice of target path. Running git, the
    timeout, and the reports printed after the clone are left out; the
    temporary directory's random name is an input. */
module Clone {
  import opened Common
  import opened Paths

  /** The `--depth` value a depth choice asks for: 100 commits for
      `shallow`, one for `minimal`, none for `full` or anything else. */
  function DepthValue(depth: string): Option<string> {
    if depth == "shallow" then Some("100")
    else if depth == "minimal" then Some("1")
    else None
  }

  /** The command `clone_repository` runs. */
  function CloneCommand(url: string, target: string, depth: string): (cmd: seq<string>)
    ensures |cmd| == 5 || |cmd| == 7
    ensures cmd[0] == "git" && cmd[1] == "clone"
    ensures cmd[|cmd| - 2] == url && cmd[|cmd| - 1] == target
    ensures cmd[|cmd| - 3] == "--recurse-submodules"
    ensures forall k :: 0 <= k < |cmd| - 3 ==> cmd[k] != "--recurse-submodules"
  {
    var flags := match DepthValue(depth)
      case Some(n) => ["--depth", n]
      case None => [];
    ["git", "clone"] + flags + ["--recurse-submodules"] + [url, target]
  }

  /** The depth value and the two positional arguments of a command line of
      the shape `CloneCommand` builds. */
  datatype CloneArgs = CloneArgs(depth: Option<string>, url: string, target: string)

  /** Reads a clone command line back. */
  function ParseCommand(cmd: seq<string>): (a: Option<CloneArgs>)
    ensures a.Some? ==> |cmd| >= 2 && cmd[|cmd| - 2] == a.value.url && cmd[|cmd| - 1] == a.value.target
  {
    if |cmd| == 5 && cmd[0] == "git" && cmd[1] == "clone" && cmd[2] == "--recurse-submodules"
    then Some(CloneArgs(None, cmd[3], cmd[4]))
    else if |cmd| == 7 && cmd[0] == "git" && cmd[1] == "clone" && cmd[2] == "--depth"
            && cmd[4] == "--recurse-submodules"
    then Some(CloneArgs(Some(cmd[3]), cmd[5], cmd[6]))
    else None
  }

  /** The command carries exactly the depth value the choice asks for, the
      URL and the target: a `--depth` flag for `shallow` (100) and `minimal`
      (1) only, so seven arguments then and five otherwise. */
  lemma CommandRoundTrip(url: string, target: string, depth: string)
    ensures ParseCommand(CloneCommand(url, target, depth)) == Some(CloneArgs(DepthValue(depth), url, target))
    ensures |CloneCommand(url, target, depth)| == 7 <==> depth == "shallow" || depth == "minimal"
  {
  }

  /** Python's `os.path.join(a, b)` for a relative `b`. */
  function JoinPath(a: string, b: string): string {
    if a == "" || a[|a| - 1] == '/' then a + b else a + "/" + b
  }

  lemma {:induction false} JoinPathParts(a: string, b: string)
    requires CleanPart(b)
    ensures Parts(JoinPath(a, b)) == Parts(a) + [b]
  {
    if a == "" {
      SplitNoSeparator(b);
      CleanOfClean([b]);
      assert JoinPath(a, b) == b;
      assert Parts(a) == [];
    } else if a[|a| - 1] == '/' {
      var a' := a[..|a| - 1];
      assert a == a' + "/" + "";
      assert a + b == a' + "/" + b;
      PartsAppend(a', b);
      SplitAtSeparator(a', "");
      CleanAppend(Split(a'), Split(""));
    } else {
      PartsAppend(a, b);
    }
  }

  const TempPrefix: string := "prod_readiness_"

  /** `tempfile.mkdtemp(prefix="prod_readiness_")` in the temporary root
      `root`, with `random` the generated part of the name. */
  function MakeTempDir(root: string, random: string): string
    requires '/' !in random
  {
    JoinPath(root, TempPrefix + random)
  }

  /** The clone target: the output path when one is given (and non-empty),
      otherwise `project` inside a fresh temporary directory. */
  function TargetPath(output: Option<string>, root: string, random: string): (t: string)
    requires '/' !in random
    ensures output.Some? && output.value != "" ==> Parts(t) == Parts(output.value) && Root(t) == Root(output.value)
  {
    if output.Some? && output.value != "" then
      NormalizeKeepsParts(output.value);
      Normalize(output.value)
    else Child(MakeTempDir(root, random), "project")
  }

  /** Without an output path the target is a directory named `project` whose
      parent is named with the `prod_readiness_` prefix and sits in the
      temporary root. */
  lemma TempTargetNames(root: string, random: string)
    requires '/' !in random
    ensures Name(TargetPath(None, root, random)) == "project"
    ensures Name(Parent(TargetPath(None, root, random))) == TempPrefix + random
    ensures Parts(Parent(TargetPath(None, root, random))) == Parts(root) + [TempPrefix + random]
  {
    var dir := MakeTempDir(root, random);
    var name := TempPrefix + random;
    assert '/' !in name by {
      assert forall k :: 0 <= k < |TempPrefix| ==> name[k] == TempPrefix[k];
      assert forall k :: |TempPrefix| <= k < |name| ==> name[k] == random[k - |TempPrefix|];
    }
    assert name[0] == 'p';
    JoinPathParts(root, name);
    ChildNames(dir, "project");
    var t := Child(dir, "project");
    PartsOfRender(Root(dir), Parts(dir) + ["project"]);
    var ps := Parts(dir) + ["project"];
    assert ps[..|ps| - 1] == Parts(dir);
    PartsOfRender(Root(t), Parts(dir));
  }

  /** `clone_repository`'s command for a run: URL, chosen target, depth. */
  function CloneRun(url: string, output: Option<string>, depth: string, root: string, random: string): (cmd: seq<string>)
    requires '/' !in random
    ensures |cmd| >= 5 && cmd[|cmd| - 1] == TargetPath(output, root, random)
  {
    CloneCommand(url, TargetPath(output, root, random), depth)
  }
}
