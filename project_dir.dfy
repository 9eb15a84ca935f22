/** `create-project-dir.py`: asks for a job id, a client and a survey name,
    composes the project path `/<vessel>/contracts/<job>-<client>-<survey>`
    and, once confirmed, creates the project directory and its nine fixed
    sub-directories, leaving existing ones alone. */
module ProjectDir {
  import opened Wrappers
  import opened PyText

  // ------------------------------------------------------------ names

  /** `s.replace(' ', '_')`. */
  function Underscores(s: string): (r: string)
    ensures |r| == |s| && ' ' !in r
    ensures forall i :: 0 <= i < |s| && s[i] != ' ' ==> r[i] == s[i]
  {
    seq(|s|, i requires 0 <= i < |s| => if s[i] == ' ' then '_' else s[i])
  }

  /** `answer.lower().replace(' ', '_')`: no upper-case letter and no space
      is left, and nothing else moves. */
  function Normalize(answer: string): (r: string)
    ensures |r| == |answer|
    ensures ' ' !in r
    ensures forall i :: 0 <= i < |r| ==> !IsUpper(r[i])
    ensures forall i :: 0 <= i < |answer| && answer[i] != ' ' ==> r[i] == LowerChar(answer[i])
  {
    Underscores(Lower(answer))
  }

  /** Normalising twice is normalising once. */
  lemma NormalizeIdempotent(answer: string)
    ensures Normalize(Normalize(answer)) == Normalize(answer)
  {
    var n := Normalize(answer);
    assert forall i :: 0 <= i < |n| ==> n[i] != ' ';
    LowerKeeps(n);
  }

  /** `posixpath.join(a, b)`: an absolute `b` replaces `a`; otherwise a `/`
      goes between them unless `a` is empty or already ends with one. */
  function Join(a: string, b: string): string
  {
    if b != [] && b[0] == '/' then b
    else if a == [] || a[|a| - 1] == '/' then a + b
    else a + "/" + b
  }

  /** `s[:-4]`: all but the last four characters; empty for a shorter string. */
  function DropLast4(s: string): (r: string)
    ensures |s| <= 4 ==> r == []
    ensures |s| > 4 ==> r + s[|s| - 4..] == s
  {
    if |s| <= 4 then [] else s[..|s| - 4]
  }

  /** The project directory name, `<job>-<client>-<survey>`, each part stripped. */
  function ProjectName(job: string, client: string, survey: string): string
  {
    Strip(job) + "-" + Strip(client) + "-" + Strip(survey)
  }

  /** `proj_dir`: under the root, the host name without its four digits,
      `contracts`, then the project name. */
  function ProjDir(root: string, hostname: string, job: string, client: string, survey: string): string
  {
    Join(Join(Join(root, DropLast4(hostname)), "contracts"), ProjectName(job, client, survey))
  }

  /** On a POSIX root, a host name such as `naila0153` and a job id that
      does not start with `/`, the project lands in `/naila/contracts/`. */
  lemma ProjDirShape(hostname: string, job: string, client: string, survey: string)
    requires |hostname| > 4 && '/' !in hostname
    requires Strip(job) == [] || Strip(job)[0] != '/'
    ensures ProjDir("/", hostname, job, client, survey)
         == "/" + hostname[..|hostname| - 4] + "/" + "contracts" + "/" + ProjectName(job, client, survey)
  {
    var vessel := DropLast4(hostname);
    assert vessel == hostname[..|hostname| - 4];
    assert vessel[0] in hostname && vessel[|vessel| - 1] in hostname;
    var a := "/" + vessel;
    assert Join("/", vessel) == a;
    assert a[|a| - 1] == vessel[|vessel| - 1];
    JoinRelative(a, "contracts");
    var b := a + "/" + "contracts";
    assert b[|b| - 1] == 's';
    var name := ProjectName(job, client, survey);
    assert name[0] == (if Strip(job) == [] then '-' else Strip(job)[0]);
    JoinRelative(b, name);
  }

  // ------------------------------------------------------------ the plan

  /** The sub-directories of `survey-data`, in the order they are created. */
  const SurveyDataDirs := ["segd.segd", "p190.nav", "edit", "vel", "tidal", "segy"]

  /** Every directory the script asks for, in order: the project
      directory, `<job>-RTQC` and `<job>-PROD` (from the job id before it
      was stripped), `survey-data`, then its six sub-directories. */
  function Plan(projDir: string, job: string): seq<string>
  {
    seq(10, i requires 0 <= i < 10 => PlanEntry(projDir, job, i))
  }

  /** The `i`-th directory of the plan. */
  function PlanEntry(projDir: string, job: string, i: nat): string
    requires i < 10
  {
    var sd := Join(projDir, "survey-data");
    if i == 0 then projDir
    else if i == 1 then Join(projDir, job + "-RTQC")
    else if i == 2 then Join(projDir, job + "-PROD")
    else if i == 3 then sd
    else Join(sd, SurveyDataDirs[i - 4])
  }

  /** Joining a relative name to a directory that does not end in `/`
      puts one `/` between them. */
  lemma JoinRelative(a: string, b: string)
    requires a != [] && a[|a| - 1] != '/' && (b == [] || b[0] != '/')
    ensures Join(a, b) == a + "/" + b
  {
  }

  /** With a project directory that does not end in `/` and a job id that
      does not start with one, the plan is the project directory, then
      three children of it, then six children of `survey-data`. */
  lemma PlanShape(projDir: string, job: string)
    requires projDir != [] && projDir[|projDir| - 1] != '/'
    requires job == [] || job[0] != '/'
    ensures var p := Plan(projDir, job);
      var sd := projDir + "/" + "survey-data";
      && |p| == 10 && p[0] == projDir
      && p[1] == projDir + "/" + (job + "-RTQC")
      && p[2] == projDir + "/" + (job + "-PROD")
      && p[3] == sd
      && forall i :: 4 <= i < 10 ==> p[i] == sd + "/" + SurveyDataDirs[i - 4]
  {
    var p := Plan(projDir, job);
    JoinRelative(projDir, job + "-RTQC");
    JoinRelative(projDir, job + "-PROD");
    JoinRelative(projDir, "survey-data");
    var sd := projDir + "/" + "survey-data";
    assert sd[|sd| - 1] == 'a';
    forall i | 4 <= i < 10
      ensures p[i] == sd + "/" + SurveyDataDirs[i - 4]
    {
      assert p[i] == PlanEntry(projDir, job, i);
      JoinRelative(sd, SurveyDataDirs[i - 4]);
    }
  }

  // ------------------------------------------------------- the filesystem

  /** The directories `os.makedirs(p)` leaves existing: `p` and every
      parent of it. */
  function Ancestors(p: string): (r: set<string>)
    ensures p in r
    ensures forall k :: 0 < k < |p| && p[k] == '/' ==> p[..k] in r
  {
    {p} + set k | 0 < k < |p| && p[k] == '/' :: p[..k]
  }

  /** `makedirs(p)` creates nothing but `p` and the prefixes of `p` that
      end before a `/`. */
  lemma AncestorsOnly(p: string, q: string)
    requires q in Ancestors(p)
    ensures q == p || (0 < |q| < |p| && p[..|q|] == q && p[|q|] == '/')
  {
  }

  /** `add_dir`: an existing path is left alone; otherwise the path and its
      missing parents are created, or, where `makedirs` raises, the script
      ends (`None`). */
  function AddDirSpec(dirs: set<string>, denied: set<string>, d: string): (r: Option<set<string>>)
    ensures d in dirs ==> r == Some(dirs)
    ensures r.None? <==> d !in dirs && d in denied
    ensures r.Some? ==> d in r.value && dirs <= r.value <= dirs + Ancestors(d)
    ensures r.Some? && d !in dirs ==> Ancestors(d) <= r.value
  {
    if d in dirs then Some(dirs)
    else if d in denied then None
    else Some(dirs + Ancestors(d))
  }

  /** The directories after a run of `add_dir` calls, and the path where
      the script ended, if one failed. */
  datatype Applied = Applied(dirs: set<string>, failedAt: Option<string>)

  function ApplyPlan(dirs: set<string>, denied: set<string>, paths: seq<string>): (r: Applied)
    ensures dirs <= r.dirs
    ensures r.failedAt.None? ==> forall i :: 0 <= i < |paths| ==> paths[i] in r.dirs
    ensures r.failedAt.Some? ==> r.failedAt.value in paths && r.failedAt.value in denied
    decreases |paths|
  {
    if paths == [] then Applied(dirs, None)
    else match AddDirSpec(dirs, denied, paths[0])
      case None => Applied(dirs, Some(paths[0]))
      case Some(next) => ApplyPlan(next, denied, paths[1..])
  }

  /** Only the planned paths and their parents are ever created. */
  lemma {:induction false} ApplyPlanCreatesOnlyPlanned(dirs: set<string>, denied: set<string>, paths: seq<string>)
    ensures forall q :: q in ApplyPlan(dirs, denied, paths).dirs ==>
      q in dirs || exists i :: 0 <= i < |paths| && q in Ancestors(paths[i])
    decreases |paths|
  {
    if paths != [] && AddDirSpec(dirs, denied, paths[0]).Some? {
      var next := AddDirSpec(dirs, denied, paths[0]).value;
      ApplyPlanCreatesOnlyPlanned(next, denied, paths[1..]);
      forall q | q in ApplyPlan(dirs, denied, paths).dirs
        ensures q in dirs || exists i :: 0 <= i < |paths| && q in Ancestors(paths[i])
      {
        if q !in next {
          var i :| 0 <= i < |paths[1..]| && q in Ancestors(paths[1..][i]);
          assert q in Ancestors(paths[i + 1]);
        } else if q !in dirs {
          assert q in Ancestors(paths[0]);
        }
      }
    }
  }

  /** Once every planned path exists, a second run creates nothing. */
  lemma {:induction false} ApplyPlanIdempotent(dirs: set<string>, denied: set<string>, paths: seq<string>)
    requires forall i :: 0 <= i < |paths| ==> paths[i] in dirs
    ensures ApplyPlan(dirs, denied, paths) == Applied(dirs, None)
    decreases |paths|
  {
    if paths != [] {
      ApplyPlanIdempotent(dirs, denied, paths[1..]);
    }
  }

  lemma SecondRunCreatesNothing(dirs: set<string>, denied: set<string>, paths: seq<string>)
    requires ApplyPlan(dirs, denied, paths).failedAt.None?
    ensures var after := ApplyPlan(dirs, denied, paths).dirs;
      ApplyPlan(after, denied, paths) == Applied(after, None)
  {
    ApplyPlanIdempotent(ApplyPlan(dirs, denied, paths).dirs, denied, paths);
  }

  /** The directory tree: the paths that exist, and the paths `makedirs`
      cannot create. */
  class Tree {
    var dirs: set<string>
    const denied: set<string>

    constructor (dirs: set<string>, denied: set<string>)
      ensures this.dirs == dirs && this.denied == denied
    {
      this.dirs := dirs;
      this.denied := denied;
    }

    /** `add_dir(d)`; `false` where the script ends. */
    method AddDir(d: string) returns (ok: bool)
      modifies this
      ensures ok == AddDirSpec(old(dirs), denied, d).Some?
      ensures dirs == if ok then AddDirSpec(old(dirs), denied, d).value else old(dirs)
    {
      if d in dirs {
        ok := true;
      } else if d in denied {
        ok := false;
      } else {
        dirs := dirs + Ancestors(d);
        ok := true;
      }
    }
  }

  // ------------------------------------------------------------ the script

  lemma ApplyPlanUnfold(dirs: set<string>, denied: set<string>, paths: seq<string>, k: nat)
    requires k < |paths|
    ensures ApplyPlan(dirs, denied, paths[k..]) ==
      match AddDirSpec(dirs, denied, paths[k])
      case None => Applied(dirs, Some(paths[k]))
      case Some(next) => ApplyPlan(next, denied, paths[k + 1..])
  {
    assert paths[k..][1..] == paths[k + 1..];
  }

  /** One `add_dir` call of the plan, the `k`-th: `goal`, what the rest of
      the plan would have done from the directories before the call, is
      what the rest does from the directories after it, or the call is
      where the run ends. */
  method AddPlanned(tree: Tree, d: string, ghost goal: Applied, ghost plan: seq<string>, ghost k: nat)
    returns (ok: bool)
    requires k < |plan| && plan[k] == d
    requires goal == ApplyPlan(tree.dirs, tree.denied, plan[k..])
    modifies tree
    ensures ok ==> goal == ApplyPlan(tree.dirs, tree.denied, plan[k + 1..])
    ensures !ok ==> tree.dirs == goal.dirs && goal.failedAt == Some(d)
  {
    ApplyPlanUnfold(tree.dirs, tree.denied, plan, k);
    ok := tree.AddDir(d);
  }

  /** How the script ends. */
  datatype Exit = Help | InvalidOption | Aborted | CreateFailed(path: string) | Complete

  /** Any argument stops the script before a prompt: `-h`/`--help` alone
      prints the help, anything else the invalid-option message. */
  function ArgvGate(argv: seq<string>): (r: Option<Exit>)
    ensures r.None? <==> |argv| == 1
    ensures r == Some(Help) <==> |argv| == 2 && (argv[1] == "-h" || argv[1] == "--help")
  {
    if |argv| == 1 then None
    else if |argv| == 2 && (argv[1] == "-h" || argv[1] == "--help") then Some(Help)
    else Some(InvalidOption)
  }

  /** `carry_on.strip().lower() == 'y'`. */
  predicate Confirmed(answer: string)
  {
    Lower(Strip(answer)) == "y"
  }

  /** The answer is a yes exactly when, once stripped, it is one `y` or `Y`. */
  lemma ConfirmedIff(answer: string)
    ensures Confirmed(answer) <==> Strip(answer) == "y" || Strip(answer) == "Y"
  {
    var t := Strip(answer);
    if |t| == 1 {
      assert Lower(t) == [LowerChar(t[0])];
      assert t == [t[0]];
    }
  }

  /** The whole script, from the argument check on; `root` is `/` on a
      POSIX system and the three answers and the confirmation are what the
      prompts return. */
  method CreateProjectDir(argv: seq<string>, root: string, hostname: string,
                          job: string, client: string, survey: string, confirm: string, tree: Tree)
    returns (exit: Exit)
    modifies tree
    ensures ArgvGate(argv).Some? ==> exit == ArgvGate(argv).value && tree.dirs == old(tree.dirs)
    ensures ArgvGate(argv).None? && !Confirmed(confirm) ==> exit == Aborted && tree.dirs == old(tree.dirs)
    ensures ArgvGate(argv).None? && Confirmed(confirm) ==>
      var applied := ApplyPlan(old(tree.dirs), tree.denied,
                               Plan(ProjDir(root, hostname, Normalize(job), Normalize(client), Normalize(survey)), Normalize(job)));
      && tree.dirs == applied.dirs
      && exit == (if applied.failedAt.None? then Complete else CreateFailed(applied.failedAt.value))
  {
    var gate := ArgvGate(argv);
    if gate.Some? {
      return gate.value;
    }
    var projNum := Normalize(job);
    var clientName := Normalize(client);
    var survName := Normalize(survey);
    var projDir := ProjDir(root, hostname, projNum, clientName, survName);
    if !Confirmed(confirm) {
      return Aborted;
    }
    exit := MakeProjectDirs(tree, projDir, projNum);
  }

  /** The last six calls of a plan of ten create the children of `sd`. */
  predicate SurveyDataPlanned(plan: seq<string>, sd: string)
  {
    && |plan| == 10
    && plan[4] == Join(sd, "segd.segd") && plan[5] == Join(sd, "p190.nav")
    && plan[6] == Join(sd, "edit") && plan[7] == Join(sd, "vel")
    && plan[8] == Join(sd, "tidal") && plan[9] == Join(sd, "segy")
  }

  /** The plan, call by call, as the script spells the calls out. */
  lemma PlanLayout(projDir: string, job: string)
    ensures var p := Plan(projDir, job);
      && |p| == 10 && p[0] == projDir
      && p[1] == Join(projDir, job + "-RTQC") && p[2] == Join(projDir, job + "-PROD")
      && p[3] == Join(projDir, "survey-data") && SurveyDataPlanned(p, p[3])
  {
  }

  /** The ten `add_dir` calls, in order, after the confirmation. */
  method MakeProjectDirs(tree: Tree, projDir: string, projNum: string) returns (exit: Exit)
    modifies tree
    ensures var applied := ApplyPlan(old(tree.dirs), tree.denied, Plan(projDir, projNum));
      && tree.dirs == applied.dirs
      && exit == (if applied.failedAt.None? then Complete else CreateFailed(applied.failedAt.value))
  {
    ghost var plan := Plan(projDir, projNum);
    PlanLayout(projDir, projNum);
    ghost var goal := ApplyPlan(tree.dirs, tree.denied, plan);
    assert plan[0..] == plan;
    var ok := AddPlanned(tree, projDir, goal, plan, 0);
    if !ok {
      return CreateFailed(projDir);
    }
    exit := MakeJobDirs(tree, projDir, projNum, goal, plan);
  }

  /** `<job>-RTQC`, `<job>-PROD` and `survey-data`, the second to fourth
      calls of the plan. */
  method MakeJobDirs(tree: Tree, ldir: string, projNum: string, ghost goal: Applied, ghost plan: seq<string>)
    returns (exit: Exit)
    requires |plan| == 10 && plan[1] == Join(ldir, projNum + "-RTQC") && plan[2] == Join(ldir, projNum + "-PROD")
    requires plan[3] == Join(ldir, "survey-data") && SurveyDataPlanned(plan, plan[3])
    requires goal == ApplyPlan(tree.dirs, tree.denied, plan[1..])
    modifies tree
    ensures tree.dirs == goal.dirs
    ensures exit == (if goal.failedAt.None? then Complete else CreateFailed(goal.failedAt.value))
  {
    var ndir := Join(ldir, projNum + "-RTQC");
    var ok := AddPlanned(tree, ndir, goal, plan, 1);
    if !ok {
      return CreateFailed(ndir);
    }
    ndir := Join(ldir, projNum + "-PROD");
    ok := AddPlanned(tree, ndir, goal, plan, 2);
    if !ok {
      return CreateFailed(ndir);
    }
    ndir := Join(ldir, "survey-data");
    ok := AddPlanned(tree, ndir, goal, plan, 3);
    if !ok {
      return CreateFailed(ndir);
    }
    exit := MakeSurveyData(tree, ndir, goal, plan);
  }

  /** The six sub-directories of `survey-data`, the last six calls of the plan. */
  method MakeSurveyData(tree: Tree, ldir: string, ghost goal: Applied, ghost plan: seq<string>)
    returns (exit: Exit)
    requires SurveyDataPlanned(plan, ldir)
    requires goal == ApplyPlan(tree.dirs, tree.denied, plan[4..])
    modifies tree
    ensures tree.dirs == goal.dirs
    ensures exit == (if goal.failedAt.None? then Complete else CreateFailed(goal.failedAt.value))
  {
    var ok;
    var ndir := Join(ldir, "segd.segd");
    ok := AddPlanned(tree, ndir, goal, plan, 4);
    if !ok {
      return CreateFailed(ndir);
    }
    ndir := Join(ldir, "p190.nav");
    ok := AddPlanned(tree, ndir, goal, plan, 5);
    if !ok {
      return CreateFailed(ndir);
    }
    ndir := Join(ldir, "edit");
    ok := AddPlanned(tree, ndir, goal, plan, 6);
    if !ok {
      return CreateFailed(ndir);
    }
    exit := MakeSurveyTail(tree, ldir, goal, plan);
  }

  /** The last three calls of the plan: `vel`, `tidal` and `segy`. */
  method MakeSurveyTail(tree: Tree, ldir: string, ghost goal: Applied, ghost plan: seq<string>)
    returns (exit: Exit)
    requires SurveyDataPlanned(plan, ldir)
    requires goal == ApplyPlan(tree.dirs, tree.denied, plan[7..])
    modifies tree
    ensures tree.dirs == goal.dirs
    ensures exit == (if goal.failedAt.None? then Complete else CreateFailed(goal.failedAt.value))
  {
    var ok;
    var ndir := Join(ldir, "vel");
    ok := AddPlanned(tree, ndir, goal, plan, 7);
    if !ok {
      return CreateFailed(ndir);
    }
    ndir := Join(ldir, "tidal");
    ok := AddPlanned(tree, ndir, goal, plan, 8);
    if !ok {
      return CreateFailed(ndir);
    }
    ndir := Join(ldir, "segy");
    ok := AddPlanned(tree, ndir, goal, plan, 9);
    if !ok {
      return CreateFailed(ndir);
    }
    assert plan[10..] == [];
    return Complete;
  }
}
