/** The pipeline runner (`src/executor/mod.rs`): step results, the
    short-circuiting step loop of `Repository::execute`, the eager
    environment composer `Step::environment`, the local command set-up of
    `sync_execute`, script resolution, and the log layout written by
    `save_to_file`. Running a step is an oracle `run`; the file system is a
    map from path to contents. */
module Executor {
  import opened Wrappers
  import opened Paths
  import opened Config
  import opened Trigger

  newtype byte = x: int | 0 <= x < 256
  newtype int32 = x: int | -0x8000_0000 <= x < 0x8000_0000

  type Bytes = seq<byte>
  type FileStore = map<string, Bytes>

  datatype StepResult = StepResult(status: int32, stdout: Option<Bytes>, stderr: Option<Bytes>)
  {
    /** `StepResult::success`: the step exited with status 0. */
    predicate Success(): (b: bool)
      ensures b <==> status == 0
    {
      status == 0
    }
  }

  /** The overall status and the results of the steps that ran. */
  datatype StepsResult = StepsResult(status: int32, actionResult: seq<StepResult>)
  {
    /** `StepsResult::success`: the run's overall status is 0. */
    predicate Success(): (b: bool)
      ensures b <==> status == 0
    {
      status == 0
    }
  }

  // ---- From<Output> ----

  /** A finished child process: its exit code (absent when a signal
      killed it) and its captured streams. */
  datatype Output = Output(code: Option<int32>, stdout: Bytes, stderr: Bytes)

  function FromOutput(o: Output): (r: StepResult)
    ensures r.stdout == Some(o.stdout) && r.stderr == Some(o.stderr)
    ensures o.code.Some? ==> r.status == o.code.value
    ensures o.code.None? ==> r.Success()
  {
    StepResult(if o.code.Some? then o.code.value else 0, Some(o.stdout), Some(o.stderr))
  }

  // ---- the step loop of Repository::execute ----

  /** Prefixes `done` to the results of a run of the remaining steps. */
  function Extend(done: seq<StepResult>, rest: Result<StepsResult>): Result<StepsResult>
  {
    match rest
    case Err(e) => Err(e)
    case Ok(s) => Ok(StepsResult(s.status, done + s.actionResult))
  }

  /** What running `steps` in order yields: an error from executing a step
      aborts everything; a failing status ends the run with that status. */
  function Pipeline(steps: seq<Step>, run: Step -> Result<StepResult>): (r: Result<StepsResult>)
    ensures r.Ok? ==> |r.value.actionResult| <= |steps|
    ensures r.Ok? ==> (r.value.actionResult == [] <==> steps == [])
    decreases |steps|
  {
    if steps == [] then Ok(StepsResult(0, []))
    else match run(steps[0])
      case Err(e) => Err(e)
      case Ok(r) =>
        if r.Success() then Extend([r], Pipeline(steps[1..], run))
        else Ok(StepsResult(r.status, [r]))
  }

  /** Every step before `k` ran and succeeded. */
  ghost predicate ReachedWithSuccess(steps: seq<Step>, run: Step -> Result<StepResult>, k: nat)
    requires k <= |steps|
  {
    forall j :: 0 <= j < k ==> run(steps[j]).Ok? && run(steps[j]).value.Success()
  }

  /** The recorded results are the results of a prefix of the steps, in
      order; all but the last succeeded; the run stopped early only at a
      failure; the overall status is the last result's status, or 0 when
      nothing ran, and so is 0 exactly when every recorded step succeeded. */
  lemma {:induction false} PipelineShape(steps: seq<Step>, run: Step -> Result<StepResult>)
    requires Pipeline(steps, run).Ok?
    ensures var res := Pipeline(steps, run).value; var n := |res.actionResult|;
      && n <= |steps|
      && (forall j :: 0 <= j < n ==> run(steps[j]) == Ok(res.actionResult[j]))
      && (forall j :: 0 <= j < n - 1 ==> res.actionResult[j].Success())
      && (n < |steps| ==> n > 0 && !res.actionResult[n - 1].Success())
      && res.status == (if n == 0 then 0 else res.actionResult[n - 1].status)
      && (res.Success() <==> forall j :: 0 <= j < n ==> res.actionResult[j].Success())
  {
    if steps != [] {
      var r := run(steps[0]).value;
      if r.Success() {
        PipelineShape(steps[1..], run);
      }
    }
  }

  /** An error from executing a step is the error of the whole run, and
      every step before it ran and succeeded. */
  lemma {:induction false} PipelineError(steps: seq<Step>, run: Step -> Result<StepResult>)
    requires Pipeline(steps, run).Err?
    ensures exists k :: 0 <= k < |steps| && ReachedWithSuccess(steps, run, k) &&
                        run(steps[k]) == Err(Pipeline(steps, run).msg)
  {
    if run(steps[0]).Err? {
      assert ReachedWithSuccess(steps, run, 0);
    } else {
      PipelineError(steps[1..], run);
      var k :| 0 <= k < |steps[1..]| && ReachedWithSuccess(steps[1..], run, k) &&
        run(steps[1..][k]) == Err(Pipeline(steps[1..], run).msg);
      assert ReachedWithSuccess(steps, run, k + 1);
    }
  }

  /** Short circuit: steps after the first failing one are never executed,
      so changing what they would do changes nothing. */
  lemma {:induction false} PipelineIgnoresUnreachedSteps(steps: seq<Step>, run: Step -> Result<StepResult>,
                                                         run': Step -> Result<StepResult>)
    requires forall k :: 0 <= k < |steps| && ReachedWithSuccess(steps, run, k) ==> run'(steps[k]) == run(steps[k])
    ensures Pipeline(steps, run') == Pipeline(steps, run)
  {
    if steps != [] {
      assert ReachedWithSuccess(steps, run, 0);
      if run(steps[0]).Ok? && run(steps[0]).value.Success() {
        forall k | 0 <= k < |steps[1..]| && ReachedWithSuccess(steps[1..], run, k)
          ensures run'(steps[1..][k]) == run(steps[1..][k])
        {
          assert ReachedWithSuccess(steps, run, k + 1);
        }
        PipelineIgnoresUnreachedSteps(steps[1..], run, run');
      }
    }
  }

  lemma ExtendTwice(a: seq<StepResult>, b: seq<StepResult>, rest: Result<StepsResult>)
    ensures Extend(a, Extend(b, rest)) == Extend(a + b, rest)
    ensures Extend([], rest) == rest
  {
    if rest.Ok? {
      assert a + (b + rest.value.actionResult) == (a + b) + rest.value.actionResult;
      assert [] + rest.value.actionResult == rest.value.actionResult;
    }
  }

  lemma PipelineUnfold(steps: seq<Step>, run: Step -> Result<StepResult>, i: nat)
    requires i < |steps|
    ensures run(steps[i]).Ok? && run(steps[i]).value.Success() ==>
      Pipeline(steps[i..], run) == Extend([run(steps[i]).value], Pipeline(steps[i + 1..], run))
    ensures run(steps[i]).Ok? && !run(steps[i]).value.Success() ==>
      Pipeline(steps[i..], run) == Ok(StepsResult(run(steps[i]).value.status, [run(steps[i]).value]))
    ensures run(steps[i]).Err? ==> Pipeline(steps[i..], run) == Err(run(steps[i]).msg)
  {
    assert steps[i..][0] == steps[i];
    assert steps[i..][1..] == steps[i + 1..];
  }

  /** The `for` loop of `Repository::execute` (lines 27-46): it runs the
      steps in order, records each result and stops after the first
      failing one. */
  method RunSteps(steps: seq<Step>, run: Step -> Result<StepResult>) returns (r: Result<StepsResult>)
    ensures r == Pipeline(steps, run)
  {
    var status: int32 := 0;
    var actionResult: seq<StepResult> := [];
    var i := 0;
    ExtendTwice([], [], Pipeline(steps, run));
    while i < |steps|
      invariant 0 <= i <= |steps|
      invariant status == 0
      invariant Pipeline(steps, run) == Extend(actionResult, Pipeline(steps[i..], run))
    {
      PipelineUnfold(steps, run, i);
      var result := run(steps[i]);
      if result.Err? {
        return Err(result.msg);
      }
      ExtendTwice(actionResult, [result.value], Pipeline(steps[i + 1..], run));
      if result.value.Success() {
        actionResult := actionResult + [result.value];
      } else {
        status := result.value.status;
        actionResult := actionResult + [result.value];
        assert Pipeline(steps, run) == Ok(StepsResult(status, actionResult));
        break;
      }
      i := i + 1;
    }
    if i == |steps| {
      assert steps[i..] == [] && actionResult + [] == actionResult;
    }
    r := Ok(StepsResult(status, actionResult));
  }

  // ---- Repository::execute ----

  const MissingStepsMessage: string := "missing steps or steps name is invalid"

  /** A finished run: its results, one URL pair per recorded step, and the
      file store after the logs were written. */
  datatype ExecuteReport = ExecuteReport(result: StepsResult, logs: seq<(string, string)>, files: FileStore)

  /** `Repository::execute` up to the notification: select the step set,
      run it with short circuit, then save the logs under run `runId`. */
  method Execute(repo: Repository, ti: TriggeredInfo, config: Config, run: Step -> Result<StepResult>,
                 runId: string, files: FileStore) returns (r: Result<ExecuteReport>)
    ensures repo.GetSteps(ti.stepsName).None? ==> r == Err(MissingStepsMessage)
    ensures repo.GetSteps(ti.stepsName).Some? ==>
      var p := Pipeline(repo.GetSteps(ti.stepsName).value, run);
      && (p.Err? ==> r == Err(p.msg))
      && (p.Ok? ==> r.Ok? && r.value.result == p.value
                    && r.value.logs == UrlList(config.baseUrl, runId, |p.value.actionResult|)
                    && r.value.files == WriteAll(p.value.actionResult, |p.value.actionResult|,
                                                 config.workDir, runId, files))
  {
    var steps := repo.GetSteps(ti.stepsName);
    if steps.None? {
      return Err(MissingStepsMessage);
    }
    var result :- RunSteps(steps.value, run);
    var logs, saved := SaveStepsResult(result, config.workDir, config.baseUrl, runId, files);
    r := Ok(ExecuteReport(result, logs, saved));
  }

  // ---- Step::environment ----

  const RepositoryKey: string := "TRIGGERED_INFO_REPOSITORY"
  const BranchKey: string := "TRIGGERED_INFO_BRANCH"
  const TagKey: string := "TRIGGERED_INFO_TAG"
  const StepsNameKey: string := "TRIGGERED_INFO_STEPS_NAME"

  /** The variables a trigger contributes: the repository always, the
      branch, tag and step-set name when the trigger carries them. */
  function TriggerVars(ti: TriggeredInfo): (t: Env)
    ensures RepositoryKey in t && t[RepositoryKey] == ti.repository
    ensures (BranchKey in t <==> ti.branch.Some?) && (ti.branch.Some? ==> t[BranchKey] == ti.branch.value)
    ensures (TagKey in t <==> ti.tag.Some?) && (ti.tag.Some? ==> t[TagKey] == ti.tag.value)
    ensures (StepsNameKey in t <==> ti.stepsName.Some?) && (ti.stepsName.Some? ==> t[StepsNameKey] == ti.stepsName.value)
    ensures t.Keys <= {RepositoryKey, BranchKey, TagKey, StepsNameKey}
  {
    map[RepositoryKey := ti.repository]
    + (if ti.branch.Some? then map[BranchKey := ti.branch.value] else map[])
    + (if ti.tag.Some? then map[TagKey := ti.tag.value] else map[])
    + (if ti.stepsName.Some? then map[StepsNameKey := ti.stepsName.value] else map[])
  }

  /** An optional layer, empty when absent. */
  function Layer(e: Option<Env>): Env {
    if e.Some? then e.value else map[]
  }

  /** The composed environment: each layer overrides those below it. */
  function ComposedEnv(global: Option<Env>, repository: Option<Env>, step: Option<Env>,
                       ti: TriggeredInfo): Env
  {
    Layer(global) + Layer(repository) + Layer(step) + TriggerVars(ti)
  }

  /** Every key of every layer is present, and its value comes from the
      highest layer that defines it: trigger > step > repository > global. */
  lemma ComposedEnvPrecedence(global: Option<Env>, repository: Option<Env>, step: Option<Env>,
                              ti: TriggeredInfo, k: string)
    ensures var env := ComposedEnv(global, repository, step, ti);
      var g, r, s, t := Layer(global), Layer(repository), Layer(step), TriggerVars(ti);
      && (k in env <==> k in g || k in r || k in s || k in t)
      && (k in t ==> env[k] == t[k])
      && (k !in t && k in s ==> env[k] == s[k])
      && (k !in t && k !in s && k in r ==> env[k] == r[k])
      && (k !in t && k !in s && k !in r && k in g ==> env[k] == g[k])
  {
  }

  lemma UnionAssociative(a: Env, b: Env, c: Env)
    ensures a + (b + c) == (a + b) + c
  {
  }

  /** Inserting one variable is a union with a one-entry map. */
  lemma InsertIsUnion(a: Env, k: string, v: string)
    ensures a[k := v] == a + map[k := v]
  {
  }

  /** `Step::environment` in `src/executor/mod.rs`: start from the global
      variables, extend with the repository's and the step's, then insert
      the trigger variables one by one. */
  method StepEnvironment(global: Option<Env>, repository: Option<Env>, step: Option<Env>,
                         ti: TriggeredInfo) returns (env: Env)
    ensures env == ComposedEnv(global, repository, step, ti)
  {
    env := match global
      case Some(envs) => envs
      case None => map[];
    if repository.Some? {
      env := env + repository.value;
    }
    if step.Some? {
      env := env + step.value;
    }
    ghost var configured := env;
    assert configured == Layer(global) + Layer(repository) + Layer(step);
    ghost var t1: Env := map[RepositoryKey := ti.repository];
    ghost var t2: Env := if ti.branch.Some? then map[BranchKey := ti.branch.value] else map[];
    ghost var t3: Env := if ti.tag.Some? then map[TagKey := ti.tag.value] else map[];
    ghost var t4: Env := if ti.stepsName.Some? then map[StepsNameKey := ti.stepsName.value] else map[];
    InsertIsUnion(env, RepositoryKey, ti.repository);
    env := env[RepositoryKey := ti.repository];
    if ti.branch.Some? {
      InsertIsUnion(env, BranchKey, ti.branch.value);
      env := env[BranchKey := ti.branch.value];
    }
    assert env == configured + t1 + t2;
    if ti.tag.Some? {
      InsertIsUnion(env, TagKey, ti.tag.value);
      env := env[TagKey := ti.tag.value];
    }
    assert env == configured + t1 + t2 + t3;
    if ti.stepsName.Some? {
      InsertIsUnion(env, StepsNameKey, ti.stepsName.value);
      env := env[StepsNameKey := ti.stepsName.value];
    }
    assert env == configured + t1 + t2 + t3 + t4;
    assert TriggerVars(ti) == t1 + t2 + t3 + t4;
    UnionAssociative(configured, t1 + t2 + t3, t4);
    UnionAssociative(configured, t1 + t2, t3);
    UnionAssociative(configured, t1, t2);
  }

  // ---- get_script_fullname ----

  /** The error for a script path that does not exist. */
  function ScriptMissingMessage(path: string): string {
    "script \"" + path + "\" does not exist"
  }

  /** The path of a script: `<work_dir>/scripts/<name>`, with the current
      directory in front of a relative work directory; the script must exist. */
  function ScriptFullname(workDir: string, name: string, cwd: Result<string>,
                          existing: set<string>): (r: Result<string>)
    ensures r.Ok? ==> r.value in existing
    ensures IsAbsolute(workDir) ==>
      (r.Ok? <==> Join(Join(workDir, "scripts"), name) in existing) &&
      (r.Ok? ==> r.value == Join(Join(workDir, "scripts"), name))
    ensures IsAbsolute(workDir) && r.Err? ==>
      r.msg == ScriptMissingMessage(Join(Join(workDir, "scripts"), name))
    ensures !IsAbsolute(workDir) && cwd.Err? ==> r == Err(cwd.msg)
    ensures !IsAbsolute(workDir) && cwd.Ok? && r.Err? ==>
      r.msg == ScriptMissingMessage(Join(Join(Join(cwd.value, workDir), "scripts"), name))
    ensures !IsAbsolute(workDir) && cwd.Ok? ==>
      (r.Ok? <==> Join(Join(Join(cwd.value, workDir), "scripts"), name) in existing) &&
      (r.Ok? ==> r.value == Join(Join(Join(cwd.value, workDir), "scripts"), name))
  {
    var base :- if IsAbsolute(workDir) then Ok(workDir)
                else match cwd
                  case Ok(c) => Ok(Join(c, workDir))
                  case Err(e) => Err(e);
    var path := Join(Join(base, "scripts"), name);
    if path !in existing then Err(ScriptMissingMessage(path)) else Ok(path)
  }

  /** For an ordinary absolute work directory the script is found at
      `<work_dir>/scripts/<name>`; an absolute script name is used as is. */
  lemma ScriptFullnameShape(workDir: string, name: string, cwd: Result<string>, existing: set<string>)
    requires IsAbsolute(workDir) && workDir[|workDir| - 1] != '/'
    requires ScriptFullname(workDir, name, cwd, existing).Ok?
    ensures !IsAbsolute(name) ==> ScriptFullname(workDir, name, cwd, existing).value == workDir + "/scripts/" + name
    ensures IsAbsolute(name) ==> ScriptFullname(workDir, name, cwd, existing).value == name
  {
    var s := Join(workDir, "scripts");
    assert s == workDir + "/" + "scripts";
    assert s[|s| - 1] == 's';
  }

  // ---- the local branch of sync_execute ----

  /** A child process about to be spawned. */
  datatype Invocation = Invocation(program: string, args: seq<string>,
                                   currentDir: Option<string>, envs: Env)

  /** Where a step runs: a local child process, or over SSH on the named host. */
  datatype Dispatch = Local(invocation: Invocation) | Remote(hostName: string)

  /** The interpreter that runs a local script. */
  const ScriptInterpreter: string := "sh"

  /** `sync_execute` up to the spawn: a step with a host goes to the SSH
      executor; otherwise a command runs its own program, and a script
      runs under `sh`, with the script path as first argument. */
  function PrepareStep(step: Step, config: Config, repo: Repository, ti: TriggeredInfo,
                       cwd: Result<string>, existing: set<string>): (r: Result<Dispatch>)
    requires step.host.None? ==> step.action.Cmd().Valid()
    ensures step.host.Some? ==> r == Ok(Remote(step.host.value))
    ensures step.host.None? ==> r.Ok? ==> r.value.Local?
    ensures step.host.None? && step.action.RunCommand? ==> r.Ok? && r.value.Local?
    ensures step.host.None? && step.action.RunScript? ==>
      var script := ScriptFullname(config.workDir, step.action.name.GetName(), cwd, existing);
      (r.Ok? <==> script.Ok?) && (script.Err? ==> r == Err(script.msg)) &&
      (r.Ok? ==> r.value.Local? && r.value.invocation.program == ScriptInterpreter &&
                 |r.value.invocation.args| > 0 && r.value.invocation.args[0] == script.value)
    ensures step.host.None? && r.Ok? && r.value.Local? ==>
      var inv := r.value.invocation;
      var c := step.action.Cmd();
      && inv.currentDir == step.currentDir
      && inv.envs == ComposedEnv(config.environment, repo.environment, step.environment, ti)
      && (step.action.RunCommand? ==> [inv.program] + inv.args == (if c.Single? then [c.s] else c.w))
      && (step.action.RunScript? ==> inv.args[1..] == (if c.Single? then [] else c.w[1..]))
  {
    match step.host
    case Some(host) => Ok(Remote(host))
    case None =>
      var envs := ComposedEnv(config.environment, repo.environment, step.environment, ti);
      var c := step.action.Cmd();
      var extra := if c.GetArgs().Some? then c.GetArgs().value else [];
      match step.action
      case RunScript(name) =>
        var scriptName :- ScriptFullname(config.workDir, name.GetName(), cwd, existing);
        Ok(Local(Invocation(ScriptInterpreter, [scriptName] + extra, step.currentDir, envs)))
      case RunCommand(command) =>
        Ok(Local(Invocation(command.GetName(), extra, step.currentDir, envs)))
  }

  // ---- save_to_file: log layout ----

  /** `<work_dir>/cache/logs`, the root of all run logs. */
  function LogRoot(workDir: string): string {
    Join(Join(workDir, "cache"), "logs")
  }

  /** `<run_id>/<index>`, the directory of one step's logs relative to the root. */
  function RunDir(runId: string, index: nat): string {
    Join(runId, NatToString(index))
  }

  /** The file a stream (`"1"` stdout, `"2"` stderr) of a step is written to. */
  function StreamPath(workDir: string, parentDir: string, stream: string): string {
    Join(Join(LogRoot(workDir), parentDir), stream)
  }

  /** `<base_url>/logs?id=<parent_dir>/<stream>`. */
  function LogUrl(baseUrl: string, parentDir: string, stream: string): string {
    Join(baseUrl, "logs") + "?id=" + Join(parentDir, stream)
  }

  /** The pair of URLs returned for one step: stdout's, then stderr's. */
  function StepUrls(baseUrl: string, parentDir: string): (string, string) {
    (LogUrl(baseUrl, parentDir, "1"), LogUrl(baseUrl, parentDir, "2"))
  }

  /** The file the log endpoint serves for an `id` (lines 281-284). */
  function LogPathForId(workDir: string, id: string): (p: string)
    ensures !IsAbsolute(id) ==> p == LogRoot(workDir) + "/" + id
    ensures IsAbsolute(id) ==> p == id
  {
    Join(LogRoot(workDir), id)
  }

  /** The files `StepResult::save_to_file` writes: each captured stream, if any. */
  function WriteStep(r: StepResult, workDir: string, parentDir: string, files: FileStore): (f: FileStore)
    ensures f.Keys == files.Keys
                    + (if r.stdout.Some? then {StreamPath(workDir, parentDir, "1")} else {})
                    + (if r.stderr.Some? then {StreamPath(workDir, parentDir, "2")} else {})
  {
    var afterStdout := if r.stdout.Some? then files[StreamPath(workDir, parentDir, "1") := r.stdout.value] else files;
    if r.stderr.Some? then afterStdout[StreamPath(workDir, parentDir, "2") := r.stderr.value] else afterStdout
  }

  /** `StepResult::save_to_file` (lines 113-143): write the captured
      streams and return both URLs, whether or not a stream was written. */
  method SaveStepResult(r: StepResult, workDir: string, baseUrl: string, parentDir: string,
                        files: FileStore) returns (urls: (string, string), files': FileStore)
    ensures urls == StepUrls(baseUrl, parentDir)
    ensures files' == WriteStep(r, workDir, parentDir, files)
  {
    var dir := Join(LogRoot(workDir), parentDir);
    files' := files;
    if r.stdout.Some? {
      files' := files'[Join(dir, "1") := r.stdout.value];
    }
    if r.stderr.Some? {
      files' := files'[Join(dir, "2") := r.stderr.value];
    }
    var url := Join(baseUrl, "logs");
    urls := (url + "?id=" + Join(parentDir, "1"), url + "?id=" + Join(parentDir, "2"));
  }

  /** The files written for the first `count` step results of run `runId`. */
  function WriteAll(results: seq<StepResult>, count: nat, workDir: string, runId: string,
                    files: FileStore): (f: FileStore)
    requires count <= |results|
    ensures files.Keys <= f.Keys
  {
    if count == 0 then files
    else WriteStep(results[count - 1], workDir, RunDir(runId, count - 1),
                   WriteAll(results, count - 1, workDir, runId, files))
  }

  /** The URL pairs returned for the first `count` steps of run `runId`. */
  function UrlList(baseUrl: string, runId: string, count: nat): (urls: seq<(string, string)>)
    ensures |urls| == count
  {
    if count == 0 then [] else UrlList(baseUrl, runId, count - 1) + [StepUrls(baseUrl, RunDir(runId, count - 1))]
  }

  /** The pair at position `i` is that of step `i`. */
  lemma {:induction false} UrlListAt(baseUrl: string, runId: string, count: nat, i: nat)
    requires i < count
    ensures UrlList(baseUrl, runId, count)[i] == StepUrls(baseUrl, RunDir(runId, i))
  {
    var prev := UrlList(baseUrl, runId, count - 1);
    var last := StepUrls(baseUrl, RunDir(runId, count - 1));
    assert UrlList(baseUrl, runId, count) == prev + [last];
    if i < count - 1 {
      UrlListAt(baseUrl, runId, count - 1, i);
      assert (prev + [last])[i] == prev[i];
    }
  }

  /** `StepsResult::save_to_file` (lines 80-91): one pair of URLs per step
      result, in order, under `<run_id>/<index>`. */
  method SaveStepsResult(res: StepsResult, workDir: string, baseUrl: string, runId: string,
                         files: FileStore) returns (urlList: seq<(string, string)>, files': FileStore)
    ensures urlList == UrlList(baseUrl, runId, |res.actionResult|)
    ensures files' == WriteAll(res.actionResult, |res.actionResult|, workDir, runId, files)
  {
    urlList := [];
    files' := files;
    var index := 0;
    while index < |res.actionResult|
      invariant 0 <= index <= |res.actionResult|
      invariant urlList == UrlList(baseUrl, runId, index)
      invariant files' == WriteAll(res.actionResult, index, workDir, runId, files)
    {
      ghost var before := files';
      assert UrlList(baseUrl, runId, index + 1)
          == UrlList(baseUrl, runId, index) + [StepUrls(baseUrl, RunDir(runId, index))];
      assert WriteAll(res.actionResult, index + 1, workDir, runId, files)
          == WriteStep(res.actionResult[index], workDir, RunDir(runId, index), before);
      var url;
      url, files' := SaveStepResult(res.actionResult[index], workDir, baseUrl, RunDir(runId, index), files');
      urlList := urlList + [url];
      index := index + 1;
    }
  }

  // ---- properties of the log layout ----

  /** A stream name: `"1"` for stdout, `"2"` for stderr. */
  predicate IsStream(stream: string) {
    stream == "1" || stream == "2"
  }

  lemma LogRootEndsWithName(workDir: string)
    ensures LogRoot(workDir) != [] && LogRoot(workDir)[|LogRoot(workDir)| - 1] == 's'
  {
  }

  /** A step's log directory is `<run_id>/<index>`: relative, and ending in a digit. */
  lemma RunDirShape(runId: string, i: nat)
    requires IsTmpName(runId, 16)
    ensures RunDir(runId, i) == runId + "/" + NatToString(i)
    ensures !IsAbsolute(RunDir(runId, i)) && IsDigit(RunDir(runId, i)[|RunDir(runId, i)| - 1])
  {
    assert IsAlphanumeric(runId[|runId| - 1]);
    var d := NatToString(i);
    assert (runId + "/" + d)[|runId + "/" + d| - 1] == d[|d| - 1];
  }

  /** Joining two relative components onto a root, in either grouping. */
  lemma JoinTwice(root: string, dir: string, leaf: string)
    requires root != [] && root[|root| - 1] != '/'
    requires dir != [] && !IsAbsolute(dir) && dir[|dir| - 1] != '/'
    requires !IsAbsolute(leaf)
    ensures Join(Join(root, dir), leaf) == root + "/" + dir + "/" + leaf
    ensures Join(root, Join(dir, leaf)) == root + "/" + dir + "/" + leaf
  {
    var rd := root + "/" + dir;
    assert rd[|rd| - 1] == dir[|dir| - 1];
    assert (dir + "/" + leaf)[0] == dir[0];
    assert root + "/" + (dir + "/" + leaf) == root + "/" + dir + "/" + leaf;
  }

  /** With a run id from `tmp_filename`, a stream file sits at
      `<log root>/<run_id>/<index>/<stream>`, and the log endpoint maps the
      id carried by the stream's URL back to that same file. */
  lemma StreamPathShape(workDir: string, runId: string, i: nat, stream: string)
    requires IsTmpName(runId, 16) && IsStream(stream)
    ensures StreamPath(workDir, RunDir(runId, i), stream)
         == LogRoot(workDir) + "/" + (runId + "/" + NatToString(i)) + "/" + stream
    ensures LogPathForId(workDir, Join(RunDir(runId, i), stream)) == StreamPath(workDir, RunDir(runId, i), stream)
  {
    LogRootEndsWithName(workDir);
    RunDirShape(runId, i);
    JoinTwice(LogRoot(workDir), RunDir(runId, i), stream);
  }

  lemma SuffixesDistinct(root: string, runId: string, i: nat, s: string, j: nat, t: string)
    requires IsStream(s) && IsStream(t)
    requires i != j || s != t
    ensures root + "/" + (runId + "/" + NatToString(i)) + "/" + s
         != root + "/" + (runId + "/" + NatToString(j)) + "/" + t
  {
    var p := root + "/" + runId + "/";
    var a := root + "/" + (runId + "/" + NatToString(i)) + "/" + s;
    var b := root + "/" + (runId + "/" + NatToString(j)) + "/" + t;
    Regroup(root, runId, NatToString(i), s);
    Regroup(root, runId, NatToString(j), t);
    if a == b {
      assert a[|a| - 1] == s[0] && b[|b| - 1] == t[0];
      assert s == t;
      MiddleEqual(p, NatToString(i), NatToString(j), "/" + s);
      NatToStringInjective(i, j);
    }
  }

  lemma Regroup(root: string, runId: string, d: string, s: string)
    ensures root + "/" + (runId + "/" + d) + "/" + s == (root + "/" + runId + "/") + d + ("/" + s)
  {
  }

  /** Different steps, or different streams of one step, never share a file. */
  lemma StreamPathsDistinct(workDir: string, runId: string, i: nat, s: string, j: nat, t: string)
    requires IsTmpName(runId, 16) && IsStream(s) && IsStream(t)
    requires i != j || s != t
    ensures StreamPath(workDir, RunDir(runId, i), s) != StreamPath(workDir, RunDir(runId, j), t)
  {
    StreamPathShape(workDir, runId, i, s);
    StreamPathShape(workDir, runId, j, t);
    SuffixesDistinct(LogRoot(workDir), runId, i, s, j, t);
  }

  /** A step's two stream files are different files. */
  lemma StreamFilesDiffer(workDir: string, dir: string)
    ensures StreamPath(workDir, dir, "1") != StreamPath(workDir, dir, "2")
  {
    var out, err := StreamPath(workDir, dir, "1"), StreamPath(workDir, dir, "2");
    assert out[|out| - 1] == '1' && err[|err| - 1] == '2';
  }

  /** Saving one step writes each captured stream to its file, and leaves
      the file of a stream it did not capture, like every other file, alone. */
  lemma WriteStepEffect(r: StepResult, workDir: string, dir: string, files: FileStore, p: string)
    ensures var f := WriteStep(r, workDir, dir, files);
      var out, err := StreamPath(workDir, dir, "1"), StreamPath(workDir, dir, "2");
      && (p != out && p != err ==> (p in f <==> p in files) && (p in files ==> f[p] == files[p]))
      && (r.stdout.Some? ==> out in f && f[out] == r.stdout.value)
      && (r.stdout.None? ==> (out in f <==> out in files) && (out in files ==> f[out] == files[out]))
      && (r.stderr.Some? ==> err in f && f[err] == r.stderr.value)
      && (r.stderr.None? ==> (err in f <==> err in files) && (err in files ==> f[err] == files[err]))
  {
    StreamFilesDiffer(workDir, dir);
  }

  /** Saving a run touches no file other than the stream files of its steps. */
  lemma {:induction false} WriteAllFrame(results: seq<StepResult>, count: nat, workDir: string,
                                         runId: string, files: FileStore, p: string)
    requires count <= |results|
    requires forall i, s :: 0 <= i < count && IsStream(s) ==> p != StreamPath(workDir, RunDir(runId, i), s)
    ensures var f := WriteAll(results, count, workDir, runId, files);
      (p in f <==> p in files) && (p in files ==> f[p] == files[p])
  {
    if count > 0 {
      WriteAllFrame(results, count - 1, workDir, runId, files, p);
      var dir := RunDir(runId, count - 1);
      assert IsStream("1") && IsStream("2");
      WriteStepEffect(results[count - 1], workDir, dir, WriteAll(results, count - 1, workDir, runId, files), p);
    }
  }

  /** The stream a stream name stands for: `"1"` stdout, `"2"` stderr. */
  function Captured(r: StepResult, stream: string): Option<Bytes> {
    if stream == "1" then r.stdout else r.stderr
  }

  /** Saving a step leaves a file of another step alone. */
  lemma WriteStepKeeps(r: StepResult, workDir: string, runId: string, n: nat, files: FileStore,
                       i: nat, stream: string)
    requires IsTmpName(runId, 16) && IsStream(stream) && i != n
    ensures var p := StreamPath(workDir, RunDir(runId, i), stream);
      var f := WriteStep(r, workDir, RunDir(runId, n), files);
      (p in f <==> p in files) && (p in files ==> f[p] == files[p])
  {
    StreamPathsDistinct(workDir, runId, i, stream, n, "1");
    StreamPathsDistinct(workDir, runId, i, stream, n, "2");
    WriteStepEffect(r, workDir, RunDir(runId, n), files, StreamPath(workDir, RunDir(runId, i), stream));
  }

  /** Saving a step puts each captured stream in its own file. */
  lemma WriteStepWrites(r: StepResult, workDir: string, runId: string, i: nat, files: FileStore,
                        stream: string)
    requires IsTmpName(runId, 16) && IsStream(stream)
    ensures var p := StreamPath(workDir, RunDir(runId, i), stream);
      var f := WriteStep(r, workDir, RunDir(runId, i), files);
      Captured(r, stream).Some? ==> p in f && f[p] == Captured(r, stream).value
  {
    StreamPathsDistinct(workDir, runId, i, "1", i, "2");
    WriteStepEffect(r, workDir, RunDir(runId, i), files, StreamPath(workDir, RunDir(runId, i), stream));
  }

  /** After saving the first `count` results, each captured stream of
      step `i` is in its own file. */
  lemma {:induction false} SavedStream(results: seq<StepResult>, count: nat, workDir: string,
                                       runId: string, files: FileStore, i: nat, stream: string)
    requires IsTmpName(runId, 16) && IsStream(stream) && i < count <= |results|
    ensures var saved := WriteAll(results, count, workDir, runId, files);
      var p := StreamPath(workDir, RunDir(runId, i), stream);
      Captured(results[i], stream).Some? ==> p in saved && saved[p] == Captured(results[i], stream).value
  {
    var n := count - 1;
    var before := WriteAll(results, n, workDir, runId, files);
    if n == i {
      WriteStepWrites(results[n], workDir, runId, n, before, stream);
    } else {
      SavedStream(results, n, workDir, runId, files, i, stream);
      WriteStepKeeps(results[n], workDir, runId, n, before, i, stream);
    }
  }

  /** Log persistence round trip: after saving the first `count` results,
      the file the log endpoint serves for a step's stream id holds exactly
      the bytes that step captured. */
  lemma SavedLogRoundTrip(results: seq<StepResult>, count: nat, workDir: string,
                          runId: string, files: FileStore, i: nat)
    requires IsTmpName(runId, 16) && i < count <= |results|
    ensures var saved := WriteAll(results, count, workDir, runId, files);
      && (results[i].stdout.Some? ==>
            LogPathForId(workDir, Join(RunDir(runId, i), "1")) in saved &&
            saved[LogPathForId(workDir, Join(RunDir(runId, i), "1"))] == results[i].stdout.value)
      && (results[i].stderr.Some? ==>
            LogPathForId(workDir, Join(RunDir(runId, i), "2")) in saved &&
            saved[LogPathForId(workDir, Join(RunDir(runId, i), "2"))] == results[i].stderr.value)
  {
    StreamPathShape(workDir, runId, i, "1");
    StreamPathShape(workDir, runId, i, "2");
    SavedStream(results, count, workDir, runId, files, i, "1");
    SavedStream(results, count, workDir, runId, files, i, "2");
  }

  /** The URLs carry `<base_url>/logs?id=<run_id>/<index>/<stream>`. */
  lemma StepUrlsShape(baseUrl: string, runId: string, i: nat)
    requires baseUrl != [] && baseUrl[|baseUrl| - 1] != '/'
    requires IsTmpName(runId, 16)
    ensures StepUrls(baseUrl, RunDir(runId, i))
         == (baseUrl + "/logs?id=" + runId + "/" + NatToString(i) + ("/" + "1"),
             baseUrl + "/logs?id=" + runId + "/" + NatToString(i) + ("/" + "2"))
  {
    RunDirShape(runId, i);
    var dir := RunDir(runId, i);
    assert Join(dir, "1") == dir + "/" + "1" && Join(dir, "2") == dir + "/" + "2";
    assert Join(baseUrl, "logs") == baseUrl + "/" + "logs";
    assert LogUrl(baseUrl, dir, "1") == baseUrl + "/" + "logs" + "?id=" + (dir + "/" + "1");
    assert LogUrl(baseUrl, dir, "2") == baseUrl + "/" + "logs" + "?id=" + (dir + "/" + "2");
    UrlText(baseUrl, runId, NatToString(i), "1");
    UrlText(baseUrl, runId, NatToString(i), "2");
  }

  lemma UrlText(baseUrl: string, runId: string, d: string, stream: string)
    requires |stream| == 1
    ensures baseUrl + "/" + "logs" + "?id=" + (runId + "/" + d + "/" + stream)
         == baseUrl + "/logs?id=" + runId + "/" + d + ("/" + stream)
  {
  }
}
