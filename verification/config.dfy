/** The configuration entities (`src/config.rs`): hosts, repositories,
    the three accepted shapes of a repository's step sets, steps, actions
    and commands, and how a step set and a command are read out of them. */
module Config {
  import opened Wrappers

  type Env = map<string, string>

  /** A remote host; `port` is a `u16` in the configuration file. */
  datatype Host = Host(hostname: string, port: Option<nat>, user: string)

  /** A program name, alone or as the first word of an argument list. */
  datatype Command = Single(s: string) | WithArgs(w: seq<string>)
  {
    /** `get_name` indexes `w[0]`, which panics on an empty list. */
    predicate Valid() {
      WithArgs? ==> |w| > 0
    }

    /** `get_name`: the program, which for a word list is its first word. */
    function GetName(): (n: string)
      requires Valid()
      ensures Single? ==> n == s
      ensures WithArgs? ==> w == [n] + w[1..]
    {
      match this
      case Single(s) => s
      case WithArgs(w) => w[0]
    }

    /** `get_args`: none for a plain command; otherwise the words after
        the name, so that name and arguments give back the word list. */
    function GetArgs(): (a: Option<seq<string>>)
      requires Valid()
      ensures a.None? <==> Single?
      ensures a.Some? ==> [GetName()] + a.value == w
    {
      match this
      case Single(_) => None
      case WithArgs(w) => Some(w[1..])
    }
  }

  /** What a step does: run a command, or run a script found under
      `<work_dir>/scripts`. */
  datatype Action = RunCommand(command: Command) | RunScript(name: Command)
  {
    function Cmd(): Command {
      match this
      case RunCommand(c) => c
      case RunScript(n) => n
    }
  }

  datatype Step = Step(host: Option<string>, currentDir: Option<string>,
                       environment: Option<Env>, action: Action)

  /** One step or a list of steps. */
  datatype Steps = OneStep(step: Step) | StepList(list: seq<Step>)
  {
    /** `Steps::get`: the steps as a slice; never absent. */
    function Get(): (r: Option<seq<Step>>)
      ensures r.Some?
      ensures OneStep? ==> r.value == [step]
      ensures StepList? ==> r.value == list
    {
      match this
      case StepList(m) => Some(m)
      case OneStep(s) => Some([s])
    }
  }

  /** A repository's step sets: one anonymous set, or a map of named sets. */
  datatype CompositeSteps = Named(sets: map<string, Steps>) | Unnamed(steps: Steps)

  const DefaultStepsName: string := "default"

  datatype Repository = Repository(name: string, environment: Option<Env>,
                                   branch: Option<string>, tag: Option<string>,
                                   steps: CompositeSteps)
  {
    /** `Repository::get_steps`: the step set a trigger asks for. */
    function GetSteps(stepsName: Option<string>): (r: Option<seq<Step>>)
      ensures steps.Unnamed? ==> r.Some? && r == steps.steps.Get()
      ensures steps.Named? ==>
        (r.Some? <==> (if stepsName.Some? then stepsName.value else DefaultStepsName) in steps.sets)
      ensures steps.Named? && r.Some? ==>
        r == steps.sets[if stepsName.Some? then stepsName.value else DefaultStepsName].Get()
    {
      match steps
      case Named(m) =>
        var key := if stepsName.Some? then stepsName.value else DefaultStepsName;
        if key in m then m[key].Get() else None
      case Unnamed(s) => s.Get()
    }
  }

  datatype Config = Config(baseUrl: string, workDir: string, environment: Option<Env>,
                           host: map<string, Host>, repository: seq<Repository>)

  // ---- properties of the step-set accessor ----

  /** Without a name, a map of step sets is consulted at `"default"`. */
  lemma GetStepsDefault(r: Repository)
    requires r.steps.Named?
    ensures r.GetSteps(None) == r.GetSteps(Some("default"))
  {
  }

  /** A named set is found exactly when its key is present; a missing key
      yields nothing rather than falling back to another set. */
  lemma GetStepsByName(r: Repository, name: string)
    requires r.steps.Named?
    ensures name in r.steps.sets ==> r.GetSteps(Some(name)) == Some(r.steps.sets[name].Get().value)
    ensures name !in r.steps.sets ==> r.GetSteps(Some(name)) == None
  {
  }

  /** An unnamed step set is returned whatever name the trigger asks for. */
  lemma GetStepsIgnoresName(r: Repository, a: Option<string>, b: Option<string>)
    requires r.steps.Unnamed?
    ensures r.GetSteps(a) == r.GetSteps(b) == r.steps.steps.Get()
    ensures r.GetSteps(a).Some?
  {
  }
}
