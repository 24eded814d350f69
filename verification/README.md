# delivery_station, modelled in Dafny

delivery_station is a webhook-driven deploy tool. A trigger event names a
repository, and optionally a branch, a tag and a step-set name. The
event is matched against the configured repositories and their
branch/tag filters. On a match, the repository's steps run in order,
locally or over SSH, until the first step fails. Each step's output is
saved under `<work_dir>/cache/logs/<run_id>/<index>/{1,2}`, and the run
returns one pair of log URLs per step.

This project models the decision logic of that pipeline:

- `Config` (`src/config.rs`): the configuration entities. It covers
  step-set resolution (`get_steps`, `Steps::get`) and how a command is
  split into a program name and arguments.
- `Trigger` (`src/trigger/mod.rs`): `delivery`. It finds the repository
  by name, applies the branch and tag filters (with the `@any` wildcard),
  returns the boolean answer and decides whether a run is spawned.
- `Executor` (`src/executor/mod.rs`):
  - the short-circuiting step loop of `Repository::execute`, as the
    method `RunSteps`, proved equal to the specification function
    `Pipeline`, with its properties proved as lemmas;
  - `From<Output>`;
  - the eager environment composer, as the method `StepEnvironment`,
    proved equal to `ComposedEnv`;
  - script resolution (`get_script_fullname`);
  - the local branch of `sync_execute`;
  - the log layout and URLs of both `save_to_file` methods, over a file
    store held in a map from path to contents: the per-step save as
    straight-line code, the per-run save as a loop over the results,
    with the round trip from a log URL's id back to the bytes saved.
- `Environment` (`src/executor/environment.rs`): the lazy composer, as
  the class `EnvironmentIter`. Its fields are the four sub-iterators and
  `Next` advances them. The model proves that consuming the chain in
  order with last-write-wins gives the eager composer's map, whatever
  order each `HashMap` iterates in.
- `Ssh` (`src/executor/ssh.rs`): the parts of `Step::ssh` that are not
  I/O:
  - the port;
  - the private-key choice;
  - the name of the uploaded script;
  - the quoted remote command line, with a parser proving it can be read
    back when no quotes are involved and the argument list, if there is
    one, is non-empty, and a lemma showing where it cannot (an empty list
    reads back as one empty argument);
  - the ordered stages of a run and their error propagation, over given
    outcomes for each I/O stage.
- `Paths`: Unix `Path::join` and decimal index rendering, which the log
  layout relies on.
- `Wrappers`: `Option` and `Result`.

Running a step (spawning a process or opening an SSH session) is an
oracle `run: Step -> Result<StepResult>`. The current directory, `$HOME`,
the set of existing files and the random names from `tmp_filename` are
parameters.

## Model

| member | source | states |
|---|---|---|
| Config.Command.GetName | src/config.rs:105-110 | a plain command is its own name; for a word list the name is the first word |
| Config.Command.GetArgs | src/config.rs:111-116 | a plain command has no arguments and a word list always has some; name followed by arguments is the word list |
| Config.Repository.GetSteps | src/config.rs:46-54 | an anonymous step set always gives its own steps; a named one is found exactly when the requested name, or `"default"` when none is given, is a key, and then gives that set's steps |
| Config.Steps.Get | src/config.rs:72-77 | always present; a single step gives the one-element list, a list is returned unchanged and in order |
| Config.GetStepsDefault | src/config.rs:46-51 | with named step sets and no name given, the set `"default"` is used |
| Config.GetStepsByName | src/config.rs:48-51 | a named set is returned when its key is present and nothing otherwise |
| Config.GetStepsIgnoresName | src/config.rs:52 | an anonymous step set's own steps are returned whatever name is asked for |
| Trigger.FindRepository | src/trigger/mod.rs:25 | the first repository with the trigger's name, or none when no repository has it |
| Trigger.FilterPasses | src/trigger/mod.rs:26-40 | no filter accepts everything; a filter rejects a missing value, `@any` accepts any value, otherwise only an equal value passes |
| Trigger.Deliver | src/trigger/mod.rs:24-49 | unknown repository: `true` and nothing spawned; otherwise the answer is both filters passing, and a run of the named repository is spawned exactly when the answer is `true` |
| Trigger.DeliverUsesFirstByName | src/trigger/mod.rs:25-46 | the run spawned is for the first repository with the name, and a `false` answer means one of its filters rejected the event |
| Trigger.NoFiltersAlwaysScheduled | src/trigger/mod.rs:26-48 | when the repositories carrying the trigger's name have no filters, the answer is `true` and a run is spawned, whatever filters other repositories have |
| Trigger.UnknownRepositoryIsNoOp | src/trigger/mod.rs:25-48 | an event for an unknown repository answers `true` and spawns nothing |
| Executor.StepResult.Success | src/executor/mod.rs:109-111 | a step succeeded exactly when its status is 0 |
| Executor.StepsResult.Success | src/executor/mod.rs:76-78 | a run succeeded exactly when its overall status is 0 |
| Executor.FromOutput | src/executor/mod.rs:253-261 | both streams captured; the status is the exit code, and a process without one (killed by a signal) counts as success |
| Executor.Pipeline | src/executor/mod.rs:27-46 | a run records at most one result per step, and records none only when there are no steps |
| Executor.PipelineShape | src/executor/mod.rs:27-46 | results are those of a prefix of the steps, in order; all but the last succeeded; the run stops early only after a failure; the status is the last result's or 0, and is 0 exactly when every recorded step succeeded |
| Executor.PipelineError | src/executor/mod.rs:34 | an execution error aborts the run with that error, and every step before it ran and succeeded |
| Executor.PipelineIgnoresUnreachedSteps | src/executor/mod.rs:35-41 | steps after the first failure or error are never run: changing them leaves the outcome unchanged |
| Executor.RunSteps | src/executor/mod.rs:27-46 | the step loop yields exactly `Pipeline` |
| Executor.Execute | src/executor/mod.rs:26-54 | a missing step set fails before any step runs; a step error is the run's error; otherwise the results are `Pipeline`'s, and both the URL list and the saved files are those of all recorded results |
| Executor.TriggerVars | src/executor/mod.rs:166-181 | the repository variable is always set; branch, tag and step-set name are set exactly when the trigger carries them; nothing else is set |
| Executor.ComposedEnvPrecedence | src/executor/mod.rs:153-182 | every key of every layer is present, and its value comes from the highest layer holding it: trigger, then step, then repository, then global |
| Executor.StepEnvironment | src/executor/mod.rs:147-183 | the extend and insert sequence yields `ComposedEnv` |
| Executor.ScriptFullname | src/executor/mod.rs:235-250 | `<work_dir>/scripts/<name>`, with the current directory in front of a relative work directory; its error propagates; a path that does not exist is the error `script "<path>" does not exist` |
| Executor.ScriptFullnameShape | src/executor/mod.rs:235-249 | for an absolute work directory the path is `<work_dir>/scripts/<name>`, or the name itself when that is absolute |
| Executor.PrepareStep | src/executor/mod.rs:198-233 | a step with a host goes to SSH; a command runs its program with its arguments; a script runs under `sh` with the resolved path first, and fails when resolution fails; the working directory and the composed environment are passed on |
| Executor.WriteStep | src/executor/mod.rs:114-129 | the files after saving a step are those before, plus the stdout file exactly when stdout was captured and the stderr file exactly when stderr was captured |
| Executor.SaveStepResult | src/executor/mod.rs:113-143 | both URLs are returned whether or not a stream was captured; the files written are exactly `WriteStep`'s |
| Executor.WriteAll | src/executor/mod.rs:84-129 | saving the results of a run never removes a file |
| Executor.UrlList | src/executor/mod.rs:83-90 | one URL pair per step result |
| Executor.UrlListAt | src/executor/mod.rs:84-88 | pair `i` is the pair of step `i`, under `<run_id>/<i>` |
| Executor.SaveStepsResult | src/executor/mod.rs:80-91 | the loop returns `UrlList` for all results and writes every result's streams |
| Executor.RunDirShape | src/executor/mod.rs:81-86 | a step's log directory is `<run_id>/<index>`, relative, ending in a digit |
| Executor.StreamPathShape | src/executor/mod.rs:114-128 | a stream file is `<work_dir>/cache/logs/<run_id>/<index>/<stream>`, and the log endpoint maps the URL's id back to it |
| Executor.StreamPathsDistinct | src/executor/mod.rs:84-128 | different steps, or the two streams of one step, never share a file |
| Executor.StreamFilesDiffer | src/executor/mod.rs:122-129 | the stdout and stderr files of a step are different files |
| Executor.WriteStepEffect | src/executor/mod.rs:122-129 | saving a step writes each captured stream to its file with exactly its bytes; the file of a stream that was not captured, and every other file, is left as it was |
| Executor.WriteAllFrame | src/executor/mod.rs:84-129 | saving a run leaves alone every file that is not a stream file of one of its steps |
| Executor.LogPathForId | src/executor/mod.rs:281-284 | a relative id is read under `<work_dir>/cache/logs`; an absolute id is read as the path it names |
| Executor.SavedStream | src/executor/mod.rs:84-129 | after saving the first results, each captured stream of a saved step is in its own file with exactly its bytes |
| Executor.SavedLogRoundTrip | src/executor/mod.rs:80-143 | after saving, the file served for a step's stream id holds exactly the bytes that step captured |
| Executor.StepUrlsShape | src/executor/mod.rs:130-142 | the URLs read `<base_url>/logs?id=<run_id>/<index>/1` and `.../2` |
| Paths.NatToStringInjective | src/executor/mod.rs:86 | distinct step indices give distinct directory names |
| Environment.KeepPresentContents | src/executor/environment.rs:61-72 | the kept pairs are exactly the candidates that carry a value |
| Environment.TriggerPairs | src/executor/environment.rs:61-72 | never empty, and the repository pair comes first |
| Environment.TriggerPairsOrder | src/executor/environment.rs:61-72 | repository first, then branch, tag and step-set name, each present exactly when the trigger carries it |
| Environment.TriggerPairsApply | src/executor/environment.rs:61-72 | applied in order, the trigger pairs give the eager composer's trigger variables |
| Environment.ApplyConcat | src/executor/environment.rs:29-37 | applying pairs in two parts in order: later keys override earlier ones |
| Environment.ApplyIterate | src/executor/environment.rs:46-48 | applying a map's pairs in any key order rebuilds the map over the keys visited |
| Environment.LayerPairsApply | src/executor/environment.rs:46-48 | an absent layer contributes nothing; a present one contributes its whole map |
| Environment.StepEnvironment | src/executor/environment.rs:55-80 | the three layers are borrowed unchanged, and the trigger pairs are built by `TriggerPairs` |
| Environment.Advance | src/executor/environment.rs:30-36 | a sub-iterator yields its first pair and keeps the rest; an absent or exhausted one yields nothing and stays empty |
| Environment.EnvironmentIter.constructor | src/executor/environment.rs:44-51 | the iterator starts with the global pairs, then the repository's, then the step's, then the trigger pairs |
| Environment.EnvironmentIter.Next | src/executor/environment.rs:29-37 | an exhausted iterator yields nothing; otherwise the next pair in chain order is yielded and removed; while global pairs remain, one of them comes first |
| Environment.Drain | src/executor/environment.rs:26-37 | pulling pairs until `next` yields nothing leaves the iterator empty, and the map is the last-write-wins fold of every pair it had left |
| Environment.Collect | src/executor/environment.rs:26-80 | building the iterator and draining it with last-write-wins gives exactly the eager composer's map |
| Environment.ChainAgreesWithComposedEnv | src/executor/environment.rs:26-80 | consuming the whole chain with last-write-wins gives exactly the map of the eager `Step::environment` |
| Environment.ChainLength | src/executor/environment.rs:26-51 | the chain has one pair per variable of each present layer plus one per trigger pair |
| Ssh.Port | src/executor/ssh.rs:19 | the host's port, or 22 |
| Ssh.PrivateKey | src/executor/ssh.rs:23-36 | no `$HOME` is an error; ed25519 is used when it exists, else RSA; with neither the step fails with "missing private key" |
| Ssh.PrivateKeyLocation | src/executor/ssh.rs:27-35 | the chosen key exists and is `$HOME/.ssh/id_ed25519` or `$HOME/.ssh/id_rsa` |
| Ssh.RemoteFilename | src/executor/ssh.rs:39 | `/tmp/delivery_station_` followed by the suffix |
| Ssh.RemoteFilenameShape | src/executor/ssh.rs:39 | with a 12-character random suffix: an absolute 34-character path, distinct for distinct suffixes |
| Ssh.RemoteCmd | src/executor/ssh.rs:52-55 | without arguments, the name; with arguments, the name, a space, and the arguments each in double quotes |
| Ssh.SplitJoin | src/executor/ssh.rs:54 | quote-free arguments can be split back out of the joined list |
| Ssh.RemoteCmdRoundTrip | src/executor/ssh.rs:52-55 | with no quotes in the name or the arguments and a non-empty argument list, the command line determines the name and the arguments |
| Ssh.RemoteCmdAmbiguous | src/executor/ssh.rs:54 | an empty argument list looks like one empty argument, and an argument holding `" "` looks like two arguments |
| Ssh.RemoteProgram | src/executor/ssh.rs:40-51 | a script runs as its uploaded copy, a command as its own program |
| Ssh.CleanupCommand | src/executor/ssh.rs:69 | `rm ` followed by the remote file name, which can be read back from it |
| Ssh.Finished | src/executor/ssh.rs:73-77 | the result carries the remote status and both streams, always captured, and succeeds exactly when the remote status is 0 |
| Ssh.RunRemote | src/executor/ssh.rs:56-78 | the command is sent first; the removal of an uploaded copy follows exactly when the command finished; the result is the command's error, else the removal's error, else the remote status and both streams |
| Ssh.Ssh | src/executor/ssh.rs:18-79 | connects to the host's port; a failed session, key choice, authentication, script resolution, upload or command ends the run with that stage's error and sends nothing further; the key is `PrivateKey`'s; only a script is uploaded, from its resolved path to the remote file; the command is sent exactly when every earlier stage succeeded, and is the remote command line; `rm <remote file>` follows exactly for a script whose command ran; a result carries the remote status and both streams |
| Ssh.SshSucceeds | src/executor/ssh.rs:18-79 | a run succeeds exactly when the session, the key, authentication and the command succeed, and also, for a script, its resolution, upload and clean-up |
| Ssh.CleanupErrorPropagates | src/executor/ssh.rs:67-71 | a failed clean-up fails the step even though the command ran |

## Left out

- The HTTP server and the trigger handlers (Gitea, manual, coding) are not modelled. HMAC signing, the DingTalk notifier, and the markdown message and notification at the end of `Repository::execute` (src/executor/mod.rs:47-65) are not modelled either. An error from the notification is therefore not modelled.
- Process spawning, the SSH session, SCP and channel I/O, and file reads and writes are abstract:
  - a step's execution is the oracle `run`;
  - each SSH stage is a given outcome in `SshIo`;
  - saved files are a map from path to bytes;
  - reading remote output as UTF-8 text is folded into the outcome of running the command.
- Directory creation and write failures in `save_to_file` are not modelled; writes always succeed. The log endpoint `logs_handler` is modelled only as the path it reads (`LogPathForId`).
- `tmp_filename` randomness is not modelled: the run id and the remote suffix are parameters, and lemmas that need their shape require `IsTmpName`.
- `std::env::current_dir()` and `$HOME` are parameters.
- `tokio::spawn`, `unblock!`, the `lazy_static` globals and YAML loading are not modelled. `Deliver` returns the repository it would spawn a run for.
- `HashMap` iteration order is not modelled as a fixed order. Each map's order is a parameter, constrained only to list every key once.
- Config.Command.GetName: an empty word list makes the source panic on `w[0]` (and `get_args` on `w[1..]`). The model requires `Valid()` instead of modelling the panic.
- Executor.PrepareStep: requires `Valid()` of a local step's command only, the one place where it calls `get_name`; a step with a host has no such requirement.
- Ssh.Ssh: requires `Valid()` only when the session, the key choice and authentication succeeded, which is when `ssh` first calls `get_name` (src/executor/ssh.rs:40-50).
- Executor.Pipeline: the oracle `run` is a function, so two identical steps of one run get the same outcome; in the source their outcomes may differ (time, remote state, files written by the first).
- Ssh.Port: the port is a `u16` in the source. The model uses a natural number and does not bound it.
- Executor.PrepareStep: a step's `host` is the name of a host, and `sync_execute` passes it to the SSH executor as is (src/executor/mod.rs:207-208). The model stops at `Remote(hostName)` and does not look the host up in the configuration.
- Ssh.Ssh: `ssh` takes the work directory as a string (src/executor/ssh.rs:18), while `get_script_fullname` in src/executor/mod.rs takes the configuration. Both are modelled by one `ScriptFullname` over the work directory.
- Ssh.Ssh: connecting, creating the session and the handshake are one outcome. Opening, measuring and copying the script are another. Opening the channel, executing, reading both streams, waiting and reading the status are a third.
- Ssh.Ssh: the remote command runs without the composed environment. The source passes none, so the model has none.
- Four behaviours of the code worth noting:
  - `save_to_file` returns both URLs even for a stream that was not saved;
  - an error from removing the uploaded script fails the step instead of being ignored;
  - a process killed by a signal counts as success (status 0);
  - the log endpoint joins the requested id onto the log root, so an absolute id (or one climbing out with `..`) names a file outside the logs (`LogPathForId`).
