/** The SSH executor `Step::ssh` (`src/executor/ssh.rs`): the connection
    port, the choice of private key, the name of the uploaded script, the
    quoted remote command line, and the clean-up that follows a script.
    The session, the SCP upload and the channels are I/O: each stage is an
    outcome handed in through `SshIo`, and `Ssh` says which stages are
    reached, what they are asked to do, and how their errors propagate. */
module Ssh {
  import opened Wrappers
  import opened Paths
  import opened Config
  import Executor

  // ---- port ----

  const DefaultPort: nat := 22

  /** The port connected to: the host's own, or the SSH default. */
  function Port(host: Host): (p: nat)
    ensures host.port.Some? ==> p == host.port.value
    ensures host.port.None? ==> p == DefaultPort
  {
    match host.port
    case Some(p) => p
    case None => DefaultPort
  }

  // ---- private key ----

  const HomeRequiredMessage: string := "\"HOME\" environment variable is required"
  const MissingKeyMessage: string := "missing private key"
  const Ed25519Key: string := ".ssh/id_ed25519"
  const RsaKey: string := ".ssh/id_rsa"

  /** The key file used to authenticate, given `$HOME` and the files that
      exist: ed25519 is preferred to RSA, and one of them must exist. */
  function PrivateKey(home: Option<string>, existing: set<string>): (r: Result<string>)
    ensures home.None? ==> r == Err(HomeRequiredMessage)
    ensures home.Some? ==>
      var ed25519, rsa := Join(home.value, Ed25519Key), Join(home.value, RsaKey);
      && (r.Ok? <==> ed25519 in existing || rsa in existing)
      && (ed25519 in existing ==> r == Ok(ed25519))
      && (ed25519 !in existing && rsa in existing ==> r == Ok(rsa))
      && (r.Err? ==> r.msg == MissingKeyMessage)
  {
    match home
    case None => Err(HomeRequiredMessage)
    case Some(h) =>
      var ed25519, rsa := Join(h, Ed25519Key), Join(h, RsaKey);
      if ed25519 in existing then Ok(ed25519)
      else if rsa in existing then Ok(rsa)
      else Err(MissingKeyMessage)
  }

  /** Whichever key is chosen, it is a file under `$HOME/.ssh` that exists. */
  lemma PrivateKeyLocation(home: string, existing: set<string>)
    requires home != [] && home[|home| - 1] != '/'
    requires PrivateKey(Some(home), existing).Ok?
    ensures var key := PrivateKey(Some(home), existing).value;
      && key in existing
      && (key == home + "/.ssh/id_ed25519" || key == home + "/.ssh/id_rsa")
  {
  }

  // ---- the uploaded script ----

  const RemotePrefix: string := "/tmp/delivery_station_"

  /** The length of the random suffix of the uploaded script's name. */
  const SuffixLength: nat := 12

  /** Where a script is uploaded: `/tmp/delivery_station_<suffix>`. */
  function RemoteFilename(suffix: string): (f: string)
    ensures |f| == |RemotePrefix| + |suffix|
    ensures f[..|RemotePrefix|] == RemotePrefix && f[|RemotePrefix|..] == suffix
  {
    RemotePrefix + suffix
  }

  /** A random suffix gives an absolute path of fixed length under `/tmp`,
      and different suffixes give different files. */
  lemma RemoteFilenameShape(suffix: string, other: string)
    requires IsTmpName(suffix, SuffixLength)
    ensures IsAbsolute(RemoteFilename(suffix))
    ensures |RemoteFilename(suffix)| == 34
    ensures RemoteFilename(suffix) == RemoteFilename(other) ==> suffix == other
  {
    if RemoteFilename(suffix) == RemoteFilename(other) {
      assert suffix == RemoteFilename(suffix)[|RemotePrefix|..];
    }
  }

  /** The command that deletes the uploaded script. */
  function CleanupCommand(remoteFilename: string): (c: string)
    ensures |c| == 3 + |remoteFilename| && c[..3] == "rm " && c[3..] == remoteFilename
  {
    "rm " + remoteFilename
  }

  // ---- the remote command line ----

  /** The separator placed between arguments. */
  const ArgSeparator: string := "\" \""

  /** `[String]::join`: the parts with the separator between neighbours. */
  function JoinWith(parts: seq<string>, sep: string): (s: string)
    ensures parts == [] ==> s == []
    ensures |parts| == 1 ==> s == parts[0]
  {
    if parts == [] then []
    else if |parts| == 1 then parts[0]
    else parts[0] + sep + JoinWith(parts[1..], sep)
  }

  /** What runs on the remote host: the name alone when there are no
      arguments, otherwise the name followed by the arguments, each in
      double quotes; quotes inside an argument are not escaped. */
  function RemoteCmd(name: string, args: Option<seq<string>>): (cmd: string)
    ensures args.None? ==> cmd == name
    ensures args.Some? ==>
      && |cmd| >= |name| + 3
      && cmd[..|name| + 2] == name + " \""
      && cmd[|cmd| - 1] == '"'
      && cmd[|name| + 2..|cmd| - 1] == JoinWith(args.value, ArgSeparator)
  {
    match args
    case None => name
    case Some(a) => name + " \"" + JoinWith(a, ArgSeparator) + "\""
  }

  predicate NoQuote(s: string) {
    forall i :: 0 <= i < |s| ==> s[i] != '"'
  }

  /** The index of the first double quote, or the length when there is none. */
  function FirstQuote(s: string): (i: nat)
    ensures i <= |s|
    ensures i < |s| ==> s[i] == '"'
    ensures NoQuote(s[..i])
  {
    if s == [] then 0
    else if s[0] == '"' then 0
    else
      var j := FirstQuote(s[1..]);
      assert s[..j + 1] == [s[0]] + s[1..][..j];
      j + 1
  }

  /** Cuts a quoted argument list back into its arguments. */
  function SplitArgs(body: string): (args: seq<string>)
    ensures |args| > 0
    decreases |body|
  {
    var i := FirstQuote(body);
    if i + |ArgSeparator| <= |body| then [body[..i]] + SplitArgs(body[i + |ArgSeparator|..])
    else [body]
  }

  /** Reads a remote command line back into a name and arguments. */
  function ParseRemoteCmd(cmd: string): (string, Option<seq<string>>) {
    var i := FirstQuote(cmd);
    if 2 <= i + 1 < |cmd| then (cmd[..i - 1], Some(SplitArgs(cmd[i + 1..|cmd| - 1])))
    else (cmd, None)
  }

  lemma {:induction false} FirstQuoteAfter(a: string, t: string)
    requires NoQuote(a)
    ensures FirstQuote(a + t) == |a| + FirstQuote(t)
    decreases |a|
  {
    if a != [] {
      assert (a + t)[1..] == a[1..] + t;
      FirstQuoteAfter(a[1..], t);
    } else {
      assert a + t == t;
    }
  }

  /** Arguments without quotes survive the quoting. */
  lemma {:induction false} SplitJoin(args: seq<string>)
    requires |args| > 0
    requires forall k :: 0 <= k < |args| ==> NoQuote(args[k])
    ensures SplitArgs(JoinWith(args, ArgSeparator)) == args
    decreases |args|
  {
    var a := args[0];
    if |args| == 1 {
      assert FirstQuote(a + []) == |a| + FirstQuote([]) by { FirstQuoteAfter(a, []); }
      assert a + [] == a;
    } else {
      var rest := JoinWith(args[1..], ArgSeparator);
      var body := a + ArgSeparator + rest;
      assert JoinWith(args, ArgSeparator) == body;
      var tail := ArgSeparator + rest;
      assert body == a + tail;
      assert FirstQuote(tail) == 0 by { assert tail[0] == '"'; }
      FirstQuoteAfter(a, tail);
      assert FirstQuote(body) == |a|;
      assert body[..|a|] == a;
      assert body[|a| + |ArgSeparator|..] == rest;
      assert SplitArgs(body) == [a] + SplitArgs(rest);
      SplitJoin(args[1..]);
      assert args == [a] + args[1..];
    }
  }

  /** When neither the name nor any argument holds a double quote, and an
      argument list is never empty, the command line determines the name
      and the arguments. */
  lemma RemoteCmdRoundTrip(name: string, args: Option<seq<string>>)
    requires NoQuote(name)
    requires args.Some? ==> |args.value| > 0 && forall k :: 0 <= k < |args.value| ==> NoQuote(args.value[k])
    ensures ParseRemoteCmd(RemoteCmd(name, args)) == (name, args)
  {
    var cmd := RemoteCmd(name, args);
    match args
    case None =>
      assert FirstQuote(name + []) == |name| + FirstQuote([]) by { FirstQuoteAfter(name, []); }
      assert name + [] == name;
    case Some(a) =>
      var body := JoinWith(a, ArgSeparator);
      assert cmd == (name + " ") + ("\"" + body + "\"");
      assert NoQuote(name + " ") by {
        forall i | 0 <= i < |name + " "| ensures (name + " ")[i] != '"' {
          if i < |name| { assert (name + " ")[i] == name[i]; }
        }
      }
      FirstQuoteAfter(name + " ", "\"" + body + "\"");
      assert cmd[..|name|] == name;
      assert cmd[|name| + 2..|cmd| - 1] == body;
      SplitJoin(a);
  }

  /** The quoting is ambiguous: an empty argument list and a single empty
      argument give the same command line, and so do an argument holding the
      separator and the two arguments it separates. */
  lemma RemoteCmdAmbiguous(name: string)
    ensures RemoteCmd(name, Some([])) == RemoteCmd(name, Some([""])) == name + " \"\""
    ensures RemoteCmd(name, Some(["a\" \"b"])) == RemoteCmd(name, Some(["a", "b"]))
  {
    assert JoinWith(["a", "b"], ArgSeparator) == "a" + ArgSeparator + JoinWith(["b"], ArgSeparator);
  }

  // ---- Step::ssh ----

  /** What the remote command printed and how it ended. */
  datatype RemoteOutput = RemoteOutput(status: Executor.int32, stdout: Executor.Bytes,
                                       stderr: Executor.Bytes)

  /** The outcome of each I/O stage of a run. `session` covers connecting
      and the handshake, `upload` the SCP copy of a script, `exec` running
      the command and reading its output and status, `cleanup` removing the
      uploaded script; `suffix` is the random part of the upload name. */
  datatype SshIo = SshIo(session: Result<()>, home: Option<string>, existing: set<string>,
                         auth: Result<()>, cwd: Result<string>, suffix: string,
                         upload: Result<()>, exec: Result<RemoteOutput>, cleanup: Result<()>)

  /** What a run did: the address it connected to, the key it authenticated
      with, the script it copied and where, the command lines it sent (in
      order), and its result. */
  datatype SshRun = SshRun(address: (string, nat), key: Option<string>,
                           upload: Option<(string, string)>, commands: seq<string>,
                           result: Result<Executor.StepResult>)

  /** The program run on the remote host: the uploaded copy of a script,
      or the command's own program. */
  function RemoteProgram(action: Action, suffix: string): (name: string)
    requires action.Cmd().Valid()
    ensures action.RunScript? ==> name == RemoteFilename(suffix)
    ensures action.RunCommand? ==> name == action.command.GetName()
  {
    match action
    case RunScript(_) => RemoteFilename(suffix)
    case RunCommand(c) => c.GetName()
  }

  /** The result of a finished remote command. */
  function Finished(out: RemoteOutput): (r: Executor.StepResult)
    ensures r.status == out.status && r.stdout == Some(out.stdout) && r.stderr == Some(out.stderr)
    ensures r.Success() <==> out.status == 0
  {
    Executor.StepResult(out.status, Some(out.stdout), Some(out.stderr))
  }

  /** From running the command to the result, with the clean-up of a
      script: the command is sent first, the removal of an uploaded copy
      only after the command finished; an error of either is the result. */
  function RunRemote(address: (string, nat), key: string, upload: Option<(string, string)>,
                     cmd: string, io: SshIo): (run: SshRun)
    ensures run.address == address && run.key == Some(key) && run.upload == upload
    ensures io.exec.Err? ==> run.result == Err(io.exec.msg) && run.commands == [cmd]
    ensures io.exec.Ok? ==>
      run.commands == [cmd] + (if upload.Some? then [CleanupCommand(upload.value.1)] else [])
    ensures io.exec.Ok? && upload.Some? && io.cleanup.Err? ==> run.result == Err(io.cleanup.msg)
    ensures run.result.Ok? <==> io.exec.Ok? && (upload.Some? ==> io.cleanup.Ok?)
    ensures run.result.Ok? ==> run.result.value == Finished(io.exec.value)
  {
    match io.exec
    case Err(e) => SshRun(address, Some(key), upload, [cmd], Err(e))
    case Ok(out) =>
      if upload.None? then SshRun(address, Some(key), upload, [cmd], Ok(Finished(out)))
      else
        var cleanup := CleanupCommand(upload.value.1);
        match io.cleanup
        case Err(e) => SshRun(address, Some(key), upload, [cmd, cleanup], Err(e))
        case Ok(_) => SshRun(address, Some(key), upload, [cmd, cleanup], Ok(Finished(out)))
  }

  /** The stages before the command is chosen all succeeded: the session,
      the choice of a key and the authentication. */
  predicate Authenticated(io: SshIo) {
    io.session.Ok? && PrivateKey(io.home, io.existing).Ok? && io.auth.Ok?
  }

  /** `Step::ssh`: connect, choose a key, authenticate, upload a script,
      run the command, delete the script; the first stage that fails ends
      the run with its error. */
  function Ssh(step: Step, host: Host, workDir: string, io: SshIo): (run: SshRun)
    requires Authenticated(io) ==> step.action.Cmd().Valid()
    ensures run.address == (host.hostname, Port(host))
    ensures io.session.Err? ==> run.result == Err(io.session.msg) && run.key.None? && run.commands == []
    ensures io.session.Ok? && PrivateKey(io.home, io.existing).Err? ==>
      run.result == Err(PrivateKey(io.home, io.existing).msg) && run.key.None? && run.commands == []
    ensures io.session.Ok? && PrivateKey(io.home, io.existing).Ok? && io.auth.Err? ==>
      run.result == Err(io.auth.msg) && run.key.Some? && run.commands == []
    ensures run.key.Some? ==> io.session.Ok? && PrivateKey(io.home, io.existing) == Ok(run.key.value)
    ensures Authenticated(io) && step.action.RunScript? ==>
      var script := Executor.ScriptFullname(workDir, step.action.name.GetName(), io.cwd, io.existing);
      && (script.Err? ==> run.result == Err(script.msg) && run.upload.None? && run.commands == [])
      && (script.Ok? ==> run.upload == Some((script.value, RemoteFilename(io.suffix))))
      && (script.Ok? && io.upload.Err? ==> run.result == Err(io.upload.msg) && run.commands == [])
    ensures run.upload.Some? ==>
      && Authenticated(io)
      && step.action.RunScript?
      && Executor.ScriptFullname(workDir, step.action.name.GetName(), io.cwd, io.existing)
         == Ok(run.upload.value.0)
      && run.upload.value.1 == RemoteFilename(io.suffix)
    ensures run.commands != [] <==>
      && Authenticated(io)
      && (step.action.RunScript? ==>
            Executor.ScriptFullname(workDir, step.action.name.GetName(), io.cwd, io.existing).Ok? && io.upload.Ok?)
    ensures run.commands != [] ==>
      && Authenticated(io) && run.key.Some?
      && (step.action.RunScript? <==> run.upload.Some?)
      && run.commands[0] == RemoteCmd(RemoteProgram(step.action, io.suffix), step.action.Cmd().GetArgs())
    ensures run.commands != [] && io.exec.Err? ==> run.result == Err(io.exec.msg) && |run.commands| == 1
    ensures |run.commands| == 2 <==> step.action.RunScript? && run.upload.Some? && io.upload.Ok? && io.exec.Ok?
    ensures |run.commands| == 2 ==> run.commands[1] == CleanupCommand(RemoteFilename(io.suffix))
    ensures |run.commands| <= 2
    ensures run.result.Ok? ==>
      && io.exec.Ok?
      && run.result.value == Finished(io.exec.value)
      && run.commands != []
      && (step.action.RunScript? ==> |run.commands| == 2 && io.cleanup.Ok?)
  {
    var address := (host.hostname, Port(host));
    if io.session.Err? then SshRun(address, None, None, [], Err(io.session.msg))
    else match PrivateKey(io.home, io.existing)
      case Err(e) => SshRun(address, None, None, [], Err(e))
      case Ok(key) =>
        if io.auth.Err? then SshRun(address, Some(key), None, [], Err(io.auth.msg))
        else
          var remoteFilename := RemoteFilename(io.suffix);
          var program := RemoteProgram(step.action, io.suffix);
          var cmd := RemoteCmd(program, step.action.Cmd().GetArgs());
          match step.action
          case RunScript(name) =>
            (match Executor.ScriptFullname(workDir, name.GetName(), io.cwd, io.existing)
             case Err(e) => SshRun(address, Some(key), None, [], Err(e))
             case Ok(script) =>
               if io.upload.Err? then SshRun(address, Some(key), Some((script, remoteFilename)), [], Err(io.upload.msg))
               else RunRemote(address, key, Some((script, remoteFilename)), cmd, io))
          case RunCommand(_) => RunRemote(address, key, None, cmd, io)
  }

  /** A run succeeds exactly when every stage it reaches succeeds: a
      command needs the session, a key, authentication and the command; a
      script needs, besides, to be found, copied and removed again. */
  lemma SshSucceeds(step: Step, host: Host, workDir: string, io: SshIo)
    requires Authenticated(io) ==> step.action.Cmd().Valid()
    ensures Ssh(step, host, workDir, io).result.Ok? <==>
      && io.session.Ok?
      && PrivateKey(io.home, io.existing).Ok?
      && io.auth.Ok?
      && (step.action.RunScript? ==>
            && Executor.ScriptFullname(workDir, step.action.name.GetName(), io.cwd, io.existing).Ok?
            && io.upload.Ok?
            && io.cleanup.Ok?)
      && io.exec.Ok?
  {
  }

  /** A failed clean-up fails the step even though the command itself ran. */
  lemma CleanupErrorPropagates(step: Step, host: Host, workDir: string, io: SshIo)
    requires step.action.RunScript? && (Authenticated(io) ==> step.action.Cmd().Valid())
    requires Ssh(step, host, workDir, io).commands != [] && io.exec.Ok? && io.cleanup.Err?
    ensures Ssh(step, host, workDir, io).result == Err(io.cleanup.msg)
    ensures Ssh(step, host, workDir, io).commands[1] == CleanupCommand(RemoteFilename(io.suffix))
  {
  }
}
