/**
 * The agent controller (`lib.rs`): `Agent::new` checks the options, `start`
 * builds the tool's command and launches it, and `stop` either sends the
 * isolation's stop command or waits for the process and collects its
 * output, its JSON messages and its session id.
 *
 * Launching and waiting are not modelled as such: what the executor reports
 * (the outcome of the launch, the exit code and the captured output of the
 * process, the result of running the stop command) is a parameter of the
 * method that would obtain it, and printing is left out.
 */
module Controller {
  import opened Wrappers
  import opened Strings
  import opened Json
  import opened Ndjson
  import opened OutputStream
  import CommandBuilder
  import Tools
  import Claude
  import Codex
  import Opencode
  import AgentTool

  /** `AgentOptions`; an empty `isolation` is the default. */
  datatype AgentOptions = AgentOptions(
    tool: string,
    workingDirectory: string,
    prompt: Option<string>,
    systemPrompt: Option<string>,
    model: Option<string>,
    isolation: string,
    screenName: Option<string>,
    containerName: Option<string>,
    json: bool,
    resume: Option<string>)

  /** `AgentResult`. */
  datatype AgentResult = AgentResult(exitCode: int, plainOutput: string, parsedOutput: Option<seq<Json>>, sessionId: Option<string>)

  /** `AgentResult::default()`. */
  const DefaultResult := AgentResult(0, [], None, None)

  /** `AgentStartOptions`. */
  datatype AgentStartOptions = AgentStartOptions(dryRun: bool, detached: bool, attached: bool)

  /** `AgentStopOptions`. */
  datatype AgentStopOptions = AgentStopOptions(dryRun: bool)

  /** A started process, seen through what waiting for it reports: its exit code (or the error) and its captured output. */
  datatype ProcessRun = ProcessRun(exit: Result<int, string>, stdout: string, stderr: string)

  /** `ExecutionResult` of a command run to completion. */
  datatype Execution = Execution(exitCode: int, stdout: string, stderr: string)

  const ToolRequired := "tool is required"
  const WorkingDirectoryRequired := "working_directory is required"
  const ScreenNameRequired := "screen_name is required for screen isolation"
  const ContainerNameRequired := "container_name is required for docker isolation"
  const ScreenNameToStop := "screen_name is required to stop screen session"
  const ContainerNameToStop := "container_name is required to stop docker container"
  const NotStarted := "Agent not started or already stopped"
  const UnsupportedIsolation := "Unsupported isolation mode: "

  /** The first check of `Agent::new` that fails, in the order the source makes them. */
  function NewError(o: AgentOptions): Option<string>
  {
    if o.tool == [] then Some(ToolRequired)
    else if o.workingDirectory == [] then Some(WorkingDirectoryRequired)
    else if o.isolation == "screen" && o.screenName.None? then Some(ScreenNameRequired)
    else if o.isolation == "docker" && o.containerName.None? then Some(ContainerNameRequired)
    else None
  }

  /** What a controller needs: a tool, a working directory, and the name its isolation uses. Any other isolation is accepted. */
  predicate Creatable(o: AgentOptions)
  {
    && o.tool != [] && o.workingDirectory != []
    && (o.isolation == "screen" ==> o.screenName.Some?)
    && (o.isolation == "docker" ==> o.containerName.Some?)
  }

  /**
   * `Agent::new` fails exactly on the options that are not creatable; a
   * missing tool is reported before anything else and a missing working
   * directory before the names.
   */
  lemma NewErrorMeaning(o: AgentOptions)
    ensures NewError(o).None? <==> Creatable(o)
    ensures o.tool == [] ==> NewError(o) == Some(ToolRequired)
    ensures o.tool != [] && o.workingDirectory == [] ==> NewError(o) == Some(WorkingDirectoryRequired)
    ensures NewError(o) == Some(ScreenNameRequired) <==> o.tool != [] && o.workingDirectory != [] && o.isolation == "screen" && o.screenName.None?
    ensures NewError(o) == Some(ContainerNameRequired) <==> o.tool != [] && o.workingDirectory != [] && o.isolation == "docker" && o.containerName.None?
  {
  }

  /** The options `start` passes to `build_agent_command`. */
  function CommandOptions(o: AgentOptions, detached: bool): CommandBuilder.Options
  {
    CommandBuilder.Options(o.tool, o.workingDirectory, o.prompt, o.systemPrompt, o.model, o.json, o.resume,
      o.isolation, o.screenName, o.containerName, detached)
  }

  /** The command `stop` sends under screen or docker isolation, or the error when the name it needs is missing. */
  function IsolatedStopCommand(o: AgentOptions): Result<string, string>
  {
    if o.isolation == "screen" then
      if o.screenName.Some? then Ok(CommandBuilder.ScreenStopCommand(o.screenName.value)) else Err(ScreenNameToStop)
    else
      if o.containerName.Some? then Ok(CommandBuilder.DockerStopCommand(o.containerName.value)) else Err(ContainerNameToStop)
  }

  /** A screen stop command names the configured session; a docker one, under its own isolation, the configured container. */
  lemma IsolatedStopCommandSpec(o: AgentOptions)
    ensures IsolatedStopCommand(o).Err? <==>
      (if o.isolation == "screen" then o.screenName.None? else o.containerName.None?)
    ensures o.isolation == "screen" && o.screenName.Some? ==>
      IsolatedStopCommand(o) == Ok(CommandBuilder.ScreenStopCommand(o.screenName.value))
    ensures o.isolation == "docker" && o.containerName.Some? ==>
      IsolatedStopCommand(o) == Ok(CommandBuilder.DockerStopCommand(o.containerName.value))
  {
  }

  /** The plain output: stdout, then stderr on a line of its own when there is any. */
  function PlainOutput(stdout: string, stderr: string): (r: string)
    ensures |r| == |stdout| + (if stderr == [] then 0 else 1 + |stderr|)
    ensures r[..|stdout|] == stdout
    ensures stderr != [] ==> r[|stdout|] == '\n' && r[|stdout| + 1..] == stderr
  {
    if stderr == [] then stdout else stdout + "\n" + stderr
  }

  /** The collected messages as `parsed_output` reports them: none rather than an empty list. */
  function ParsedOutput(messages: seq<Json>): (r: Option<seq<Json>>)
    ensures r.None? <==> messages == []
    ensures r.Some? ==> r.value == messages
  {
    if messages == [] then None else Some(messages)
  }

  /** The session id `stop` extracts with the tool's own extractor, or `None` to keep the current one when the tool is not supported. */
  function SessionIdUpdate(codec: Codec, tool: string, output: string): (r: Option<Option<string>>)
    ensures r.Some? <==> Tools.IsToolSupported(tool)
  {
    match tool
    case "claude" => Some(Claude.ExtractSessionId(codec, output))
    case "codex" => Some(Codex.ExtractSessionId(codec, output))
    case "opencode" => Some(Opencode.ExtractSessionId(codec, output))
    case "agent" => Some(AgentTool.ExtractSessionId(codec, output))
    case _ => None
  }

  /** The session id after an update: replaced for a supported tool, kept otherwise. */
  function NextSessionId(current: Option<string>, update: Option<Option<string>>): Option<string>
  {
    if update.Some? then update.value else current
  }

  /** For Claude the new session id is the first `session_id` any line of the output carries. */
  lemma SessionIdUpdateClaude(codec: Codec, current: Option<string>, output: string)
    ensures var r := NextSessionId(current, SessionIdUpdate(codec, "claude", output));
      var ms := ParseAll(codec, output);
      && (r.None? <==> forall i | 0 <= i < |ms| :: ms[i].GetStr("session_id").None?)
      && (r.Some? ==> exists i | 0 <= i < |ms| ::
            ms[i].GetStr("session_id") == r && forall j | 0 <= j < i :: ms[j].GetStr("session_id").None?)
  {
  }

  /** For a tool that is not supported, `stop` keeps the session id it had. */
  lemma SessionIdKept(codec: Codec, current: Option<string>, tool: string, output: string)
    requires !Tools.IsToolSupported(tool)
    ensures NextSessionId(current, SessionIdUpdate(codec, tool, output)) == current
  {
  }

  /** `Agent`: the options, the started process, the output stream of JSON mode, and the session id. */
  class Agent {
    const codec: Codec
    const options: AgentOptions
    var processHandle: Option<ProcessRun>
    var outputStream: Option<JsonOutputStream>
    var sessionId: Option<string>

    /** The objects besides this one that the controller owns. */
    function Streams(): set<object>
      reads this
    {
      if outputStream.Some? then {outputStream.value} else {}
    }

    ghost predicate Valid()
      reads this, Streams()
    {
      outputStream.Some? ==> outputStream.value.Valid() && outputStream.value.codec == codec
    }

    /** The struct literal `Agent::new` returns once the options pass. */
    constructor Init(codec: Codec, options: AgentOptions)
      ensures Valid()
      ensures this.codec == codec && this.options == options
      ensures processHandle.None? && outputStream.None? && sessionId.None?
    {
      this.codec := codec;
      this.options := options;
      processHandle := None;
      outputStream := None;
      sessionId := None;
    }

    /** `Agent::new`: the first failed check's message, or a new controller with nothing started. */
    static method New(codec: Codec, options: AgentOptions) returns (result: Result<Agent, string>)
      ensures result.Err? <==> !Creatable(options)
      ensures result.Err? ==> Some(result.error) == NewError(options)
      ensures result.Ok? ==> fresh(result.value) && result.value.Valid()
      ensures result.Ok? ==> result.value.codec == codec && result.value.options == options
      ensures result.Ok? ==> result.value.processHandle.None? && result.value.outputStream.None? && result.value.sessionId.None?
    {
      NewErrorMeaning(options);
      if options.tool == [] {
        return Err(ToolRequired);
      }
      if options.workingDirectory == [] {
        return Err(WorkingDirectoryRequired);
      }
      if options.isolation == "screen" && options.screenName.None? {
        return Err(ScreenNameRequired);
      }
      if options.isolation == "docker" && options.containerName.None? {
        return Err(ContainerNameRequired);
      }
      var agent := new Agent.Init(codec, options);
      return Ok(agent);
    }

    /**
     * `start`: in JSON mode a new output stream; the command of
     * `build_agent_command`; then, unless it is a dry run, the launch, whose
     * outcome `launch` stands for. An attached launch keeps the process.
     */
    method Start(startOptions: AgentStartOptions, generated: string, launch: Result<ProcessRun, string>)
      returns (command: string, result: Result<(), string>)
      requires Valid()
      modifies this
      ensures Valid()
      ensures command == CommandBuilder.AgentCommandAsWritten(CommandOptions(options, startOptions.detached), generated)
      ensures options.json ==> outputStream.Some? && fresh(outputStream.value) && outputStream.value.State() == Empty
      ensures !options.json ==> outputStream == old(outputStream)
      ensures result == if startOptions.dryRun || launch.Ok? then Ok(()) else Err(launch.error)
      ensures processHandle ==
        if !startOptions.dryRun && !startOptions.detached && launch.Ok? then Some(launch.value) else old(processHandle)
      ensures sessionId == old(sessionId)
    {
      if options.json {
        var stream := new JsonOutputStream(codec);
        outputStream := Some(stream);
      }
      command := CommandBuilder.BuildAgentCommand(CommandOptions(options, startOptions.detached), generated);
      if startOptions.dryRun {
        return command, Ok(());
      }
      if launch.Err? {
        return command, Err(launch.error);
      }
      if !startOptions.detached {
        processHandle := Some(launch.value);
      }
      return command, Ok(());
    }

    /**
     * `stop`. Under screen or docker: the stop command for the configured
     * name, returned as `stopCommand`; it is not run on a dry run, and
     * otherwise `stopRun` stands for the outcome of running it. Without isolation: the started process's exit code and
     * output, stdout fed through the output stream and flushed, and the
     * session id extracted from the plain output. Any other isolation is an
     * error.
     */
    method Stop(stopOptions: AgentStopOptions, stopRun: Result<Execution, string>)
      returns (stopCommand: Option<string>, result: Result<AgentResult, string>)
      requires Valid()
      modifies this, Streams()
      ensures Valid()
      ensures processHandle == old(processHandle) && outputStream == old(outputStream)
      ensures stopCommand ==
        if (options.isolation == "screen" || options.isolation == "docker") && IsolatedStopCommand(options).Ok?
        then Some(IsolatedStopCommand(options).value) else None
      ensures options.isolation == "screen" || options.isolation == "docker" ==>
        && sessionId == old(sessionId)
        && (outputStream.Some? ==> outputStream.value.State() == old(outputStream.value.State()))
        && result == match IsolatedStopCommand(options)
          case Err(e) => Err(e)
          case Ok(_) =>
            if stopOptions.dryRun then Ok(DefaultResult)
            else match stopRun
              case Err(e) => Err(e)
              case Ok(x) => Ok(AgentResult(x.exitCode, x.stdout, None, None))
      ensures (options.isolation == "none" || options.isolation == []) && (old(processHandle).None? || old(processHandle).value.exit.Err?) ==>
        && sessionId == old(sessionId)
        && (outputStream.Some? ==> outputStream.value.State() == old(outputStream.value.State()))
        && result == Err(if old(processHandle).None? then NotStarted else old(processHandle).value.exit.error)
      ensures (options.isolation == "none" || options.isolation == []) && old(processHandle).Some? && old(processHandle).value.exit.Ok? ==>
        var run := old(processHandle).value;
        var plain := PlainOutput(run.stdout, run.stderr);
        && (outputStream.Some? ==>
              outputStream.value.State() == FlushState(codec, Feed(codec, old(outputStream.value.State()), run.stdout)))
        && sessionId == NextSessionId(old(sessionId), SessionIdUpdate(codec, options.tool, plain))
        && result == Ok(AgentResult(run.exit.value, plain,
             if outputStream.Some? then ParsedOutput(outputStream.value.messages) else None, sessionId))
        && (outputStream.Some? && old(outputStream.value.State()) == Empty ==>
              result.value.parsedOutput == if ParseAll(codec, run.stdout) == [] then None else Some(ParseAll(codec, run.stdout)))
      ensures options.isolation !in ["screen", "docker", "none", ""] ==>
        && sessionId == old(sessionId)
        && (outputStream.Some? ==> outputStream.value.State() == old(outputStream.value.State()))
        && result == Err(UnsupportedIsolation + options.isolation)
    {
      if options.isolation == "screen" || options.isolation == "docker" {
        var command := IsolatedStopCommand(options);
        if command.Err? {
          return None, Err(command.error);
        }
        stopCommand := Some(command.value);
        if stopOptions.dryRun {
          return stopCommand, Ok(DefaultResult);
        }
        if stopRun.Err? {
          return stopCommand, Err(stopRun.error);
        }
        return stopCommand, Ok(AgentResult(stopRun.value.exitCode, stopRun.value.stdout, None, None));
      }
      if options.isolation == "none" || options.isolation == [] {
        if processHandle.None? {
          return None, Err(NotStarted);
        }
        var run := processHandle.value;
        if run.exit.Err? {
          return None, Err(run.exit.error);
        }
        var plainOutput := PlainOutput(run.stdout, run.stderr);
        var parsedOutput: Option<seq<Json>> := None;
        if outputStream.Some? {
          var stream := outputStream.value;
          var _ := stream.Process(run.stdout);
          var _ := stream.Flush();
          ParsedOutputOfStdout(codec, run.stdout);
          parsedOutput := ParsedOutput(stream.messages);
        }
        var update := SessionIdUpdate(codec, options.tool, plainOutput);
        if update.Some? {
          sessionId := update.value;
        }
        return None, Ok(AgentResult(run.exit.value, plainOutput, parsedOutput, sessionId));
      }
      return None, Err(UnsupportedIsolation + options.isolation);
    }

    /** `get_session_id`. */
    function GetSessionId(): Option<string>
      reads this
    {
      sessionId
    }

    /** `get_messages`: everything the output stream has collected, and nothing without a stream. */
    function GetMessages(): (r: seq<Json>)
      reads this, Streams()
      ensures outputStream.None? ==> r == []
      ensures outputStream.Some? ==> r == outputStream.value.messages
    {
      if outputStream.Some? then outputStream.value.messages else []
    }
  }

  /**
   * A stream as `start` creates it, fed the process's stdout and flushed,
   * holds exactly the values `parse_ndjson` finds in that stdout, and
   * `parsed_output` reports them, or none when there are none.
   */
  lemma ParsedOutputOfStdout(codec: Codec, stdout: string)
    ensures FlushState(codec, Feed(codec, Empty, stdout)).messages == ParseAll(codec, stdout)
    ensures ParsedOutput(FlushState(codec, Feed(codec, Empty, stdout)).messages) ==
      (if ParseAll(codec, stdout) == [] then None else Some(ParseAll(codec, stdout)))
  {
    StreamMatchesBatch(codec, Empty, stdout);
    assert Empty.messages + ParseAll(codec, stdout) == ParseAll(codec, stdout);
  }
}
