/**
 * How the application process launches its child processes: the command
 * line of a Java child and of Elasticsearch, the properties file handed to a
 * Java child, the configuration files written for Elasticsearch, and the
 * cleanup when a launch fails.
 *
 * The operating system is a Host object whose effects are recorded in an
 * event log: directories created, files written, IPC slots reset, processes
 * started and destroyed. Which of these fail is fixed when the host is
 * created (HostEnv), so every launch is a deterministic function of the
 * command and the host state; each method below is proved equal to that
 * function, and the properties of a launch are lemmas about the function.
 */
module ProcessLauncher {
  import opened Wrappers
  import opened Text
  import opened JvmOptions

  // Property names a Java child reads from its properties file.
  const PropertyProcessKey := "process.key"
  const PropertyProcessIndex := "process.index"
  const PropertyTerminationTimeout := "process.terminationTimeout"
  const PropertySharedPath := "process.sharedDir"
  const TerminationTimeout := "60000"
  const LauncherKeys := {PropertyProcessKey, PropertyProcessIndex, PropertyTerminationTimeout, PropertySharedPath}

  const Log4j2Comment := "log42 properties file for ES bundled in SonarQube"

  datatype ProcessId = ProcessId(key: string, ipcIndex: int)

  /** A Java child: JVM options, classpath, main class and the arguments passed as properties. */
  datatype JavaCommand = JavaCommand(
    processId: ProcessId,
    workDir: string,
    envVariables: map<string, string>,
    arguments: map<string, string>,
    javaOptions: seq<string>,
    classpath: seq<string>,
    className: string)

  /** Elasticsearch: its start script, options, JVM options and configuration directory. */
  datatype EsCommand = EsCommand(
    processId: ProcessId,
    workDir: string,
    envVariables: map<string, string>,
    executable: string,
    esOptions: seq<string>,
    jvmOptions: seq<string>,
    jvmOptionsFile: string,
    confDir: string,
    log4j2Properties: map<string, string>)

  /** What a written file holds. */
  datatype FileContent =
    | Resource(name: string)
    | StoredProperties(entries: map<string, string>, comment: string)
    | Generated(text: string)

  /** What the process builder holds when it is started. */
  datatype LaunchSpec = LaunchSpec(
    command: seq<string>,
    directory: Option<string>,
    environment: map<string, string>,
    redirectErrorStream: bool)

  datatype Event =
    | DirCreated(path: string)
    | FileWritten(path: string, content: FileContent)
    | SlotReset(ipcIndex: int)
    | Started(pid: nat, spec: LaunchSpec)
    | Destroyed(pid: nat)

  datatype ProcessMonitor =
    | EsProcessMonitor(pid: nat, processId: ProcessId)
    | ProcessCommandsProcessMonitor(pid: nat, processId: ProcessId, ipcIndex: int)

  /** Why a launch failed. */
  datatype Failure =
    | ConfDirNotCreated(confDir: string)
    | ConfFilesNotWritten
    | JvmOptionsNotWritten
    | SettingsNotWritten(file: string)
    | StartFailed
    | MonitorFailed

  /** The message of the exception the launcher raises itself; None for a platform exception. */
  function Message(f: Failure): Option<string>
  {
    match f
    case ConfDirNotCreated(dir) => Some("Failed to create temporary configuration directory [" + dir + "]")
    case ConfFilesNotWritten => Some("Failed to write ES configuration files")
    case JvmOptionsNotWritten => Some("Cannot write Elasticsearch jvm options file")
    case SettingsNotWritten(file) => Some("Cannot write temporary settings to " + file)
    case StartFailed => None
    case MonitorFailed => None
  }

  /** The IllegalStateException every failed launch ends in, wrapping its cause. */
  datatype LaunchError = LaunchError(message: string, cause: Failure)

  function FailMessage(key: string): string
  {
    "Fail to launch process [" + key + "]"
  }

  /**
   * The host's fixed traits: its file separator, the environment a new
   * process inherits, the paths where creating or writing fails, whether
   * starting a process fails, and whether building the monitor of a started
   * process fails.
   */
  datatype HostEnv = HostEnv(
    separator: string,
    inherited: map<string, string>,
    failing: set<string>,
    startFails: bool,
    monitorFails: bool)

  /** The host's changing state. */
  datatype HostState = HostState(dirs: set<string>, events: seq<Event>, nextPid: nat, nextTemp: nat)

  /** A host state after an operation, with the operation's result. */
  datatype Step<T> = Step(state: HostState, value: T)

  // ---------------------------------------------------------------------
  // Host operations, as functions of the state

  function MkdirsStep(s: HostState, h: HostEnv, path: string): Step<bool>
  {
    if path in h.failing then Step(s, false)
    else Step(s.(dirs := s.dirs + {path}, events := s.events + [DirCreated(path)]), true)
  }

  function WriteStep(s: HostState, h: HostEnv, path: string, content: FileContent): Step<bool>
  {
    if path in h.failing then Step(s, false)
    else Step(s.(events := s.events + [FileWritten(path, content)]), true)
  }

  /** The name File.createTempFile gives; the counter stands for its random part. */
  function TempFileName(h: HostEnv, dir: string, prefix: string, suffix: string, n: nat): string
  {
    dir + h.separator + prefix + IntToString(n) + suffix
  }

  function CreateTempFileStep(s: HostState, h: HostEnv, dir: string, prefix: string, suffix: string): Step<Option<string>>
  {
    if dir in h.failing then Step(s, None)
    else
      var path := TempFileName(h, dir, prefix, suffix, s.nextTemp);
      Step(s.(events := s.events + [FileWritten(path, Generated(""))], nextTemp := s.nextTemp + 1), Some(path))
  }

  function StartStep(s: HostState, h: HostEnv, spec: LaunchSpec): Step<Option<nat>>
  {
    if h.startFails then Step(s, None)
    else Step(s.(events := s.events + [Started(s.nextPid, spec)], nextPid := s.nextPid + 1), Some(s.nextPid))
  }

  class Host {
    const env: HostEnv
    var dirs: set<string>
    var events: seq<Event>
    var nextPid: nat
    var nextTemp: nat

    constructor(env: HostEnv, dirs: set<string>)
      ensures this.env == env && State() == HostState(dirs, [], 0, 0)
    {
      this.env := env;
      this.dirs := dirs;
      events := [];
      nextPid := 0;
      nextTemp := 0;
    }

    function State(): HostState
      reads this
    {
      HostState(dirs, events, nextPid, nextTemp)
    }

    /** File.mkdirs. */
    method Mkdirs(path: string) returns (ok: bool)
      modifies this
      ensures State() == MkdirsStep(old(State()), env, path).state
      ensures ok == MkdirsStep(old(State()), env, path).value
    {
      ok := path !in env.failing;
      if ok {
        dirs := dirs + {path};
        events := events + [DirCreated(path)];
      }
    }

    /** Writing a whole file; false stands for the IOException. */
    method WriteFile(path: string, content: FileContent) returns (ok: bool)
      modifies this
      ensures State() == WriteStep(old(State()), env, path, content).state
      ensures ok == WriteStep(old(State()), env, path, content).value
    {
      ok := path !in env.failing;
      if ok {
        events := events + [FileWritten(path, content)];
      }
    }

    /** File.createTempFile: a new empty file in dir. */
    method CreateTempFile(dir: string, prefix: string, suffix: string) returns (path: Option<string>)
      modifies this
      ensures State() == CreateTempFileStep(old(State()), env, dir, prefix, suffix).state
      ensures path == CreateTempFileStep(old(State()), env, dir, prefix, suffix).value
    {
      if dir in env.failing {
        path := None;
      } else {
        var p := TempFileName(env, dir, prefix, suffix, nextTemp);
        events := events + [FileWritten(p, Generated(""))];
        nextTemp := nextTemp + 1;
        path := Some(p);
      }
    }

    /** AllProcessesCommands.createAfterClean: the IPC slot of the index is cleaned and recreated. */
    method ResetSlot(ipcIndex: int)
      modifies this
      ensures State() == old(State()).(events := old(events) + [SlotReset(ipcIndex)])
    {
      events := events + [SlotReset(ipcIndex)];
    }

    method Start(spec: LaunchSpec) returns (pid: Option<nat>)
      modifies this
      ensures State() == StartStep(old(State()), env, spec).state
      ensures pid == StartStep(old(State()), env, spec).value
    {
      if env.startFails {
        pid := None;
      } else {
        pid := Some(nextPid);
        events := events + [Started(nextPid, spec)];
        nextPid := nextPid + 1;
      }
    }

    method DestroyForcibly(pid: nat)
      modifies this
      ensures State() == old(State()).(events := old(events) + [Destroyed(pid)])
    {
      events := events + [Destroyed(pid)];
    }
  }

  /** The launcher's ProcessBuilder: the command, directory, environment and stream setting of a child. */
  class ProcessBuilder {
    var command: seq<string>
    var directory: Option<string>
    var environment: map<string, string>
    var redirectErrorStream: bool

    constructor(inherited: map<string, string>)
      ensures Spec() == LaunchSpec([], None, inherited, false)
    {
      command := [];
      directory := None;
      environment := inherited;
      redirectErrorStream := false;
    }

    function Spec(): LaunchSpec
      reads this
    {
      LaunchSpec(command, directory, environment, redirectErrorStream)
    }

    method Start(host: Host) returns (pid: Option<nat>)
      modifies host
      ensures host.State() == StartStep(old(host.State()), host.env, Spec()).state
      ensures pid == StartStep(old(host.State()), host.env, Spec()).value
    {
      pid := host.Start(Spec());
    }
  }

  // ---------------------------------------------------------------------
  // Command lines and the child's properties

  /** The Elasticsearch command line: the executable's path, then the options in order. */
  function EsCommandLine(cmd: EsCommand): (r: seq<string>)
    ensures |r| == 1 + |cmd.esOptions| && r[0] == cmd.executable && r[1..] == cmd.esOptions
  {
    [cmd.executable] + cmd.esOptions
  }

  /** The java binary under java.home. */
  function JavaPath(javaHome: string, separator: string): string
  {
    javaHome + separator + "bin" + separator + "java"
  }

  /** The classpath arguments: "-cp" and the entries joined by the path separator. */
  function Classpath(cmd: JavaCommand, pathSeparator: string): (r: seq<string>)
    ensures |r| == 2 && r[0] == "-cp" && r[1] == Join(pathSeparator, cmd.classpath)
  {
    ["-cp", Join(pathSeparator, cmd.classpath)]
  }

  /**
   * The Java command line: java, the JVM options, the temporary directory,
   * the classpath, the main class and the properties file.
   */
  function JavaCommandLine(cmd: JavaCommand, javaPath: string, tempDir: string, pathSeparator: string, propertiesFile: string): (r: seq<string>)
    ensures |r| == |cmd.javaOptions| + 6
    ensures r[0] == javaPath && r[1..1 + |cmd.javaOptions|] == cmd.javaOptions
    ensures r[1 + |cmd.javaOptions|] == "-Djava.io.tmpdir=" + tempDir
    ensures r[2 + |cmd.javaOptions|] == "-cp" && r[3 + |cmd.javaOptions|] == Join(pathSeparator, cmd.classpath)
    ensures r[4 + |cmd.javaOptions|] == cmd.className && r[5 + |cmd.javaOptions|] == propertiesFile
  {
    [javaPath] + cmd.javaOptions + ["-Djava.io.tmpdir=" + tempDir]
      + Classpath(cmd, pathSeparator) + [cmd.className] + [propertiesFile]
  }

  /**
   * The properties a Java child receives: every argument's key and the
   * four launcher settings; the settings win over an argument of the same
   * name, and every other argument keeps its value.
   */
  function ChildProperties(cmd: JavaCommand, tempDir: string): (r: map<string, string>)
    ensures r.Keys == cmd.arguments.Keys + LauncherKeys
    ensures r[PropertyProcessKey] == cmd.processId.key
    ensures r[PropertyProcessIndex] == IntToString(cmd.processId.ipcIndex)
    ensures r[PropertyTerminationTimeout] == "60000"
    ensures r[PropertySharedPath] == tempDir
    ensures forall k :: k in cmd.arguments && k !in LauncherKeys ==> r[k] == cmd.arguments[k]
  {
    cmd.arguments[PropertyProcessKey := cmd.processId.key]
      [PropertyProcessIndex := IntToString(cmd.processId.ipcIndex)]
      [PropertyTerminationTimeout := TerminationTimeout]
      [PropertySharedPath := tempDir]
  }

  /** The index written to the properties file reads back as the command's IPC index. */
  lemma ChildPropertiesIndexReadsBack(cmd: JavaCommand, tempDir: string)
    ensures ParseInt(ChildProperties(cmd, tempDir)[PropertyProcessIndex]) == Some(cmd.processId.ipcIndex)
  {
    IntToStringRoundTrip(cmd.processId.ipcIndex);
  }

  /** The comment stored at the head of a Java child's properties file. */
  function PropertiesComment(key: string): string
  {
    "Temporary properties file for command [" + key + "]"
  }

  /**
   * What a process builder holds once create(AbstractCommand, List) has set
   * it up: the command line, the work dir, the error stream merged, and the
   * inherited environment where the command's variables win.
   */
  function BuilderSpec(h: HostEnv, workDir: string, envVariables: map<string, string>, command: seq<string>): (r: LaunchSpec)
    ensures r.command == command && r.directory == Some(workDir) && r.redirectErrorStream
    ensures r.environment.Keys == h.inherited.Keys + envVariables.Keys
    ensures forall k :: k in envVariables ==> r.environment[k] == envVariables[k]
    ensures forall k :: k in h.inherited && k !in envVariables ==> r.environment[k] == h.inherited[k]
  {
    LaunchSpec(command, Some(workDir), h.inherited + envVariables, true)
  }

  // ---------------------------------------------------------------------
  // The launch, as a function of the host state

  function ConfFile(h: HostEnv, confDir: string, name: string): string
  {
    confDir + h.separator + name
  }

  function WriteConfFilesStep(s: HostState, h: HostEnv, cmd: EsCommand): Step<Option<Failure>>
  {
    var m := if cmd.confDir in s.dirs then Step(s, true) else MkdirsStep(s, h, cmd.confDir);
    if !m.value then Step(m.state, Some(ConfDirNotCreated(cmd.confDir)))
    else
      var w1 := WriteStep(m.state, h, ConfFile(h, cmd.confDir, "elasticsearch.yml"), Resource("elasticsearch.yml"));
      if !w1.value then Step(w1.state, Some(ConfFilesNotWritten))
      else
        var w2 := WriteStep(w1.state, h, ConfFile(h, cmd.confDir, "jvm.options"), Resource("jvm.options"));
        if !w2.value then Step(w2.state, Some(ConfFilesNotWritten))
        else
          var w3 := WriteStep(w2.state, h, ConfFile(h, cmd.confDir, "log4j2.properties"),
            StoredProperties(cmd.log4j2Properties, Log4j2Comment));
          if !w3.value then Step(w3.state, Some(ConfFilesNotWritten))
          else Step(w3.state, None)
  }

  function CreateEsStep(s: HostState, h: HostEnv, cmd: EsCommand): Step<Result<LaunchSpec, Failure>>
  {
    var w := WriteStep(s, h, cmd.jvmOptionsFile, Generated(JvmOptionsContent(cmd.jvmOptions)));
    if !w.value then Step(w.state, Err(JvmOptionsNotWritten))
    else Step(w.state, Ok(BuilderSpec(h, cmd.workDir, cmd.envVariables, EsCommandLine(cmd))))
  }

  function PropertiesFileStep(s: HostState, h: HostEnv, cmd: JavaCommand, tempDir: string): Step<Result<string, Failure>>
  {
    var t := CreateTempFileStep(s, h, tempDir, "sq-process", "properties");
    if t.value.None? then Step(t.state, Err(SettingsNotWritten("null")))
    else
      var w := WriteStep(t.state, h, t.value.value,
        StoredProperties(ChildProperties(cmd, tempDir), PropertiesComment(cmd.processId.key)));
      if !w.value then Step(w.state, Err(SettingsNotWritten(t.value.value)))
      else Step(w.state, Ok(t.value.value))
  }

  function CreateJavaStep(s: HostState, h: HostEnv, cmd: JavaCommand, javaHome: string, tempDir: string, pathSeparator: string): Step<Result<LaunchSpec, Failure>>
  {
    var p := PropertiesFileStep(s, h, cmd, tempDir);
    if p.value.Err? then Step(p.state, Err(p.value.error))
    else
      var line := JavaCommandLine(cmd, JavaPath(javaHome, h.separator), tempDir, pathSeparator, p.value.value);
      Step(p.state, Ok(BuilderSpec(h, cmd.workDir, cmd.envVariables, line)))
  }

  /** Starting the process and building its monitor; a started process whose monitor fails is destroyed. */
  function StartMonitoredStep(s: HostState, h: HostEnv, spec: LaunchSpec): Step<Result<nat, Failure>>
  {
    var st := StartStep(s, h, spec);
    if st.value.None? then Step(st.state, Err(StartFailed))
    else if h.monitorFails then
      Step(st.state.(events := st.state.events + [Destroyed(st.value.value)]), Err(MonitorFailed))
    else Step(st.state, Ok(st.value.value))
  }

  function LaunchEsStep(s: HostState, h: HostEnv, cmd: EsCommand): Step<Result<ProcessMonitor, LaunchError>>
  {
    var fail := (f: Failure) => Err(LaunchError(FailMessage(cmd.processId.key), f));
    var c := WriteConfFilesStep(s, h, cmd);
    if c.value.Some? then Step(c.state, fail(c.value.value))
    else
      var b := CreateEsStep(c.state, h, cmd);
      if b.value.Err? then Step(b.state, fail(b.value.error))
      else
        var p := StartMonitoredStep(b.state, h, b.value.value);
        if p.value.Err? then Step(p.state, fail(p.value.error))
        else Step(p.state, Ok(EsProcessMonitor(p.value.value, cmd.processId)))
  }

  function LaunchJavaStep(s: HostState, h: HostEnv, cmd: JavaCommand, javaHome: string, tempDir: string, pathSeparator: string): Step<Result<ProcessMonitor, LaunchError>>
  {
    var fail := (f: Failure) => Err(LaunchError(FailMessage(cmd.processId.key), f));
    var r := s.(events := s.events + [SlotReset(cmd.processId.ipcIndex)]);
    var b := CreateJavaStep(r, h, cmd, javaHome, tempDir, pathSeparator);
    if b.value.Err? then Step(b.state, fail(b.value.error))
    else
      var p := StartMonitoredStep(b.state, h, b.value.value);
      if p.value.Err? then Step(p.state, fail(p.value.error))
      else Step(p.state, Ok(ProcessCommandsProcessMonitor(p.value.value, cmd.processId, cmd.processId.ipcIndex)))
  }

  // ---------------------------------------------------------------------
  // The launcher

  class ProcessLauncherImpl {
    const tempDir: string
    const javaHome: string
    const pathSeparator: string
    const host: Host

    constructor(tempDir: string, javaHome: string, pathSeparator: string, host: Host)
      ensures this.tempDir == tempDir && this.javaHome == javaHome
      ensures this.pathSeparator == pathSeparator && this.host == host
    {
      this.tempDir := tempDir;
      this.javaHome := javaHome;
      this.pathSeparator := pathSeparator;
      this.host := host;
    }

    /** launch(EsCommand): configuration files, jvm.options, then the process. */
    method LaunchEs(cmd: EsCommand) returns (r: Result<ProcessMonitor, LaunchError>)
      modifies host
      ensures host.State() == LaunchEsStep(old(host.State()), host.env, cmd).state
      ensures r == LaunchEsStep(old(host.State()), host.env, cmd).value
    {
      var process: Option<nat> := None;
      var failure := WriteConfFiles(cmd);
      if failure.None? {
        var pb;
        pb, failure := CreateEs(cmd);
        if failure.None? {
          process := pb.Start(host);
          if process.None? {
            failure := Some(StartFailed);
          } else {
            var monitor := NewMonitor(EsProcessMonitor(process.value, cmd.processId));
            if monitor.Some? {
              return Ok(monitor.value);
            }
            failure := Some(MonitorFailed);
          }
        }
      }
      // the catch block
      if process.Some? {
        host.DestroyForcibly(process.value);
      }
      r := Err(LaunchError(FailMessage(cmd.processId.key), failure.value));
    }

    /** writeConfFiles: the configuration directory, then the three files in it. */
    method WriteConfFiles(cmd: EsCommand) returns (failure: Option<Failure>)
      modifies host
      ensures host.State() == WriteConfFilesStep(old(host.State()), host.env, cmd).state
      ensures failure == WriteConfFilesStep(old(host.State()), host.env, cmd).value
    {
      if cmd.confDir !in host.dirs {
        var created := host.Mkdirs(cmd.confDir);
        if !created {
          return Some(ConfDirNotCreated(cmd.confDir));
        }
      }
      var ok := host.WriteFile(ConfFile(host.env, cmd.confDir, "elasticsearch.yml"), Resource("elasticsearch.yml"));
      if ok {
        ok := host.WriteFile(ConfFile(host.env, cmd.confDir, "jvm.options"), Resource("jvm.options"));
        if ok {
          ok := host.WriteFile(ConfFile(host.env, cmd.confDir, "log4j2.properties"),
            StoredProperties(cmd.log4j2Properties, Log4j2Comment));
        }
      }
      failure := if ok then None else Some(ConfFilesNotWritten);
    }

    /** create(EsCommand): the command line, then jvm.options, then the builder. */
    method CreateEs(cmd: EsCommand) returns (pb: ProcessBuilder?, failure: Option<Failure>)
      modifies host
      ensures host.State() == CreateEsStep(old(host.State()), host.env, cmd).state
      ensures failure.None? <==> CreateEsStep(old(host.State()), host.env, cmd).value.Ok?
      ensures failure.Some? ==> Err(failure.value) == CreateEsStep(old(host.State()), host.env, cmd).value
      ensures failure.None? ==> (pb != null && fresh(pb)
        && Ok(pb.Spec()) == CreateEsStep(old(host.State()), host.env, cmd).value)
    {
      var commands: seq<string> := [];
      commands := commands + [cmd.executable];
      commands := commands + cmd.esOptions;
      failure := WriteJvmOptions(cmd);
      if failure.Some? {
        return null, failure;
      }
      assert commands == EsCommandLine(cmd);
      pb := CreateBuilder(cmd.workDir, cmd.envVariables, commands);
    }

    /** writeJvmOptions: the generated jvm.options file. */
    method WriteJvmOptions(cmd: EsCommand) returns (failure: Option<Failure>)
      modifies host
      ensures host.State() == WriteStep(old(host.State()), host.env, cmd.jvmOptionsFile, Generated(JvmOptionsContent(cmd.jvmOptions))).state
      ensures failure.None? <==> WriteStep(old(host.State()), host.env, cmd.jvmOptionsFile, Generated(JvmOptionsContent(cmd.jvmOptions))).value
      ensures failure.Some? ==> failure.value == JvmOptionsNotWritten
    {
      var ok := host.WriteFile(cmd.jvmOptionsFile, Generated(JvmOptionsContent(cmd.jvmOptions)));
      failure := if ok then None else Some(JvmOptionsNotWritten);
    }

    /** launch(JavaCommand): the IPC slot, then the builder, then the process. */
    method LaunchJava(cmd: JavaCommand) returns (r: Result<ProcessMonitor, LaunchError>)
      modifies host
      ensures host.State() == LaunchJavaStep(old(host.State()), host.env, cmd, javaHome, tempDir, pathSeparator).state
      ensures r == LaunchJavaStep(old(host.State()), host.env, cmd, javaHome, tempDir, pathSeparator).value
    {
      var process: Option<nat> := None;
      host.ResetSlot(cmd.processId.ipcIndex);
      var pb, failure := CreateJava(cmd);
      if failure.None? {
        process := pb.Start(host);
        if process.None? {
          failure := Some(StartFailed);
        } else {
          var monitor := NewMonitor(ProcessCommandsProcessMonitor(process.value, cmd.processId, cmd.processId.ipcIndex));
          if monitor.Some? {
            return Ok(monitor.value);
          }
          failure := Some(MonitorFailed);
        }
      }
      // the catch block
      if process.Some? {
        host.DestroyForcibly(process.value);
      }
      r := Err(LaunchError(FailMessage(cmd.processId.key), failure.value));
    }

    /** create(JavaCommand): java, options, temporary directory, classpath, class and properties file. */
    method CreateJava(cmd: JavaCommand) returns (pb: ProcessBuilder?, failure: Option<Failure>)
      modifies host
      ensures host.State() == CreateJavaStep(old(host.State()), host.env, cmd, javaHome, tempDir, pathSeparator).state
      ensures failure.None? <==> CreateJavaStep(old(host.State()), host.env, cmd, javaHome, tempDir, pathSeparator).value.Ok?
      ensures failure.Some? ==> Err(failure.value) == CreateJavaStep(old(host.State()), host.env, cmd, javaHome, tempDir, pathSeparator).value
      ensures failure.None? ==> (pb != null && fresh(pb)
        && Ok(pb.Spec()) == CreateJavaStep(old(host.State()), host.env, cmd, javaHome, tempDir, pathSeparator).value)
    {
      ghost var before := host.State();
      var commands: seq<string> := [];
      commands := commands + [JavaPath(javaHome, host.env.separator)];
      commands := commands + cmd.javaOptions;
      commands := commands + ["-Djava.io.tmpdir=" + tempDir];
      commands := commands + Classpath(cmd, pathSeparator);
      commands := commands + [cmd.className];
      var file;
      file, failure := BuildPropertiesFile(cmd);
      if failure.Some? {
        return null, failure;
      }
      assert PropertiesFileStep(before, host.env, cmd, tempDir).value == Ok(file);
      commands := commands + [file];
      var line := JavaCommandLine(cmd, JavaPath(javaHome, host.env.separator), tempDir, pathSeparator, file);
      assert commands == line;
      assert CreateJavaStep(before, host.env, cmd, javaHome, tempDir, pathSeparator).value
        == Ok(BuilderSpec(host.env, cmd.workDir, cmd.envVariables, line));
      pb := CreateBuilder(cmd.workDir, cmd.envVariables, commands);
    }

    /** buildPropertiesFile: a temporary file holding the child's properties. */
    method BuildPropertiesFile(cmd: JavaCommand) returns (file: string, failure: Option<Failure>)
      modifies host
      ensures host.State() == PropertiesFileStep(old(host.State()), host.env, cmd, tempDir).state
      ensures failure.None? ==> Ok(file) == PropertiesFileStep(old(host.State()), host.env, cmd, tempDir).value
      ensures failure.Some? ==> Err(failure.value) == PropertiesFileStep(old(host.State()), host.env, cmd, tempDir).value
    {
      var propertiesFile := host.CreateTempFile(tempDir, "sq-process", "properties");
      if propertiesFile.None? {
        return "", Some(SettingsNotWritten("null"));
      }
      var props := cmd.arguments;
      props := props[PropertyProcessKey := cmd.processId.key];
      props := props[PropertyProcessIndex := IntToString(cmd.processId.ipcIndex)];
      props := props[PropertyTerminationTimeout := TerminationTimeout];
      props := props[PropertySharedPath := tempDir];
      var ok := host.WriteFile(propertiesFile.value, StoredProperties(props, PropertiesComment(cmd.processId.key)));
      if !ok {
        return "", Some(SettingsNotWritten(propertiesFile.value));
      }
      file, failure := propertiesFile.value, None;
    }

    /** create(AbstractCommand, List): a new builder with the command line, work dir, environment and merged error stream. */
    method CreateBuilder(workDir: string, envVariables: map<string, string>, commands: seq<string>) returns (pb: ProcessBuilder)
      ensures fresh(pb) && pb.Spec() == BuilderSpec(host.env, workDir, envVariables, commands)
    {
      pb := new ProcessBuilder(host.env.inherited);
      pb.command := commands;
      pb.directory := Some(workDir);
      pb.environment := pb.environment + envVariables;
      pb.redirectErrorStream := true;
    }

    /** The monitor of a started process; its construction fails when the host says so. */
    method NewMonitor(m: ProcessMonitor) returns (r: Option<ProcessMonitor>)
      ensures r == if host.env.monitorFails then None else Some(m)
    {
      r := if host.env.monitorFails then None else Some(m);
    }
  }

  // ---------------------------------------------------------------------
  // Properties of a launch

  /** The processes started and not yet destroyed. */
  function Running(events: seq<Event>): set<nat>
  {
    if events == [] then {}
    else
      var before := Running(events[..|events| - 1]);
      match events[|events| - 1]
      case Started(pid, _) => before + {pid}
      case Destroyed(pid) => before - {pid}
      case _ => before
  }

  /** Every process id handed out so far is below the next one. */
  ghost predicate PidsBelow(s: HostState)
  {
    forall i :: 0 <= i < |s.events| && s.events[i].Started? ==> s.events[i].pid < s.nextPid
  }

  lemma {:induction false} RunningBelow(events: seq<Event>, bound: nat)
    requires forall i :: 0 <= i < |events| && events[i].Started? ==> events[i].pid < bound
    ensures forall p :: p in Running(events) ==> p < bound
  {
    if events != [] {
      RunningBelow(events[..|events| - 1], bound);
    }
  }

  /** An event other than a start or a destruction leaves the running set alone. */
  lemma RunningAppendQuiet(events: seq<Event>, e: Event)
    requires !e.Started? && !e.Destroyed?
    ensures Running(events + [e]) == Running(events)
  {
    assert (events + [e])[..|events|] == events;
  }

  /**
   * The no-orphan rule of a start: when starting and monitoring fails, the
   * running processes are those of before; when it succeeds, exactly the
   * new process is added, and it was not running before.
   */
  lemma StartMonitoredRunning(s: HostState, h: HostEnv, spec: LaunchSpec)
    requires PidsBelow(s)
    ensures PidsBelow(StartMonitoredStep(s, h, spec).state)
    ensures StartMonitoredStep(s, h, spec).value.Err? ==> Running(StartMonitoredStep(s, h, spec).state.events) == Running(s.events)
    ensures StartMonitoredStep(s, h, spec).value.Ok? ==>
      var pid := StartMonitoredStep(s, h, spec).value.value;
      pid !in Running(s.events) && Running(StartMonitoredStep(s, h, spec).state.events) == Running(s.events) + {pid}
  {
    if !h.startFails {
      var pid := s.nextPid;
      var e1 := s.events + [Started(pid, spec)];
      RunningBelow(s.events, pid);
      assert e1[..|s.events|] == s.events;
      if h.monitorFails {
        var e2 := e1 + [Destroyed(pid)];
        assert e2[..|e1|] == e1;
        assert Running(e2) == Running(s.events) + {pid} - {pid};
      }
    }
  }

  /** Operations that only write files or create directories start and stop nothing. */
  ghost predicate Quiet(before: HostState, after: HostState)
  {
    after.nextPid == before.nextPid
    && |before.events| <= |after.events|
    && after.events[..|before.events|] == before.events
    && forall i :: |before.events| <= i < |after.events| ==> !after.events[i].Started? && !after.events[i].Destroyed?
  }

  lemma {:induction false} QuietRunning(before: HostState, after: HostState)
    requires Quiet(before, after)
    ensures Running(after.events) == Running(before.events)
    decreases |after.events|
  {
    if |after.events| > |before.events| {
      var shorter := after.(events := after.events[..|after.events| - 1]);
      assert shorter.events[..|before.events|] == before.events;
      QuietRunning(before, shorter);
      RunningAppendQuiet(shorter.events, after.events[|after.events| - 1]);
      assert shorter.events + [after.events[|after.events| - 1]] == after.events;
    } else {
      assert after.events == before.events;
    }
  }

  lemma QuietPidsBelow(before: HostState, after: HostState)
    requires Quiet(before, after) && PidsBelow(before)
    ensures PidsBelow(after)
  {
    forall i | 0 <= i < |after.events| && after.events[i].Started?
      ensures after.events[i].pid < after.nextPid
    {
      assert i < |before.events|;
      assert after.events[i] == before.events[i];
    }
  }

  lemma WriteConfFilesQuiet(s: HostState, h: HostEnv, cmd: EsCommand)
    ensures Quiet(s, WriteConfFilesStep(s, h, cmd).state)
  {
  }

  lemma CreateEsQuiet(s: HostState, h: HostEnv, cmd: EsCommand)
    ensures Quiet(s, CreateEsStep(s, h, cmd).state)
  {
  }

  lemma CreateJavaQuiet(s: HostState, h: HostEnv, cmd: JavaCommand, javaHome: string, tempDir: string, pathSeparator: string)
    ensures Quiet(s, CreateJavaStep(s, h, cmd, javaHome, tempDir, pathSeparator).state)
  {
  }

  /**
   * A failed Elasticsearch launch leaves no process of its own running and
   * names the process key; a successful one runs exactly one new process,
   * the one its monitor watches.
   */
  lemma LaunchEsNoOrphan(s: HostState, h: HostEnv, cmd: EsCommand)
    requires PidsBelow(s)
    ensures PidsBelow(LaunchEsStep(s, h, cmd).state)
    ensures LaunchEsStep(s, h, cmd).value.Err? ==>
      Running(LaunchEsStep(s, h, cmd).state.events) == Running(s.events)
      && LaunchEsStep(s, h, cmd).value.error.message == FailMessage(cmd.processId.key)
    ensures LaunchEsStep(s, h, cmd).value.Ok? ==>
      var m := LaunchEsStep(s, h, cmd).value.value;
      m == EsProcessMonitor(m.pid, cmd.processId) && m.pid !in Running(s.events)
      && Running(LaunchEsStep(s, h, cmd).state.events) == Running(s.events) + {m.pid}
  {
    var c := WriteConfFilesStep(s, h, cmd);
    WriteConfFilesQuiet(s, h, cmd);
    QuietRunning(s, c.state);
    QuietPidsBelow(s, c.state);
    if c.value.None? {
      var b := CreateEsStep(c.state, h, cmd);
      CreateEsQuiet(c.state, h, cmd);
      QuietRunning(c.state, b.state);
      QuietPidsBelow(c.state, b.state);
      if b.value.Ok? {
        StartMonitoredRunning(b.state, h, b.value.value);
      }
    }
  }

  /** The same for a Java launch, whose monitor also carries the IPC index. */
  lemma LaunchJavaNoOrphan(s: HostState, h: HostEnv, cmd: JavaCommand, javaHome: string, tempDir: string, pathSeparator: string)
    requires PidsBelow(s)
    ensures PidsBelow(LaunchJavaStep(s, h, cmd, javaHome, tempDir, pathSeparator).state)
    ensures LaunchJavaStep(s, h, cmd, javaHome, tempDir, pathSeparator).value.Err? ==>
      Running(LaunchJavaStep(s, h, cmd, javaHome, tempDir, pathSeparator).state.events) == Running(s.events)
      && LaunchJavaStep(s, h, cmd, javaHome, tempDir, pathSeparator).value.error.message == FailMessage(cmd.processId.key)
    ensures LaunchJavaStep(s, h, cmd, javaHome, tempDir, pathSeparator).value.Ok? ==>
      var m := LaunchJavaStep(s, h, cmd, javaHome, tempDir, pathSeparator).value.value;
      m == ProcessCommandsProcessMonitor(m.pid, cmd.processId, cmd.processId.ipcIndex) && m.pid !in Running(s.events)
      && Running(LaunchJavaStep(s, h, cmd, javaHome, tempDir, pathSeparator).state.events) == Running(s.events) + {m.pid}
  {
    var r := s.(events := s.events + [SlotReset(cmd.processId.ipcIndex)]);
    assert Quiet(s, r);
    QuietRunning(s, r);
    QuietPidsBelow(s, r);
    var b := CreateJavaStep(r, h, cmd, javaHome, tempDir, pathSeparator);
    CreateJavaQuiet(r, h, cmd, javaHome, tempDir, pathSeparator);
    QuietRunning(r, b.state);
    QuietPidsBelow(r, b.state);
    if b.value.Ok? {
      StartMonitoredRunning(b.state, h, b.value.value);
    }
  }

  /** A configuration directory that is missing and cannot be created fails the launch before anything happens. */
  lemma LaunchEsConfDirFailure(s: HostState, h: HostEnv, cmd: EsCommand)
    requires cmd.confDir !in s.dirs && cmd.confDir in h.failing
    ensures LaunchEsStep(s, h, cmd).state == s
    ensures LaunchEsStep(s, h, cmd).value
      == Err(LaunchError(FailMessage(cmd.processId.key), ConfDirNotCreated(cmd.confDir)))
    ensures Message(LaunchEsStep(s, h, cmd).value.error.cause)
      == Some("Failed to create temporary configuration directory [" + cmd.confDir + "]")
  {
  }

  /** The paths of the files an event sequence writes, in order. */
  function Written(events: seq<Event>): seq<string>
  {
    if events == [] then []
    else (if events[0].FileWritten? then [events[0].path] else []) + Written(events[1..])
  }

  lemma {:induction false} WrittenAppend(a: seq<Event>, b: seq<Event>)
    ensures Written(a + b) == Written(a) + Written(b)
  {
    if a != [] {
      assert (a + b)[1..] == a[1..] + b;
      WrittenAppend(a[1..], b);
    } else {
      assert a + b == b;
    }
  }

  /**
   * A successful Elasticsearch launch writes exactly elasticsearch.yml,
   * jvm.options and log4j2.properties in the configuration directory, then
   * the generated JVM options file, and its last act is starting the
   * Elasticsearch command line in the work dir, with the command's
   * environment and the error stream merged.
   */
  lemma LaunchEsSuccess(s: HostState, h: HostEnv, cmd: EsCommand)
    requires LaunchEsStep(s, h, cmd).value.Ok?
    ensures |LaunchEsStep(s, h, cmd).state.events| > |s.events|
    ensures Written(LaunchEsStep(s, h, cmd).state.events[|s.events|..]) == [
      ConfFile(h, cmd.confDir, "elasticsearch.yml"),
      ConfFile(h, cmd.confDir, "jvm.options"),
      ConfFile(h, cmd.confDir, "log4j2.properties"),
      cmd.jvmOptionsFile]
    ensures Last(LaunchEsStep(s, h, cmd).state.events)
      == Started(LaunchEsStep(s, h, cmd).value.value.pid, BuilderSpec(h, cmd.workDir, cmd.envVariables, EsCommandLine(cmd)))
  {
    var e := LaunchEsStep(s, h, cmd).state.events;
    var jvm := FileWritten(cmd.jvmOptionsFile, Generated(JvmOptionsContent(cmd.jvmOptions)));
    var spec := BuilderSpec(h, cmd.workDir, cmd.envVariables, EsCommandLine(cmd));
    var f1 := FileWritten(ConfFile(h, cmd.confDir, "elasticsearch.yml"), Resource("elasticsearch.yml"));
    var f2 := FileWritten(ConfFile(h, cmd.confDir, "jvm.options"), Resource("jvm.options"));
    var f3 := FileWritten(ConfFile(h, cmd.confDir, "log4j2.properties"), StoredProperties(cmd.log4j2Properties, Log4j2Comment));
    var started := Started(s.nextPid, spec);
    var dir: seq<Event> := if cmd.confDir in s.dirs then [] else [DirCreated(cmd.confDir)];
    var rest := dir + [f1] + [f2] + [f3] + [jvm] + [started];
    assert e == s.events + rest;
    assert e[|s.events|..] == rest;
    WrittenAppend(dir + [f1] + [f2] + [f3] + [jvm], [started]);
    WrittenAppend(dir + [f1] + [f2] + [f3], [jvm]);
    WrittenAppend(dir + [f1] + [f2], [f3]);
    WrittenAppend(dir + [f1], [f2]);
    WrittenAppend(dir, [f1]);
    assert Written(dir) == [];
  }

  function Last(events: seq<Event>): Event
    requires events != []
  {
    events[|events| - 1]
  }

  /**
   * A Java launch first resets the IPC slot of its index. When it succeeds,
   * the properties file it wrote holds the child's properties, and its last
   * act is starting the Java command line that names that file.
   */
  lemma LaunchJavaSuccess(s: HostState, h: HostEnv, cmd: JavaCommand, javaHome: string, tempDir: string, pathSeparator: string)
    ensures |LaunchJavaStep(s, h, cmd, javaHome, tempDir, pathSeparator).state.events| > |s.events|
    ensures LaunchJavaStep(s, h, cmd, javaHome, tempDir, pathSeparator).state.events[|s.events|] == SlotReset(cmd.processId.ipcIndex)
    ensures LaunchJavaStep(s, h, cmd, javaHome, tempDir, pathSeparator).value.Ok? ==>
      var e := LaunchJavaStep(s, h, cmd, javaHome, tempDir, pathSeparator).state.events;
      var pid := LaunchJavaStep(s, h, cmd, javaHome, tempDir, pathSeparator).value.value.pid;
      exists file ::
        e[|e| - 2] == FileWritten(file, StoredProperties(ChildProperties(cmd, tempDir), PropertiesComment(cmd.processId.key)))
        && e[|e| - 1] == Started(pid, BuilderSpec(h, cmd.workDir, cmd.envVariables,
          JavaCommandLine(cmd, JavaPath(javaHome, h.separator), tempDir, pathSeparator, file)))
  {
    var r := s.(events := s.events + [SlotReset(cmd.processId.ipcIndex)]);
    var b := CreateJavaStep(r, h, cmd, javaHome, tempDir, pathSeparator);
    CreateJavaQuiet(r, h, cmd, javaHome, tempDir, pathSeparator);
    var st := LaunchJavaStep(s, h, cmd, javaHome, tempDir, pathSeparator);
    assert st.state.events[..|r.events|] == r.events by {
      if b.value.Ok? && !h.startFails {
        assert st.state.events[..|b.state.events|] == b.state.events;
      }
    }
    assert st.state.events[|s.events|] == st.state.events[..|r.events|][|s.events|];
    if st.value.Ok? {
      var file := b.value.value.command[|b.value.value.command| - 1];
      var p := PropertiesFileStep(r, h, cmd, tempDir);
      assert p.value.Ok? && file == p.value.value;
      var e := st.state.events;
      assert e[|e| - 2] == FileWritten(file, StoredProperties(ChildProperties(cmd, tempDir), PropertiesComment(cmd.processId.key)));
    }
  }
}
