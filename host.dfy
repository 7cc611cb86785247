/** The host the prereq state works on, made abstract: a file system as a map from path to text,
    the set of paths with the execute bit, and an append-only log of every effect issued (package
    installation, file writes, commands).  Command exit statuses are an input of the model. */
module HostModel {
  import opened Outcomes

  type Path = string
  type Text = string

  /** The must-succeed flag a command is issued with.  `ExecutorDefault` stands for a call that
      passes no flag, whose behaviour is the command executor's and is not fixed here. */
  datatype Flag = Required | BestEffort | ExecutorDefault

  /** One externally visible effect, in the order it was issued. */
  datatype Effect =
    | InstallExtras
    | WriteFile(path: Path, text: Text)
    | Execute(command: string, flag: Flag)
    | ExecuteInBash(script: string, flag: Flag)

  /** The observable host. */
  datatype HostState = HostState(files: map<Path, Text>, executables: set<Path>, log: seq<Effect>)

  /** What the host does when asked: which command lines exit non-zero, whether the distro
      patcher's package installation raises, and whether a command issued without a flag raises
      on a non-zero exit. */
  datatype Behaviour = Behaviour(failing: set<string>, installExtrasFails: bool, defaultRaises: bool)

  /** A host state after a step, and how the step ended. */
  datatype Step = Step(host: HostState, outcome: Outcome)

  /** A non-zero exit of a command issued with `flag` raises. */
  predicate Raises(b: Behaviour, flag: Flag)
  {
    flag == Required || (flag == ExecutorDefault && b.defaultRaises)
  }

  function CopyCommand(src: Path, dst: Path): string
  {
    "cp " + src + " " + dst
  }

  function ChmodCommand(path: Path): string
  {
    "chmod +x " + path
  }

  function InstallExtrasStep(b: Behaviour, h: HostState): Step
  {
    var h' := h.(log := h.log + [InstallExtras]);
    if b.installExtrasFails then Step(h', Fail(InstallExtrasFailed)) else Step(h', Pass)
  }

  function ExecuteStep(b: Behaviour, h: HostState, command: string, flag: Flag): Step
  {
    var h' := h.(log := h.log + [Execute(command, flag)]);
    if command in b.failing && Raises(b, flag) then Step(h', Fail(CommandFailed(command)))
    else Step(h', Pass)
  }

  function ExecuteInBashStep(b: Behaviour, h: HostState, script: string, flag: Flag): Step
  {
    var h' := h.(log := h.log + [ExecuteInBash(script, flag)]);
    if script in b.failing && Raises(b, flag) then Step(h', Fail(CommandFailed(script)))
    else Step(h', Pass)
  }

  function WriteFileStep(h: HostState, path: Path, text: Text): HostState
  {
    h.(files := h.files[path := text], log := h.log + [WriteFile(path, text)])
  }

  /** `cp src dst` issued as a must-succeed command; it exits non-zero when the host says so or
      when `src` does not exist, and otherwise gives `dst` the text of `src`. */
  function CopyStep(b: Behaviour, h: HostState, src: Path, dst: Path): Step
  {
    var command := CopyCommand(src, dst);
    var h' := h.(log := h.log + [Execute(command, Required)]);
    if command in b.failing || src !in h.files then Step(h', Fail(CommandFailed(command)))
    else Step(h'.(files := h.files[dst := h.files[src]]), Pass)
  }

  /** `chmod +x path` issued as a must-succeed command; it exits non-zero when the host says so or
      when `path` does not exist, and otherwise marks `path` executable. */
  function ChmodStep(b: Behaviour, h: HostState, path: Path): Step
  {
    var command := ChmodCommand(path);
    var h' := h.(log := h.log + [Execute(command, Required)]);
    if command in b.failing || path !in h.files then Step(h', Fail(CommandFailed(command)))
    else Step(h'.(executables := h.executables + {path}), Pass)
  }

  /** The host as an object: the file system, the execute bits and the effect log are updated in
      place by the operations the prereq state calls. */
  class Host {
    var files: map<Path, Text>
    var executables: set<Path>
    var log: seq<Effect>
    const behaviour: Behaviour

    constructor (files: map<Path, Text>, executables: set<Path>, behaviour: Behaviour)
      ensures State() == HostState(files, executables, [])
      ensures this.behaviour == behaviour
    {
      this.files := files;
      this.executables := executables;
      this.log := [];
      this.behaviour := behaviour;
    }

    function State(): HostState
      reads this
    {
      HostState(files, executables, log)
    }

    /** The distro patcher's package installation. */
    method InstallExtras() returns (o: Outcome)
      modifies this
      ensures Step(State(), o) == InstallExtrasStep(behaviour, old(State()))
    {
      log := log + [Effect.InstallExtras];
      o := if behaviour.installExtrasFails then Fail(InstallExtrasFailed) else Pass;
    }

    /** Runs one command line, raising on a non-zero exit when `flag` says so. */
    method Execute(command: string, flag: Flag) returns (o: Outcome)
      modifies this
      ensures Step(State(), o) == ExecuteStep(behaviour, old(State()), command, flag)
    {
      log := log + [Effect.Execute(command, flag)];
      o := if command in behaviour.failing && Raises(behaviour, flag)
           then Fail(CommandFailed(command)) else Pass;
    }

    /** Runs a shell script body, raising on a non-zero exit when `flag` says so. */
    method ExecuteInBash(script: string, flag: Flag) returns (o: Outcome)
      modifies this
      ensures Step(State(), o) == ExecuteInBashStep(behaviour, old(State()), script, flag)
    {
      log := log + [Effect.ExecuteInBash(script, flag)];
      o := if script in behaviour.failing && Raises(behaviour, flag)
           then Fail(CommandFailed(script)) else Pass;
    }

    /** Reads a file; opening a missing file raises. */
    method ReadFile(path: Path) returns (r: Result<Text>)
      ensures path in files ==> r == Ok(files[path])
      ensures path !in files ==> r == Err(UnitFileUnreadable(path))
    {
      if path in files {
        r := Ok(files[path]);
      } else {
        r := Err(UnitFileUnreadable(path));
      }
    }

    /** Replaces the text of a file, creating it when absent. */
    method WriteFile(path: Path, text: Text)
      modifies this
      ensures State() == WriteFileStep(old(State()), path, text)
    {
      files := files[path := text];
      log := log + [Effect.WriteFile(path, text)];
    }

    /** Whether a path exists. */
    method Exists(path: Path) returns (b: bool)
      ensures b <==> path in files
    {
      b := path in files;
    }

    /** `cp src dst`, issued with must-succeed set. */
    method Copy(src: Path, dst: Path) returns (o: Outcome)
      modifies this
      ensures Step(State(), o) == CopyStep(behaviour, old(State()), src, dst)
    {
      var command := CopyCommand(src, dst);
      log := log + [Effect.Execute(command, Required)];
      if command in behaviour.failing || src !in files {
        o := Fail(CommandFailed(command));
      } else {
        files := files[dst := files[src]];
        o := Pass;
      }
    }

    /** `chmod +x path`, issued with must-succeed set. */
    method MakeExecutable(path: Path) returns (o: Outcome)
      modifies this
      ensures Step(State(), o) == ChmodStep(behaviour, old(State()), path)
    {
      var command := ChmodCommand(path);
      log := log + [Effect.Execute(command, Required)];
      if command in behaviour.failing || path !in files {
        o := Fail(CommandFailed(command));
      } else {
        executables := executables + {path};
        o := Pass;
      }
    }
  }
}
