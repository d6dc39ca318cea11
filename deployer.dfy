/**
 * The parts of the Deployer engine that the recipe drives: `run()` and `cd()`
 * on the current host, the task registry filled by `task()` and `after()`,
 * and the host objects with their SSH options.
 */
module Deployer {

  /** What the host answers to one `run()`: its output, or a non-zero exit (Deployer throws). */
  datatype Reply = Output(text: string) | Failed

  /** The answer the current host gives to each command line. */
  type Remote = string -> Reply

  /** One effect a task has on the host: a command issued by `run()`, or a `cd()`. */
  datatype Action = Exec(line: string) | ChangeDir(path: string)

  /** The actions a task issued, in order, and whether it finished without an uncaught exception. */
  datatype Trace = Trace(actions: seq<Action>, completed: bool)

  /** `cd()` cannot fail; a command succeeds when the host gives output. */
  predicate Succeeds(remote: Remote, a: Action) {
    a.ChangeDir? || remote(a.line).Output?
  }

  /**
   * The steps of a task body whose `run()` calls are not wrapped in `try`:
   * the first failing command throws, so nothing after it is issued.
   */
  function Script(remote: Remote, steps: seq<Action>): (t: Trace)
    ensures t.actions <= steps
    ensures forall i :: 0 <= i < |t.actions| - 1 ==> Succeeds(remote, t.actions[i])
    ensures t.completed <==> t.actions == steps && forall i :: 0 <= i < |steps| ==> Succeeds(remote, steps[i])
    ensures !t.completed ==> t.actions != [] && !Succeeds(remote, t.actions[|t.actions| - 1])
  {
    if steps == [] then Trace([], true)
    else if !Succeeds(remote, steps[0]) then Trace([steps[0]], false)
    else
      var rest := Script(remote, steps[1..]);
      assert forall i :: 1 <= i < |steps| ==> steps[i] == steps[1..][i - 1];
      Trace([steps[0]] + rest.actions, rest.completed)
  }

  /** A single command that is not wrapped in `try`. */
  lemma ScriptOfOne(remote: Remote, line: string)
    ensures Script(remote, [Exec(line)]) == Trace([Exec(line)], remote(line).Output?)
  {
  }

  /** A `cd()` followed by a single command: only the command can fail. */
  lemma ScriptOfCdThenOne(remote: Remote, path: string, line: string)
    ensures Script(remote, [ChangeDir(path), Exec(line)]) == Trace([ChangeDir(path), Exec(line)], remote(line).Output?)
  {
    assert [ChangeDir(path), Exec(line)][1..] == [Exec(line)];
    ScriptOfOne(remote, line);
  }

  /** A trace preceded by commands whose failures the task catches. */
  function Then(probes: seq<Action>, t: Trace): Trace {
    Trace(probes + t.actions, t.completed)
  }

  /** The connection to the current host: Deployer's `run()` and `cd()`. */
  class Session {
    const remote: Remote
    var log: seq<Action>

    constructor (remote: Remote)
      ensures this.remote == remote && log == []
    {
      this.remote := remote;
      log := [];
    }

    /** `run(line)`: issue the command and hand back the host's reply. */
    method Run(line: string) returns (r: Reply)
      modifies this
      ensures log == old(log) + [Exec(line)]
      ensures r == remote(line)
    {
      log := log + [Exec(line)];
      r := remote(line);
    }

    /** `cd(path)`: later commands of the task run from `path`. */
    method Cd(path: string)
      modifies this
      ensures log == old(log) + [ChangeDir(path)]
    {
      log := log + [ChangeDir(path)];
    }
  }

  /** A registered task: a closure, or a group naming other tasks in order. */
  datatype TaskDef = Callback | Group(members: seq<string>)

  /** `after(task, hook)`: run `hook` once `task` has finished. */
  datatype Hook = After(task: string, hook: string)

  /** Deployer's task registry. */
  class Registry {
    var tasks: map<string, TaskDef>
    var hooks: seq<Hook>

    /** The registry as the required recipes leave it. */
    constructor (tasks: map<string, TaskDef>)
      ensures this.tasks == tasks && hooks == []
    {
      this.tasks := tasks;
      hooks := [];
    }

    /** `task(name, body)`: a later registration under the same name replaces the earlier one. */
    method Task(name: string, def: TaskDef)
      modifies this
      ensures tasks == old(tasks)[name := def]
      ensures hooks == old(hooks)
    {
      tasks := tasks[name := def];
    }

    /** Several `task()` calls with distinct names. */
    method TaskAll(defs: map<string, TaskDef>)
      modifies this
      ensures tasks == old(tasks) + defs
      ensures hooks == old(hooks)
    {
      tasks := tasks + defs;
    }

    /** `after(task, hook)`. */
    method After(task: string, hook: string)
      modifies this
      ensures hooks == old(hooks) + [Hook.After(task, hook)]
      ensures tasks == old(tasks)
    {
      hooks := hooks + [Hook.After(task, hook)];
    }
  }

  /** A host of the inventory. */
  class Host {
    const hostname: string
    var sshOptions: map<string, string>
    /** Everything else Deployer keeps about the host (paths, branch, user, ...). */
    var config: map<string, string>

    constructor (hostname: string, sshOptions: map<string, string>, config: map<string, string>)
      ensures this.hostname == hostname && this.sshOptions == sshOptions && this.config == config
    {
      this.hostname := hostname;
      this.sshOptions := sshOptions;
      this.config := config;
    }

    /** `addSshOption(option, value)`: a second value for the same option replaces the first. */
    method AddSshOption(option: string, value: string)
      modifies this
      ensures sshOptions == old(sshOptions)[option := value]
      ensures config == old(config)
    {
      sshOptions := sshOptions[option := value];
    }
  }

  predicate Distinct(names: seq<string>) {
    forall i, j :: 0 <= i < j < |names| ==> names[i] != names[j]
  }

  /**
   * `$deployer->hosts`: hosts by name, kept in insertion order. Deployer's
   * `host()` and `inventory()` file every host under its own hostname.
   */
  class HostCollection {
    var names: seq<string>
    var hosts: map<string, Host>

    ghost predicate Valid()
      reads this
    {
      Distinct(names)
      && (forall n :: n in names <==> n in hosts)
      && forall n :: n in hosts ==> hosts[n].hostname == n
    }

    constructor ()
      ensures Valid() && names == [] && hosts == map[]
    {
      names := [];
      hosts := map[];
    }

    /** `set(name, host)`: an existing name keeps its place, a new one goes last. */
    method Set(name: string, host: Host)
      requires Valid() && host.hostname == name
      modifies this
      ensures Valid()
      ensures hosts == old(hosts)[name := host]
      ensures names == if name in old(hosts) then old(names) else old(names) + [name]
    {
      if name !in hosts {
        names := names + [name];
      }
      hosts := hosts[name := host];
    }
  }
}
