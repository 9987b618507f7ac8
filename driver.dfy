/**
 * `evaluate`: walk the parsed tree in pre-order and run every executable node's
 * source, in one shared environment, inside the configured working directory.
 */
module Driver {
  import opened Wrappers
  import opened JsValues
  import opened Detector
  import opened Defaults
  import opened Environments

  // Pre-order
  // ---------

  /** The nodes of the tree rooted at `n`, parent first, then each child's subtree in order. */
  function PreOrder(n: Node): (r: seq<Node>)
    decreases n, 1
    ensures |r| >= 1 && r[0] == n
  {
    [n] + PreOrderAll(n.children)
  }

  function PreOrderAll(ns: seq<Node>): seq<Node>
    decreases ns, 0
  {
    if ns == [] then [] else PreOrder(ns[0]) + PreOrderAll(ns[1..])
  }

  /** What decides, per node, whether it runs and with which source: `GetExecutableContents` in `evaluate`. */
  type Detect = Node -> Option<string>

  /** The sources of the executable nodes of `nodes`, in order. */
  function Executables(detect: Detect, nodes: seq<Node>): seq<string> {
    if nodes == [] then []
    else
      match detect(nodes[0])
      case Some(script) => [script] + Executables(detect, nodes[1..])
      case None => Executables(detect, nodes[1..])
  }

  // The sandbox
  // -----------

  /** One call of `vm.runInNewContext(script, env, filename)`, made while the process is in `cwd`. */
  datatype Invocation = Invocation(script: string, env: map<string, Value>, filename: Value, cwd: string)

  /** How such a call ends: the value of its last expression and the environment it leaves, or a throw. */
  datatype Completion = Normal(value: Value, env: map<string, Value>) | Abrupt(thrown: Value)

  /** The sandbox, taken as given: it is not modelled beyond this signature. */
  type Sandbox = Invocation -> Completion

  // The specification of the walk
  // -----------------------------

  /**
   * What `evaluate` holds fixed during the walk: the configured working
   * directory, the file name, the sandbox, and the detector applied to each node.
   */
  datatype Setup = Setup(workingDir: Value, filename: Value, exec: Sandbox, detect: Detect)

  /**
   * The state the walk threads from node to node: the last result, the shared
   * environment, the process's working directory, every `process.chdir` made so
   * far, and every sandbox call made so far.
   */
  datatype RunState = RunState(result: Value, env: map<string, Value>, cwd: string,
                               chdirs: seq<string>, ran: seq<Invocation>)

  datatype Error = ScriptFailed(thrown: Value) | ChdirFailed(dir: Value)

  datatype RunOutcome = Finished(st: RunState) | Aborted(error: Error, st: RunState)

  /** The directory a block runs in, when `workingDir` is usable from `cwd`. */
  function BlockDir(workingDir: Value, cwd: string): Option<string> {
    if workingDir != Str(cwd) then (if workingDir.Str? then Some(workingDir.s) else None)
    else Some(cwd)
  }

  /** The `process.chdir` calls one executed block makes: into `workingDir` when it differs, then back. */
  function BlockChdirs(workingDir: Value, cwd: string): seq<string> {
    if workingDir == Str(cwd) then [cwd]
    else if workingDir.Str? then [workingDir.s, cwd]
    else []
  }

  /**
   * The state once the process is in the block's directory: `process.chdir(workingDir)`
   * is called only when `workingDir` differs from the current directory, and
   * `None` stands for the TypeError it throws when `workingDir` is not a string.
   */
  function Enter(workingDir: Value, st: RunState): (r: Option<RunState>)
    ensures r.Some? <==> BlockDir(workingDir, st.cwd).Some?
    ensures r.Some? ==> r.value == st.(cwd := BlockDir(workingDir, st.cwd).value,
                                       chdirs := st.chdirs + BlockChdirs(workingDir, st.cwd)[..|BlockChdirs(workingDir, st.cwd)| - 1])
  {
    match BlockDir(workingDir, st.cwd)
    case None => None
    case Some(dir) => Some(st.(cwd := dir, chdirs := if workingDir == Str(st.cwd) then st.chdirs else st.chdirs + [dir]))
  }

  /** The callback of the pre-order walk, applied to one node. */
  function Step(s: Setup, st: RunState, node: Node): (o: RunOutcome)
    ensures s.detect(node).None? ==> o == Finished(st)
    ensures o.Finished? ==> o.st.cwd == st.cwd
    ensures st.ran <= o.st.ran
  {
    match s.detect(node)
    case None => Finished(st)
    case Some(script) =>
      var saved := st.cwd;
      match Enter(s.workingDir, st)
      case None => Aborted(ChdirFailed(s.workingDir), st)
      case Some(entered) =>
        var call := Invocation(script, entered.env, s.filename, entered.cwd);
        var running := entered.(ran := entered.ran + [call]);
        match s.exec(call)
        case Abrupt(thrown) => Aborted(ScriptFailed(thrown), running)
        case Normal(value, env) =>
          Finished(running.(result := value, env := env, cwd := saved, chdirs := running.chdirs + [saved]))
  }

  /** The walk over `nodes`: each node in turn, stopping at the first throw. */
  function Run(s: Setup, st: RunState, nodes: seq<Node>): (o: RunOutcome)
    ensures o.Finished? ==> o.st.cwd == st.cwd
    ensures st.ran <= o.st.ran
    decreases |nodes|
  {
    if nodes == [] then Finished(st)
    else
      match Step(s, st, nodes[0])
      case Aborted(e, st') => Aborted(e, st')
      case Finished(st') => Run(s, st', nodes[1..])
  }

  // The process
  // -----------

  /** The process-wide state `evaluate` touches: the working directory and the `chdir` calls made. */
  class Process {
    var cwd: string
    var chdirLog: seq<string>

    constructor (cwd: string)
      ensures this.cwd == cwd && chdirLog == []
    {
      this.cwd := cwd;
      chdirLog := [];
    }

    /** `process.chdir(dir)`: throws a TypeError unless `dir` is a string. */
    method Chdir(dir: Value) returns (ok: bool)
      modifies this
      ensures ok == dir.Str?
      ensures ok ==> cwd == dir.s && chdirLog == old(chdirLog) + [dir.s]
      ensures !ok ==> cwd == old(cwd) && chdirLog == old(chdirLog)
    {
      ok := dir.Str?;
      if ok {
        cwd := dir.s;
        chdirLog := chdirLog + [dir.s];
      }
    }
  }

  // evaluate
  // --------

  /** `DEFAULT_CONFIG`, whose `workingDir` is the directory the process was in when the library was loaded. */
  function DefaultConfig(loadCwd: string): (d: map<string, Value>)
    ensures d.Keys == {"globals", "moduleAliases", "workingDir"}
    ensures d["globals"] == Obj(map[]) && d["moduleAliases"] == Obj(map[])
    ensures d["workingDir"] == Str(loadCwd)
  {
    map["globals" := Obj(map[]), "moduleAliases" := Obj(map[]), "workingDir" := Str(loadCwd)]
  }

  /** The configuration `evaluate` works with: the caller's, completed by `defaults`. */
  function ConfigFor(optConfig: map<string, Value>, loadCwd: string): (config: map<string, Value>)
    ensures "workingDir" in config && "globals" in config && "moduleAliases" in config
  {
    Merged(optConfig, DefaultConfig(loadCwd))
  }

  function SetupFor(config: map<string, Value>, filename: Value, exec: Sandbox): Setup {
    Setup(Property(config, "workingDir"), filename, exec, GetExecutableContents)
  }

  /** The state before the first node: no result yet, the environment just constructed. */
  function StartState(config: map<string, Value>, cwd: string, chdirs: seq<string>): RunState {
    RunState(Undefined, InitialMembers(EnumerableProps(Property(config, "globals"))), cwd, chdirs, [])
  }

  datatype Outcome = Returned(value: Value) | Threw(error: Error)

  function OutcomeOf(o: RunOutcome): Outcome {
    match o
    case Finished(st) => Returned(st.result)
    case Aborted(e, _) => Threw(e)
  }

  /**
   * The callback `evaluate` applies to each node of the walk, given the node's
   * executable source `script`; it does what `Step` says, and reports a throw.
   */
  method Visit(s: Setup, node: Node, script: Option<string>, env: Environment, proc: Process,
               result: Value, ghost ran: seq<Invocation>)
      returns (failure: Option<Error>, newResult: Value, ghost newRan: seq<Invocation>)
    requires script == s.detect(node)
    modifies env, proc
    ensures var o := Step(s, RunState(result, old(env.members), old(proc.cwd), old(proc.chdirLog), ran), node);
            && (failure.Some? <==> o.Aborted?)
            && (o.Aborted? ==> failure.value == o.error)
            && o.st == RunState(newResult, env.members, proc.cwd, proc.chdirLog, newRan)
  {
    failure, newResult, newRan := None, result, ran;
    if script.Some? {
      var cwd := proc.cwd;
      if s.workingDir != Str(cwd) {
        var ok := proc.Chdir(s.workingDir);
        if !ok {
          failure := Some(ChdirFailed(s.workingDir));
          return;
        }
      }
      var call := Invocation(script.value, env.members, s.filename, proc.cwd);
      newRan := ran + [call];
      match s.exec(call)
      case Abrupt(thrown) =>
        failure := Some(ScriptFailed(thrown));
      case Normal(value, newEnv) =>
        env.members := newEnv;
        newResult := value;
        var _ := proc.Chdir(Str(cwd));
    }
  }

  /**
   * `evaluate(input, filename, optConfig)` on the already parsed tree `ast`.
   * A given `optConfig` object is completed in place by `defaults`, as in the source.
   * `filename` is any value: a caller that omits it, as cli.js does, passes `Undefined`.
   */
  method Evaluate(ast: Node, filename: Value, optConfig: JsObject?, loadCwd: string, proc: Process, exec: Sandbox)
      returns (outcome: Outcome, ghost executed: seq<Invocation>)
    modifies proc, optConfig
    ensures var config := ConfigFor(if optConfig == null then map[] else old(optConfig.props), loadCwd);
            optConfig != null ==> optConfig.props == config
    ensures var config := ConfigFor(if optConfig == null then map[] else old(optConfig.props), loadCwd);
            var spec := Run(SetupFor(config, filename, exec), StartState(config, old(proc.cwd), old(proc.chdirLog)), PreOrder(ast));
            && outcome == OutcomeOf(spec)
            && proc.cwd == spec.st.cwd
            && proc.chdirLog == spec.st.chdirs
            && executed == spec.st.ran
  {
    var configObj: JsObject;
    if optConfig == null {
      configObj := new JsObject(map[]);
    } else {
      configObj := optConfig;
    }
    configObj.Defaults(DefaultConfig(loadCwd));
    var config := configObj.props;
    var s := SetupFor(config, filename, exec);
    ghost var start := StartState(config, proc.cwd, proc.chdirLog);

    var env := new Environment(filename, config);
    var result := Undefined;
    executed := [];
    var nodes := PreOrder(ast);
    var i := 0;
    while i < |nodes|
      invariant 0 <= i <= |nodes|
      invariant optConfig != null ==> optConfig.props == config
      invariant Run(s, start, nodes) == Run(s, RunState(result, env.members, proc.cwd, proc.chdirLog, executed), nodes[i..])
      decreases |nodes| - i
    {
      ghost var before := RunState(result, env.members, proc.cwd, proc.chdirLog, executed);
      assert Run(s, before, nodes[i..]) == match Step(s, before, nodes[i])
                                           case Aborted(e, st') => Aborted(e, st')
                                           case Finished(st') => Run(s, st', nodes[i + 1..]);
      var script := GetExecutableContents(nodes[i]);
      var failure;
      failure, result, executed := Visit(s, nodes[i], script, env, proc, result, executed);
      if failure.Some? {
        outcome := Threw(failure.value);
        return;
      }
      i := i + 1;
    }
    outcome := Returned(result);
  }
}
