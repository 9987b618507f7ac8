/** What the walk of `evaluate` guarantees, proved about its specification `Run`. */
module DriverProperties {
  import opened Wrappers
  import opened JsValues
  import opened Detector
  import opened Driver

  /** The sources of a sequence of sandbox calls. */
  function Scripts(calls: seq<Invocation>): (r: seq<string>)
    ensures |r| == |calls|
    ensures forall i :: 0 <= i < |calls| ==> r[i] == calls[i].script
  {
    if calls == [] then [] else [calls[0].script] + Scripts(calls[1..])
  }

  /**
   * The calls form one chain through the environment: the first runs against
   * `env`, each later one against the environment the previous one left, each
   * completes normally, and the last leaves `final`.
   */
  ghost predicate Chained(exec: Sandbox, env: map<string, Value>, calls: seq<Invocation>, final: map<string, Value>)
    decreases |calls|
  {
    if calls == [] then env == final
    else calls[0].env == env && exec(calls[0]).Normal? && Chained(exec, exec(calls[0]).env, calls[1..], final)
  }

  /** `block` repeated `n` times. */
  function Repeat<T>(block: seq<T>, n: nat): (r: seq<T>)
    ensures |r| == n * |block|
  {
    if n == 0 then [] else block + Repeat(block, n - 1)
  }

  /** The walk over a list of sibling trees is the walk over each, one after another. */
  lemma {:induction false} PreOrderAllAppend(a: seq<Node>, b: seq<Node>)
    ensures PreOrderAll(a + b) == PreOrderAll(a) + PreOrderAll(b)
    decreases |a|
  {
    if a == [] {
      assert a + b == b;
    } else {
      assert (a + b)[0] == a[0];
      assert (a + b)[1..] == a[1..] + b;
      PreOrderAllAppend(a[1..], b);
    }
  }

  /**
   * The `i`-th child's whole subtree is visited as one block, after the subtrees
   * of the children before it and before those of the children after it.
   */
  lemma SiblingOrder(n: Node, i: nat)
    requires i < |n.children|
    ensures PreOrder(n) == [n] + PreOrderAll(n.children[..i]) + PreOrder(n.children[i]) + PreOrderAll(n.children[i + 1..])
  {
    var ch := n.children;
    var rest := [ch[i]] + ch[i + 1..];
    assert ch == ch[..i] + rest;
    PreOrderAllAppend(ch[..i], rest);
    PreOrderAllCons(ch[i], ch[i + 1..]);
    var before, own, after := PreOrderAll(ch[..i]), PreOrder(ch[i]), PreOrderAll(ch[i + 1..]);
    assert [n] + (before + (own + after)) == [n] + before + own + after;
  }

  /** Walking `[x] + xs` is walking `x`, then `xs`. */
  lemma PreOrderAllCons(x: Node, xs: seq<Node>)
    ensures PreOrderAll([x] + xs) == PreOrder(x) + PreOrderAll(xs)
  {
    assert ([x] + xs)[0] == x;
    assert ([x] + xs)[1..] == xs;
  }

  /** Executable sources of a concatenation are those of each part, in order. */
  lemma {:induction false} ExecutablesAppend(d: Detect, a: seq<Node>, b: seq<Node>)
    ensures Executables(d, a + b) == Executables(d, a) + Executables(d, b)
    decreases |a|
  {
    if a == [] {
      assert a + b == b;
    } else {
      assert (a + b)[0] == a[0];
      assert (a + b)[1..] == a[1..] + b;
      ExecutablesAppend(d, a[1..], b);
    }
  }

  /** A node's own source runs before any source inside it. */
  lemma ParentBeforeChildren(d: Detect, n: Node)
    ensures Executables(d, PreOrder(n)) ==
              (match d(n) case Some(script) => [script] case None => [])
              + Executables(d, PreOrderAll(n.children))
  {
    ExecutablesAppend(d, [n], PreOrderAll(n.children));
    assert [n][1..] == [];
  }

  /** One executable node that completes: what the sandbox is given and what the state becomes. */
  lemma StepExecutes(s: Setup, st: RunState, node: Node, script: string)
    requires s.detect(node) == Some(script)
    requires Step(s, st, node).Finished?
    ensures BlockDir(s.workingDir, st.cwd).Some?
    ensures var call := Invocation(script, st.env, s.filename, BlockDir(s.workingDir, st.cwd).value);
            var st' := Step(s, st, node).st;
            && s.exec(call).Normal?
            && st'.ran == st.ran + [call]
            && st'.result == s.exec(call).value
            && st'.env == s.exec(call).env
            && st'.cwd == st.cwd
            && st'.chdirs == st.chdirs + BlockChdirs(s.workingDir, st.cwd)
  {
    var entered := Enter(s.workingDir, st).value;
    var call := Invocation(script, st.env, s.filename, BlockDir(s.workingDir, st.cwd).value);
    assert call == Invocation(script, entered.env, s.filename, entered.cwd);
    var block := BlockChdirs(s.workingDir, st.cwd);
    assert block == block[..|block| - 1] + [st.cwd];
  }

  /** Walking `a + b` is walking `a`, then walking `b` from where `a` finished. */
  lemma {:induction false} RunAppend(s: Setup, st: RunState, a: seq<Node>, b: seq<Node>)
    ensures Run(s, st, a + b) == match Run(s, st, a)
                                 case Finished(st') => Run(s, st', b)
                                 case Aborted(_, _) => Run(s, st, a)
    decreases |a|
  {
    if a == [] {
      assert a + b == b;
    } else {
      assert (a + b)[0] == a[0];
      assert (a + b)[1..] == a[1..] + b;
      match Step(s, st, a[0])
      case Aborted(_, _) =>
      case Finished(st1) => RunAppend(s, st1, a[1..], b);
    }
  }

  /** Nodes that are not executable are skipped: nothing runs and nothing changes. */
  lemma {:induction false} NoExecutablesNoEffect(s: Setup, st: RunState, nodes: seq<Node>)
    requires Executables(s.detect, nodes) == []
    ensures Run(s, st, nodes) == Finished(st)
  {
    if nodes != [] {
      NoExecutablesNoEffect(s, st, nodes[1..]);
    }
  }

  /** The sandbox is called on the executable nodes' sources, in the order of `nodes`. */
  lemma {:induction false} RunsInOrder(s: Setup, st: RunState, nodes: seq<Node>)
    requires Run(s, st, nodes).Finished?
    ensures var st' := Run(s, st, nodes).st;
            st.ran <= st'.ran && Scripts(st'.ran) == Scripts(st.ran) + Executables(s.detect, nodes)
    decreases |nodes|
  {
    if nodes != [] {
      var st1 := Step(s, st, nodes[0]).st;
      RunsInOrder(s, st1, nodes[1..]);
      var st' := Run(s, st, nodes).st;
      match s.detect(nodes[0])
      case None =>
      case Some(script) =>
        StepExecutes(s, st, nodes[0], script);
        assert Scripts(st1.ran) == Scripts(st.ran) + [script];
    }
  }

  lemma {:induction false} ChainedPrepend(exec: Sandbox, env: map<string, Value>, call: Invocation,
                                          rest: seq<Invocation>, final: map<string, Value>)
    requires call.env == env && exec(call).Normal?
    requires Chained(exec, exec(call).env, rest, final)
    ensures Chained(exec, env, [call] + rest, final)
  {
    assert ([call] + rest)[0] == call;
    assert ([call] + rest)[1..] == rest;
  }

  /**
   * All executable nodes share one environment: each runs against the members
   * the previous one left (a `var` declared by an earlier block is visible to
   * later ones), and the walk ends with the members the last one left.
   */
  lemma {:induction false} SharedEnvironment(s: Setup, st: RunState, nodes: seq<Node>)
    requires Run(s, st, nodes).Finished?
    ensures var st' := Run(s, st, nodes).st;
            st.ran <= st'.ran && Chained(s.exec, st.env, st'.ran[|st.ran|..], st'.env)
    decreases |nodes|
  {
    var st' := Run(s, st, nodes).st;
    if nodes == [] {
      assert st'.ran[|st.ran|..] == [];
    } else {
      var st1 := Step(s, st, nodes[0]).st;
      SharedEnvironment(s, st1, nodes[1..]);
      match s.detect(nodes[0])
      case None =>
      case Some(script) =>
        StepExecutes(s, st, nodes[0], script);
        var call := Invocation(script, st.env, s.filename, BlockDir(s.workingDir, st.cwd).value);
        assert st'.ran[|st.ran|..] == [call] + st'.ran[|st1.ran|..];
        ChainedPrepend(s.exec, st.env, call, st'.ran[|st1.ran|..], st'.env);
    }
  }

  /**
   * Only the last executable node's value survives: the walk returns what the
   * last sandbox call returned, or the earlier result when nothing ran.
   */
  lemma {:induction false} LastResultWins(s: Setup, st: RunState, nodes: seq<Node>)
    requires Run(s, st, nodes).Finished?
    ensures var st' := Run(s, st, nodes).st;
            && (Executables(s.detect, nodes) == [] ==> st'.result == st.result && st'.ran == st.ran)
            && (Executables(s.detect, nodes) != [] ==>
                  |st'.ran| > |st.ran| && s.exec(st'.ran[|st'.ran| - 1]).Normal?
                  && st'.result == s.exec(st'.ran[|st'.ran| - 1]).value)
    decreases |nodes|
  {
    if nodes == [] {
    } else {
      var st1 := Step(s, st, nodes[0]).st;
      LastResultWins(s, st1, nodes[1..]);
      match s.detect(nodes[0])
      case None =>
      case Some(script) =>
        StepExecutes(s, st, nodes[0], script);
    }
  }

  /** Every call of `calls` from index `from` on ran in the directory `dir`. */
  ghost predicate RanIn(calls: seq<Invocation>, from: nat, dir: Option<string>) {
    forall j :: from <= j < |calls| ==> dir.Some? && calls[j].cwd == dir.value
  }

  /**
   * The working directory is scoped to each block: every sandbox call runs in
   * the block directory, and the walk ends where it started.
   */
  lemma {:induction false} WorkingDirScoped(s: Setup, st: RunState, nodes: seq<Node>)
    requires Run(s, st, nodes).Finished?
    ensures var st' := Run(s, st, nodes).st;
            && st'.cwd == st.cwd
            && (Executables(s.detect, nodes) != [] ==> BlockDir(s.workingDir, st.cwd).Some?)
            && st.ran <= st'.ran
            && RanIn(st'.ran, |st.ran|, BlockDir(s.workingDir, st.cwd))
    decreases |nodes|
  {
    if nodes != [] {
      var st1 := Step(s, st, nodes[0]).st;
      var st' := Run(s, st, nodes).st;
      assert st' == Run(s, st1, nodes[1..]).st;
      WorkingDirScoped(s, st1, nodes[1..]);
      match s.detect(nodes[0])
      case None =>
        assert st1 == st;
      case Some(script) =>
        StepExecutes(s, st, nodes[0], script);
        assert st'.ran[|st.ran|] == st1.ran[|st.ran|];
    }
  }

  /**
   * Each executed block makes the same `process.chdir` calls: into `workingDir`
   * only when it differs from the current directory, and always back.
   */
  lemma {:induction false} ChdirsPerBlock(s: Setup, st: RunState, nodes: seq<Node>)
    requires Run(s, st, nodes).Finished?
    ensures Run(s, st, nodes).st.chdirs == st.chdirs + Repeat(BlockChdirs(s.workingDir, st.cwd), |Executables(s.detect, nodes)|)
    decreases |nodes|
  {
    if nodes == [] {
      assert st.chdirs + [] == st.chdirs;
    } else {
      var st1 := Step(s, st, nodes[0]).st;
      var st' := Run(s, st, nodes).st;
      assert st' == Run(s, st1, nodes[1..]).st;
      ChdirsPerBlock(s, st1, nodes[1..]);
      match s.detect(nodes[0])
      case None =>
      case Some(script) =>
        StepExecutes(s, st, nodes[0], script);
        var block := BlockChdirs(s.workingDir, st.cwd);
        var k := |Executables(s.detect, nodes[1..])|;
        assert |Executables(s.detect, nodes)| == k + 1;
        assert st'.chdirs == (st.chdirs + block) + Repeat(block, k);
        assert Repeat(block, k + 1) == block + Repeat(block, k);
    }
  }

  lemma {:induction false} RepeatSingle<T>(x: T, n: nat)
    ensures forall i :: 0 <= i < n ==> Repeat([x], n)[i] == x
  {
    if n > 0 {
      RepeatSingle(x, n - 1);
      assert Repeat([x], n) == [x] + Repeat([x], n - 1);
    }
  }

  /** When `workingDir` already is the current directory, the only `chdir` calls go back to it. */
  lemma WorkingDirAlreadyCurrent(s: Setup, st: RunState, nodes: seq<Node>)
    requires Run(s, st, nodes).Finished?
    requires s.workingDir == Str(st.cwd)
    ensures var st' := Run(s, st, nodes).st;
            |st.chdirs| <= |st'.chdirs| && forall i :: |st.chdirs| <= i < |st'.chdirs| ==> st'.chdirs[i] == st.cwd
  {
    ChdirsPerBlock(s, st, nodes);
    RepeatSingle(st.cwd, |Executables(s.detect, nodes)|);
  }

  /** A throw stops the walk: whatever follows the failing node, the outcome is that of the failing step. */
  lemma AbortStopsWalk(s: Setup, st: RunState, before: seq<Node>, failing: Node, after: seq<Node>)
    requires Run(s, st, before).Finished?
    requires Step(s, Run(s, st, before).st, failing).Aborted?
    ensures Run(s, st, before + [failing] + after) == Step(s, Run(s, st, before).st, failing)
  {
    RunAppend(s, st, before, [failing] + after);
    assert before + [failing] + after == before + ([failing] + after);
  }

  /**
   * A block that throws has been called in the block directory, and the
   * directory is not restored: the source restores it only after a normal return.
   */
  lemma ThrowLeavesBlockDir(s: Setup, st: RunState, node: Node, thrown: Value)
    requires Step(s, st, node) == Aborted(ScriptFailed(thrown), Step(s, st, node).st)
    ensures BlockDir(s.workingDir, st.cwd).Some?
    ensures var st' := Step(s, st, node).st;
            && st'.cwd == BlockDir(s.workingDir, st.cwd).value
            && |st'.ran| == |st.ran| + 1
            && s.exec(st'.ran[|st.ran|]) == Abrupt(thrown)
  {
  }

  /** With no executable node, `evaluate` returns `undefined` and leaves the process as it was. */
  lemma NothingExecutableReturnsUndefined(config: map<string, Value>, filename: Value, exec: Sandbox,
                                          ast: Node, cwd: string, chdirs: seq<string>)
    requires Executables(GetExecutableContents, PreOrder(ast)) == []
    ensures var spec := Run(SetupFor(config, filename, exec), StartState(config, cwd, chdirs), PreOrder(ast));
            OutcomeOf(spec) == Returned(Undefined) && spec.st.cwd == cwd && spec.st.chdirs == chdirs && spec.st.ran == []
  {
    NoExecutablesNoEffect(SetupFor(config, filename, exec), StartState(config, cwd, chdirs), PreOrder(ast));
  }
}
