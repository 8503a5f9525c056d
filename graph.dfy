/**
 * The workflow graph: the fixed chain of stages from START to END, and the
 * run that streams the state after every stage.  `RunFrom` and `Run` are the
 * pure meaning of `run_workflow`; `Runner.RunWorkflow` is the loop itself.
 */
module Graph {
  import opened Wrappers
  import opened PythonState
  import opened Nodes
  import opened Transforms

  /** The nodes of the graph, and END. */
  datatype Stage =
    | NodeValidateStartingState
    | NodeInvokeLlmPython
    | NodeMakeTransform
    | NodeTestTransform
    | End

  /** The node the edge from START leads to. */
  const Start: Stage := NodeValidateStartingState

  /** How many nodes are left to run from `st` on. */
  function Rank(st: Stage): nat {
    match st
    case NodeValidateStartingState => 4
    case NodeInvokeLlmPython => 3
    case NodeMakeTransform => 2
    case NodeTestTransform => 1
    case End => 0
  }

  /** The static, unconditional edges: validate, invoke, make, test, END. */
  function Next(st: Stage): (next: Stage)
    requires st != End
    ensures Rank(next) == Rank(st) - 1
  {
    match st
    case NodeValidateStartingState => NodeInvokeLlmPython
    case NodeInvokeLlmPython => NodeMakeTransform
    case NodeMakeTransform => NodeTestTransform
    case NodeTestTransform => End
  }

  /** The nodes met along the edges from `st` to END. */
  function ChainFrom(st: Stage): (chain: seq<Stage>)
    ensures |chain| == Rank(st)
    ensures End !in chain
    decreases Rank(st)
  {
    if st == End then [] else [st] + ChainFrom(Next(st))
  }

  /** From START the chain is the four nodes, each once, in order. */
  lemma ChainFromStart()
    ensures ChainFrom(Start) == [NodeValidateStartingState, NodeInvokeLlmPython, NodeMakeTransform, NodeTestTransform]
  {
  }

  /** Runs one node on the state and the files; the test node loads the
      source file with the loader `env` names. */
  function Execute(env: Env, st: Stage, s: State, fs: FileMap): (r: Result<Step, StageError>)
    requires st != End
    ensures r.Ok? && (st == NodeValidateStartingState || st == NodeInvokeLlmPython) ==> r.value.files == fs
  {
    match st
    case NodeValidateStartingState =>
      (match ValidateStartingState(s) case Ok(u) => Ok(Step(u, fs)) case Err(e) => Err(e))
    case NodeInvokeLlmPython =>
      (match InvokeLlmPython(env, s) case Ok(u) => Ok(Step(u, fs)) case Err(e) => Err(e))
    case NodeMakeTransform => MakeTransform(env, s, fs)
    case NodeTestTransform =>
      if env.loader == SourceFileLoader then TestTransform(env, s, fs) else TestTransformAsWritten(env, s, fs)
  }

  /** `run_workflow` prints the last turn of every streamed state that has a
      `python_turns` key, which raises IndexError on an empty log. */
  predicate CanPrintLastTurn(s: State) {
    s.turns.None? || s.turns.value != []
  }

  /** What a run did: the nodes it ran, the states it streamed, how it ended
      (the last state streamed, or the exception) and the files afterwards. */
  datatype Trace = Trace(visited: seq<Stage>, streamed: seq<State>, outcome: Result<State, StageError>, files: FileMap)

  /** The run from node `st` on state `s`: run the node, merge its update,
      stream (and print) the new state, follow the edge. */
  function RunFrom(env: Env, st: Stage, s: State, fs: FileMap): Trace
    decreases Rank(st)
  {
    if st == End then Trace([], [], Ok(s), fs)
    else match Execute(env, st, s, fs)
      case Err(e) => Trace([st], [], Err(e), fs)
      case Ok(step) =>
        var s' := Merge(s, step.update);
        if !CanPrintLastTurn(s') then Trace([st], [s'], Err(IndexError), step.files)
        else
          var rest := RunFrom(env, Next(st), s', step.files);
          Trace([st] + rest.visited, [s'] + rest.streamed, rest.outcome, rest.files)
  }

  /** `run_workflow` on a fresh thread: the input state is streamed first,
      then the graph runs from START. */
  function Run(env: Env, s0: State, fs: FileMap): (t: Trace)
    ensures t.streamed != [] && t.streamed[0] == s0
    ensures t.outcome.Ok? ==> t.outcome.value == Last(t.streamed)
  {
    RunFromShape(env, Start, s0, fs);
    if !CanPrintLastTurn(s0) then Trace([], [s0], Err(IndexError), fs)
    else
      var t := RunFrom(env, Start, s0, fs);
      Trace(t.visited, [s0] + t.streamed, t.outcome, t.files)
  }

  /** Consecutive states of a stream never lose turns. */
  ghost predicate TurnsGrow(states: seq<State>) {
    forall i :: 0 <= i < |states| - 1 ==> Turns(states[i]) <= Turns(states[i + 1])
  }

  /** Every run from `st` visits a prefix of the chain from `st`, each node at
      most once and in order, all of it when it ends normally, and then
      streams one state per node visited. */
  lemma {:induction false} RunFromVisits(env: Env, st: Stage, s: State, fs: FileMap)
    ensures var t := RunFrom(env, st, s, fs);
            && t.visited <= ChainFrom(st)
            && (t.outcome.Ok? ==> t.visited == ChainFrom(st) && |t.streamed| == |t.visited|)
    decreases Rank(st)
  {
    if st != End {
      var ex := Execute(env, st, s, fs);
      if ex.Ok? && CanPrintLastTurn(Merge(s, ex.value.update)) {
        RunFromVisits(env, Next(st), Merge(s, ex.value.update), ex.value.files);
      }
    }
  }

  /** A run from `st` that ends normally ends with the last state it
      streamed (or with `s` when it streamed none). */
  lemma {:induction false} RunFromEndsWithLast(env: Env, st: Stage, s: State, fs: FileMap)
    ensures var t := RunFrom(env, st, s, fs);
            t.outcome.Ok? ==> t.outcome.value == if t.streamed == [] then s else Last(t.streamed)
    decreases Rank(st)
  {
    if st != End {
      var ex := Execute(env, st, s, fs);
      if ex.Ok? && CanPrintLastTurn(Merge(s, ex.value.update)) {
        var s' := Merge(s, ex.value.update);
        var rest := RunFrom(env, Next(st), s', ex.value.files);
        RunFromEndsWithLast(env, Next(st), s', ex.value.files);
        if rest.streamed != [] {
          assert Last([s'] + rest.streamed) == Last(rest.streamed);
        }
      }
    }
  }

  /** Along the stream of a run from `s`, the turn log only grows. */
  lemma {:induction false} RunFromTurnsGrow(env: Env, st: Stage, s: State, fs: FileMap)
    ensures TurnsGrow([s] + RunFrom(env, st, s, fs).streamed)
    decreases Rank(st)
  {
    if st != End {
      var ex := Execute(env, st, s, fs);
      if ex.Ok? {
        var s' := Merge(s, ex.value.update);
        MergeExtendsTurns(s, ex.value.update);
        if CanPrintLastTurn(s') {
          var tail := [s'] + RunFrom(env, Next(st), s', ex.value.files).streamed;
          RunFromTurnsGrow(env, Next(st), s', ex.value.files);
          var xs := [s] + tail;
          forall i | 0 <= i < |xs| - 1 ensures Turns(xs[i]) <= Turns(xs[i + 1]) {
            if i > 0 { assert xs[i] == tail[i - 1] && xs[i + 1] == tail[i]; }
          }
        } else {
          assert [s] + RunFrom(env, st, s, fs).streamed == [s, s'];
        }
      }
    }
  }

  /** A convenience conjunction of the three facts above, for the lemmas
      about whole runs. */
  lemma RunFromShape(env: Env, st: Stage, s: State, fs: FileMap)
    ensures var t := RunFrom(env, st, s, fs);
            && t.visited <= ChainFrom(st)
            && (t.outcome.Ok? ==> t.visited == ChainFrom(st) && |t.streamed| == |t.visited|)
            && (t.outcome.Ok? ==> t.outcome.value == if t.streamed == [] then s else Last(t.streamed))
            && TurnsGrow([s] + t.streamed)
  {
    RunFromVisits(env, st, s, fs);
    RunFromEndsWithLast(env, st, s, fs);
    RunFromTurnsGrow(env, st, s, fs);
  }

  /** A run that ends normally has run validate, invoke, make and test, each
      once and in that order, streamed the input state and one state per node,
      and returns the last state streamed. */
  lemma RunVisitsEachNodeOnce(env: Env, s0: State, fs: FileMap)
    ensures var t := Run(env, s0, fs);
            t.outcome.Ok? ==>
            && t.visited == [NodeValidateStartingState, NodeInvokeLlmPython, NodeMakeTransform, NodeTestTransform]
            && |t.streamed| == 5 && t.streamed[0] == s0
            && t.outcome.value == Last(t.streamed)
  {
    RunFromShape(env, Start, s0, fs);
    ChainFromStart();
  }

  /** Along any run, failed or not, the turn log of each streamed state
      extends that of the state before it. */
  lemma RunTurnsOnlyGrow(env: Env, s0: State, fs: FileMap)
    ensures TurnsGrow(Run(env, s0, fs).streamed)
  {
    if CanPrintLastTurn(s0) { RunFromShape(env, Start, s0, fs); }
  }

  /** A starting state without a truthy `input` or a non-empty
      `transform_files_dir` stops the run at validate, with the error naming
      `input` first, and writes no file. */
  lemma RunRejectsIncompleteState(env: Env, s0: State, fs: FileMap)
    requires CanPrintLastTurn(s0)
    requires !(HasInput(s0) && HasFilesDir(s0))
    ensures var t := Run(env, s0, fs);
            && t.outcome == Err(MissingStateError(if HasInput(s0) then "transform_files_dir" else "input"))
            && t.visited == [NodeValidateStartingState] && t.streamed == [s0] && t.files == fs
  {
  }

  /** Validate does not clear the log, so a run needs seed turns: with none,
      printing the last turn of a streamed state fails before the model is
      ever invoked, and no file is written. */
  lemma RunNeedsSeedTurns(env: Env, s0: State, fs: FileMap)
    requires HasInput(s0) && HasFilesDir(s0)
    requires Turns(s0) == []
    ensures var t := Run(env, s0, fs);
            && t.outcome == Err(IndexError) && t.files == fs
            && NodeInvokeLlmPython !in t.visited
  {
  }

  /** One step of a run: a node that succeeds and leaves a printable state
      is followed by the run from the next node. */
  lemma RunFromStep(env: Env, st: Stage, s: State, fs: FileMap)
    requires st != End && Execute(env, st, s, fs).Ok?
    requires CanPrintLastTurn(Merge(s, Execute(env, st, s, fs).value.update))
    ensures var step := Execute(env, st, s, fs).value;
            var rest := RunFrom(env, Next(st), Merge(s, step.update), step.files);
            RunFrom(env, st, s, fs) == Trace([st] + rest.visited, [Merge(s, step.update)] + rest.streamed, rest.outcome, rest.files)
  {
  }

  /** A run on a state with input, a directory and seed turns gets through
      validate and invoke: it goes on as the run from make on the state with
      the model's reply appended. */
  lemma RunThroughInvoke(env: Env, s0: State, fs: FileMap)
    requires HasInput(s0) && HasFilesDir(s0) && Turns(s0) != []
    ensures var s2 := s0.(turns := Some(Turns(s0) + [env.llm(Turns(s0))]));
            var r := RunFrom(env, NodeMakeTransform, s2, fs);
            && Run(env, s0, fs).outcome == r.outcome && Run(env, s0, fs).files == r.files
            && Run(env, s0, fs).visited == [NodeValidateStartingState, NodeInvokeLlmPython] + r.visited
  {
    var t0 := Turns(s0);
    assert Execute(env, Start, s0, fs) == Ok(Step(TurnsUpdate([]), fs));
    assert Merge(s0, TurnsUpdate([])) == s0;
    RunFromStep(env, Start, s0, fs);
    assert Execute(env, NodeInvokeLlmPython, s0, fs) == Ok(Step(TurnsUpdate([env.llm(t0)]), fs));
    assert Merge(s0, TurnsUpdate([env.llm(t0)])) == s0.(turns := Some(t0 + [env.llm(t0)]));
    RunFromStep(env, NodeInvokeLlmPython, s0, fs);
  }

  /** The state and files a normal run ends with, given the model's reply and
      the transform's result. */
  function FinalState(env: Env, s0: State, reply: Message, t: Transform, out: Json): State
    requires reply.AiMessage? && reply.toolCalls != [] && HasFilesDir(s0)
  {
    var id := ChosenId(env, s0);
    var dir := s0.transformFilesDir.value;
    s0.(turns := Some(Turns(s0) + [reply]
                      + MakeTransformTurns(env, Last(reply.toolCalls), t, SourcePath(dir, id))
                      + TestTransformTurns(env, out, OutputPath(dir, id))),
        transform := Some(t), transformId := Some(ChosenId(env, s0)))
  }

  function FinalFiles(env: Env, s0: State, fs: FileMap, t: Transform, out: Json): FileMap
    requires HasFilesDir(s0)
  {
    var id := ChosenId(env, s0);
    var dir := s0.transformFilesDir.value;
    fs[SourcePath(dir, id) := SourceText(t)]
      [InputPath(dir, id) := env.dumpsIndented(s0.input.GetOr(JObject([])))]
      [OutputPath(dir, id) := env.dumpsIndented(out)]
  }

  /** With the corrected loader and a codec that reads the input back, the
      run from make on a state whose last tool call the tool accepts, and
      whose transform returns a document on the input, makes, tests and ends
      normally, with the four new turns and the three artifacts. */
  lemma RunFromMakeSucceeds(env: Env, s: State, fs: FileMap)
    requires env.loader == SourceFileLoader && CodecKeeps(env, s.input.GetOr(JObject([])))
    requires MakeTransform(env, s, fs).Ok?
    requires var t := env.makeTransformTool(LastToolCall(s.turns).value.args).value;
             env.execute(SourceText(t), s.input.GetOr(JObject([]))).Returned?
    ensures var call := LastToolCall(s.turns).value;
            var t := env.makeTransformTool(call.args).value;
            var out := env.execute(SourceText(t), s.input.GetOr(JObject([]))).value;
            var id, dir := ChosenId(env, s), s.transformFilesDir.value;
            var r := RunFrom(env, NodeMakeTransform, s, fs);
            && r.outcome == Ok(s.(turns := Some(Turns(s) + MakeTransformTurns(env, call, t, SourcePath(dir, id))
                                                + TestTransformTurns(env, out, OutputPath(dir, id))),
                                  transform := Some(t), transformId := Some(id)))
            && r.files == fs[SourcePath(dir, id) := SourceText(t)]
                            [InputPath(dir, id) := env.dumpsIndented(s.input.GetOr(JObject([])))]
                            [OutputPath(dir, id) := env.dumpsIndented(out)]
  {
    var step3 := MakeTransform(env, s, fs).value;
    MakeTransformEffect(env, s, fs);
    MakeThenTest(env, s, fs);
    var s3 := Merge(s, step3.update);
    var step4 := TestTransform(env, s3, step3.files).value;
    TestTransformEffect(env, s3, step3.files);
    var id, dir := ChosenId(env, s), s.transformFilesDir.value;
    assert ReadInputFixture(env, s3, step3.files).value == Fixture(dir, id, s.input.GetOr(JObject([])));
    assert RunFrom(env, NodeTestTransform, s3, step3.files).outcome == Ok(Merge(s3, step4.update));
  }

  /** End to end, with the corrected loader and a JSON codec that reads the
      input back: a run on a state with
      input, a directory and seed turns, where the model asks for a tool call
      the tool accepts and the stored transform returns `out` on the input,
      ends normally.  Its final state has five more turns (the reply, two from
      make, two from test), the transform and its id (the seeded one if any),
      and `input`, `output` and the directory as given; the three artifacts
      are written for that id. */
  lemma RunEndToEnd(env: Env, s0: State, fs: FileMap)
    requires HasInput(s0) && HasFilesDir(s0) && Turns(s0) != []
    requires env.loader == SourceFileLoader && CodecKeeps(env, s0.input.value)
    requires var reply := env.llm(Turns(s0));
             reply.AiMessage? && reply.toolCalls != []
             && env.makeTransformTool(Last(reply.toolCalls).args).Some?
             && env.execute(SourceText(env.makeTransformTool(Last(reply.toolCalls).args).value), s0.input.value).Returned?
    ensures var reply := env.llm(Turns(s0));
            var t := env.makeTransformTool(Last(reply.toolCalls).args).value;
            var out := env.execute(SourceText(t), s0.input.value).value;
            var r := Run(env, s0, fs);
            && r.outcome == Ok(FinalState(env, s0, reply, t, out))
            && r.files == FinalFiles(env, s0, fs, t, out)
            && |Turns(r.outcome.value)| == |Turns(s0)| + 5
  {
    var t0 := Turns(s0);
    var reply := env.llm(t0);
    var call := Last(reply.toolCalls);
    var t := env.makeTransformTool(call.args).value;
    var out := env.execute(SourceText(t), s0.input.value).value;
    var s2 := s0.(turns := Some(t0 + [reply]));
    RunThroughInvoke(env, s0, fs);
    assert LastToolCall(s2.turns) == Ok(call);
    RunFromMakeSucceeds(env, s2, fs);
    assert Turns(s2) == t0 + [reply];
  }

  /** The scenario of an identity transform, with the corrected loader: the
      output fixture holds the input document, and reading it back gives that
      document. */
  lemma RunIdentityTransform(env: Env, s0: State, fs: FileMap)
    requires HasInput(s0) && HasFilesDir(s0) && Turns(s0) != []
    requires env.loader == SourceFileLoader && CodecKeeps(env, s0.input.value)
    requires var reply := env.llm(Turns(s0));
             reply.AiMessage? && reply.toolCalls != []
             && env.makeTransformTool(Last(reply.toolCalls).args).Some?
             && env.execute(SourceText(env.makeTransformTool(Last(reply.toolCalls).args).value), s0.input.value)
                == Returned(s0.input.value)
    ensures var r := Run(env, s0, fs);
            && r.outcome.Ok? && r.outcome.value.transformId == Some(ChosenId(env, s0))
            && OutputPath(s0.transformFilesDir.value, ChosenId(env, s0)) in r.files
            && env.loads(r.files[OutputPath(s0.transformFilesDir.value, ChosenId(env, s0))]) == s0.input
  {
    RunEndToEnd(env, s0, fs);
    var reply := env.llm(Turns(s0));
    var t := env.makeTransformTool(Last(reply.toolCalls).args).value;
    var input := s0.input.value;
    var files := FinalFiles(env, s0, fs, t, input);
    assert files[OutputPath(s0.transformFilesDir.value, ChosenId(env, s0))] == env.dumpsIndented(input);
  }

  /** As written, no run from a node ever ends normally: the test node is the
      last one, and it always fails. */
  lemma {:induction false} RunFromAsWrittenFails(env: Env, st: Stage, s: State, fs: FileMap)
    requires env.loader == SpecFromFileLocation && st != End
    ensures RunFrom(env, st, s, fs).outcome.Err?
    decreases Rank(st)
  {
    var ex := Execute(env, st, s, fs);
    if st == NodeTestTransform {
      TestTransformAsWrittenAlwaysFails(env, s, fs);
    } else if ex.Ok? && CanPrintLastTurn(Merge(s, ex.value.update)) {
      RunFromAsWrittenFails(env, Next(st), Merge(s, ex.value.update), ex.value.files);
    }
  }

  /** As written, `run_workflow` never returns a state: every run ends with
      an exception. */
  lemma RunAsWrittenNeverEndsNormally(env: Env, s0: State, fs: FileMap)
    requires env.loader == SpecFromFileLocation
    ensures Run(env, s0, fs).outcome.Err?
  {
    if CanPrintLastTurn(s0) { RunFromAsWrittenFails(env, Start, s0, fs); }
  }

  /** As written, the test node, once it has read the input fixture, ends
      the run with ImportError for the source path and writes nothing. */
  lemma AsWrittenTestRun(env: Env, s: State, fs: FileMap)
    requires env.loader == SpecFromFileLocation && ReadInputFixture(env, s, fs).Ok?
    ensures var f := ReadInputFixture(env, s, fs).value;
            RunFrom(env, NodeTestTransform, s, fs) == Trace([NodeTestTransform], [], Err(ImportError(SourcePath(f.dir, f.id))), fs)
  {
    TestTransformAsWrittenAlwaysFails(env, s, fs);
    assert Execute(env, NodeTestTransform, s, fs) == TestTransformAsWritten(env, s, fs);
  }

  /** As written, the run that `RunEndToEnd` describes, needing only that the
      input fixture decodes, gets through make, which writes the source and
      the input fixture, and then raises ImportError for the source path; no
      output fixture is written. */
  lemma RunAsWrittenEndToEnd(env: Env, s0: State, fs: FileMap)
    requires HasInput(s0) && HasFilesDir(s0) && Turns(s0) != []
    requires env.loader == SpecFromFileLocation && env.loads(env.dumpsIndented(s0.input.value)).Some?
    requires var reply := env.llm(Turns(s0));
             reply.AiMessage? && reply.toolCalls != []
             && env.makeTransformTool(Last(reply.toolCalls).args).Some?
    ensures var reply := env.llm(Turns(s0));
            var t := env.makeTransformTool(Last(reply.toolCalls).args).value;
            var id := ChosenId(env, s0);
            var dir := s0.transformFilesDir.value;
            var r := Run(env, s0, fs);
            && r.outcome == Err(ImportError(SourcePath(dir, id)))
            && r.visited == [NodeValidateStartingState, NodeInvokeLlmPython, NodeMakeTransform, NodeTestTransform]
            && r.files == fs[SourcePath(dir, id) := SourceText(t)]
                            [InputPath(dir, id) := env.dumpsIndented(s0.input.value)]
  {
    var t0 := Turns(s0);
    var reply := env.llm(t0);
    var call := Last(reply.toolCalls);
    var s2 := s0.(turns := Some(t0 + [reply]));
    RunThroughInvoke(env, s0, fs);
    assert LastToolCall(s2.turns) == Ok(call);
    var step3 := MakeTransform(env, s2, fs).value;
    MakeTransformEffect(env, s2, fs);
    var s3 := Merge(s2, step3.update);
    var id := ChosenId(env, s0);
    var dir := s0.transformFilesDir.value;
    var data := env.loads(env.dumpsIndented(s0.input.value)).value;
    assert ReadInputFixture(env, s3, step3.files) == Ok(Fixture(dir, id, data));
    AsWrittenTestRun(env, s3, step3.files);
    assert RunFrom(env, NodeMakeTransform, s2, fs).outcome == Err(ImportError(SourcePath(dir, id)));
  }
}
