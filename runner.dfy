/**
 * The imperative side of the workflow: the transform directory as an object
 * whose files are written in place, the two nodes that write to it building
 * their list of new turns by appending, and `run_workflow`, the loop over the
 * streamed states that keeps the last one.  Each is proved to do what the
 * pure definitions in `Nodes` and `Graph` say.
 */
module Runner {
  import opened Wrappers
  import opened PythonState
  import opened Transforms
  import opened Nodes
  import opened Graph

  /** The file system under the transform directory. */
  class ArtifactStore {
    var files: FileMap

    constructor (initial: FileMap)
      ensures files == initial
    {
      files := initial;
    }

    /** `open(path, "w").write(content)`: the whole file is replaced. */
    method Write(path: string, content: string)
      modifies this
      ensures files == old(files)[path := content]
    {
      files := files[path := content];
    }

    /** `open(path, "r").read()`, None when there is no such file. */
    function Read(path: string): (r: Option<string>)
      reads this
      ensures r.Some? <==> path in files
      ensures r.Some? ==> r.value == files[path]
    {
      if path in files then Some(files[path]) else None
    }
  }

  /** The node that makes the transform, writing both files to the store. */
  method MakeTransformNode(env: Env, s: State, store: ArtifactStore) returns (r: Result<Update, StageError>)
    modifies store
    ensures var spec := MakeTransform(env, s, old(store.files));
            && (spec.Ok? ==> r == Ok(spec.value.update) && store.files == spec.value.files)
            && (spec.Err? ==> r == Err(spec.error) && store.files == old(store.files))
  {
    var callOrError := LastToolCall(s.turns);
    if callOrError.Err? {
      return Err(callOrError.error);
    }
    var call := callOrError.value;
    var made := env.makeTransformTool(call.args);
    if made.None? {
      return Err(ToolError);
    }
    var transform := made.value;
    var transformId := ChosenId(env, s);
    if s.transformFilesDir.None? {
      return Err(KeyError("transform_files_dir"));
    }
    var dir := s.transformFilesDir.value;

    var filePath := SourcePath(dir, transformId);
    store.Write(filePath, SourceText(transform));
    var inputFilePath := InputPath(dir, transformId);
    store.Write(inputFilePath, env.dumpsIndented(s.input.GetOr(JObject([]))));

    var result: seq<Message> := [];
    result := result + [ToolMessage("MakeTransform", env.transformToJson(transform), call.id)];
    result := result + [AiMessage("Transform created at path: " + filePath, [])];
    assert result == MakeTransformTurns(env, call, transform, filePath);
    return Ok(NoUpdate.(turns := Some(result), transform := Some(transform), transformId := Some(transformId)));
  }

  /** The node that tests the transform, reading both files from the store and
      writing the output fixture to it, with the loader `env` names. */
  method TestTransformNode(env: Env, s: State, store: ArtifactStore) returns (r: Result<Update, StageError>)
    modifies store
    ensures var spec := Execute(env, NodeTestTransform, s, old(store.files));
            && (spec.Ok? ==> r == Ok(spec.value.update) && store.files == spec.value.files)
            && (spec.Err? ==> r == Err(spec.error) && store.files == old(store.files))
  {
    TestNodeCases(env, s, store.files);
    if s.transformFilesDir.None? {
      return Err(KeyError("transform_files_dir"));
    }
    if s.transformId.None? {
      return Err(KeyError("transform_id"));
    }
    var dir, transformId := s.transformFilesDir.value, s.transformId.value;

    var inputFilePath := InputPath(dir, transformId);
    var inputText := store.Read(inputFilePath);
    if inputText.None? {
      return Err(FileNotFoundError(inputFilePath));
    }
    var inputData := env.loads(inputText.value);
    if inputData.None? {
      return Err(JsonDecodeError(inputFilePath));
    }

    var transformFilePath := SourcePath(dir, transformId);
    if env.loader == SpecFromFileLocation && !HasImportLoader(transformFilePath) {
      return Err(ImportError(transformFilePath));
    }
    var source := store.Read(transformFilePath);
    if source.None? {
      return Err(FileNotFoundError(transformFilePath));
    }
    var execution := env.execute(source.value, inputData.value);
    if execution.LoadFailed? {
      return Err(TransformLoadError(transformFilePath));
    }
    if execution.Raised? {
      return Err(TransformExecutionError);
    }
    var outputData := execution.value;

    var outputFilePath := OutputPath(dir, transformId);
    store.Write(outputFilePath, env.dumpsIndented(outputData));

    var result: seq<Message> := [];
    result := result + [ToolMessage("TestTransform",
                                    "Result of executing the transform on the input:\n" + env.dumps(outputData),
                                    env.freshToolCallId)];
    result := result + [AiMessage("Transform tested successfully.  Output written to: " + outputFilePath, [])];
    assert ReadInputFixture(env, s, old(store.files)) == Ok(Fixture(dir, transformId, inputData.value));
    assert result == TestTransformTurns(env, outputData, outputFilePath);
    return Ok(TurnsUpdate(result));
  }

  /** The test node is the corrected one except for the ImportError the
      suffix test raises, as written, once the fixture is read. */
  lemma TestNodeCases(env: Env, s: State, fs: FileMap)
    ensures ReadInputFixture(env, s, fs).Err? ==>
              Execute(env, NodeTestTransform, s, fs) == TestTransform(env, s, fs)
    ensures ReadInputFixture(env, s, fs).Ok? ==>
              var f := ReadInputFixture(env, s, fs).value;
              var src := SourcePath(f.dir, f.id);
              Execute(env, NodeTestTransform, s, fs)
                == if env.loader == SpecFromFileLocation && !HasImportLoader(src) then Err(ImportError(src))
                   else TestTransform(env, s, fs)
  {
    var read := ReadInputFixture(env, s, fs);
    if read.Ok? && env.loader == SpecFromFileLocation {
      var src := SourcePath(read.value.dir, read.value.id);
      assert TestTransformAsWritten(env, s, fs)
        == if HasImportLoader(src) then TestTransform(env, s, fs) else Err(ImportError(src));
    }
  }

  /** Runs one node against the store. */
  method ExecuteNode(env: Env, st: Stage, s: State, store: ArtifactStore) returns (r: Result<Update, StageError>)
    requires st != End
    modifies store
    ensures var spec := Execute(env, st, s, old(store.files));
            && (spec.Ok? ==> r == Ok(spec.value.update) && store.files == spec.value.files)
            && (spec.Err? ==> r == Err(spec.error) && store.files == old(store.files))
  {
    match st
    case NodeValidateStartingState => r := ValidateStartingState(s);
    case NodeInvokeLlmPython => r := InvokeLlmPython(env, s);
    case NodeMakeTransform => r := MakeTransformNode(env, s, store);
    case NodeTestTransform => r := TestTransformNode(env, s, store);
  }

  /** `run_workflow`: streams the state after every node, printing its last
      turn, and returns the last state streamed; the first exception ends the
      run.  The outcome and the files are those of `Graph.Run`. */
  method RunWorkflow(env: Env, initial: State, store: ArtifactStore) returns (r: Result<State, StageError>)
    modifies store
    ensures r == Run(env, initial, old(store.files)).outcome
    ensures store.files == Run(env, initial, old(store.files)).files
  {
    var state := initial;
    if !CanPrintLastTurn(state) {
      return Err(IndexError);
    }
    var finalState := state;
    var stage := Start;
    while stage != End
      invariant finalState == state && CanPrintLastTurn(state)
      invariant RunFrom(env, stage, state, store.files).outcome == Run(env, initial, old(store.files)).outcome
      invariant RunFrom(env, stage, state, store.files).files == Run(env, initial, old(store.files)).files
      decreases Rank(stage)
    {
      var update := ExecuteNode(env, stage, state, store);
      if update.Err? {
        return Err(update.error);
      }
      state := Merge(state, update.value);
      if !CanPrintLastTurn(state) {
        return Err(IndexError);
      }
      finalState := state;
      stage := Next(stage);
    }
    return Ok(finalState);
  }
}
