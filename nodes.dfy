/**
 * The four stages of the workflow, each a function from the state (and the
 * transform directory's files, a map from path to content) to the partial
 * update it returns, or to the exception it raises.  Everything the stages
 * reach outside the state is a field of `Env`.
 */
module Nodes {
  import opened Wrappers
  import opened PythonState
  import opened Transforms

  /** The files of the file system, by path. */
  type FileMap = map<string, string>

  /** What loading a transform's source text and calling its `transform`
      function on a document gives: a load failure (malformed source, no
      `transform` function), an exception from the generated code, or the
      returned document. */
  datatype Execution = LoadFailed | Raised | Returned(value: Json)

  /** How the test stage loads the transform's source file: as the code is
      written, by `spec_from_file_location` choosing a loader from the file's
      suffix, or by an explicit source loader, as the code evidently means. */
  datatype Loader = SpecFromFileLocation | SourceFileLoader

  /** The collaborators of the stages, given as values. */
  datatype Env = Env(
    llm: seq<Message> -> Message,              // the tool-bound model's reply to the turns
    makeTransformTool: Json -> Option<Transform>, // the tool, None when it rejects the arguments
    transformToJson: Transform -> string,      // Transform.to_json()
    dumpsIndented: Json -> string,             // json.dumps(_, indent=4)
    dumps: Json -> string,                     // json.dumps(_)
    loads: string -> Option<Json>,             // json.load, None on malformed text
    execute: (string, Json) -> Execution,      // load the source text, run `transform`
    freshTransformId: string,                  // str(uuid.uuid4()) in MakeTransform
    freshToolCallId: string,                   // uuid.uuid4() in TestTransform
    loader: Loader)                            // how TestTransform loads the source file

  /** The exceptions a stage can raise. */
  datatype StageError =
    | MissingStateError(field: string)  // a required key is absent or falsy
    | KeyError(key: string)             // state[key] on an absent key
    | IndexError                        // [-1] on an empty list
    | AttributeError                    // .tool_calls on a message that is not an AI message
    | ToolError                         // the tool rejects the call's arguments
    | FileNotFoundError(path: string)
    | JsonDecodeError(path: string)
    | ImportError(path: string)         // no module spec for the path
    | TransformLoadError(path: string)
    | TransformExecutionError

  /** A stage's success: its update and the files afterwards. */
  datatype Step = Step(update: Update, files: FileMap)

  predicate HasInput(s: State) {
    s.input.Some? && Truthy(s.input.value)
  }

  predicate HasFilesDir(s: State) {
    s.transformFilesDir.Some? && s.transformFilesDir.value != []
  }

  /** Stage 1: the starting state must carry a truthy `input` and a non-empty
      `transform_files_dir`, checked in that order.  On success the update is
      an empty list of turns, which the reducer appends: the state keeps its
      turn log and every other field. */
  function ValidateStartingState(s: State): (r: Result<Update, StageError>)
    ensures r.Ok? <==> HasInput(s) && HasFilesDir(s)
    ensures r.Err? ==> r.error == MissingStateError(if HasInput(s) then "transform_files_dir" else "input")
    ensures r.Ok? ==> r.value == TurnsUpdate([])
    ensures r.Ok? ==> Merge(s, r.value) == s.(turns := Some(Turns(s)))
  {
    if !HasInput(s) then Err(MissingStateError("input"))
    else if !HasFilesDir(s) then Err(MissingStateError("transform_files_dir"))
    else
      assert Turns(s) + [] == Turns(s);
      Ok(TurnsUpdate([]))
  }

  /** Stage 2: sends the whole turn log to the model and appends its one
      reply at the end; nothing else changes. */
  function InvokeLlmPython(env: Env, s: State): (r: Result<Update, StageError>)
    ensures r.Err? <==> s.turns.None?
    ensures r.Err? ==> r.error == KeyError("python_turns")
    ensures r.Ok? ==> Merge(s, r.value) == s.(turns := Some(s.turns.value + [env.llm(s.turns.value)]))
  {
    if s.turns.None? then Err(KeyError("python_turns"))
    else Ok(TurnsUpdate([env.llm(s.turns.value)]))
  }

  function Last<T>(xs: seq<T>): T
    requires xs != []
  {
    xs[|xs| - 1]
  }

  /** `state["python_turns"][-1].tool_calls[-1]`: the last tool call of the
      last turn, which must be an AI message with at least one call. */
  function LastToolCall(turns: Option<seq<Message>>): (r: Result<ToolCall, StageError>)
    ensures r.Ok? <==> turns.Some? && turns.value != [] && Last(turns.value).AiMessage?
                       && Last(turns.value).toolCalls != []
    ensures r.Ok? ==> r.value == Last(Last(turns.value).toolCalls)
  {
    if turns.None? then Err(KeyError("python_turns"))
    else if turns.value == [] then Err(IndexError)
    else if !Last(turns.value).AiMessage? then Err(AttributeError)
    else if Last(turns.value).toolCalls == [] then Err(IndexError)
    else Ok(Last(Last(turns.value).toolCalls))
  }

  /** The content of a transform's source file: the imports, a blank line,
      the description as a docstring, a blank line, then the code. */
  function SourceText(t: Transform): (text: string)
    ensures |text| == |t.imports| + |t.description| + |t.code| + 12
    ensures StartsWith(text, t.imports + "\n\n\"\"\"\n")
    ensures text[|t.imports| + 6..|text| - |t.code| - 6] == t.description
    ensures EndsWith(text, "\n\"\"\"\n\n" + t.code)
  {
    var text := t.imports + "\n\n\"\"\"\n" + t.description + "\n\"\"\"\n\n" + t.code;
    assert text == (t.imports + "\n\n\"\"\"\n") + t.description + ("\n\"\"\"\n\n" + t.code);
    text
  }

  /** The transform id MakeTransform uses: the state's id whenever that key
      is present (whatever its value), a freshly minted one otherwise. */
  function ChosenId(env: Env, s: State): (id: string)
    ensures s.transformId.Some? ==> id == s.transformId.value
    ensures s.transformId.None? ==> id == env.freshTransformId
  {
    s.transformId.GetOr(env.freshTransformId)
  }

  /** The two turns MakeTransform appends. */
  function MakeTransformTurns(env: Env, call: ToolCall, t: Transform, sourcePath: string): seq<Message> {
    [ToolMessage("MakeTransform", env.transformToJson(t), call.id),
     AiMessage("Transform created at path: " + sourcePath, [])]
  }

  /** Stage 3: builds the transform from the last tool call's arguments,
      writes its source and the input fixture under the chosen id, and
      returns the two new turns, the transform and its id. */
  function MakeTransform(env: Env, s: State, fs: FileMap): (r: Result<Step, StageError>)
    ensures r.Ok? <==> LastToolCall(s.turns).Ok?
                       && env.makeTransformTool(LastToolCall(s.turns).value.args).Some?
                       && s.transformFilesDir.Some?
    ensures r.Err? ==> (if LastToolCall(s.turns).Err? then r.error == LastToolCall(s.turns).error
                        else if env.makeTransformTool(LastToolCall(s.turns).value.args).None? then r.error == ToolError
                        else r.error == KeyError("transform_files_dir"))
  {
    match LastToolCall(s.turns)
    case Err(e) => Err(e)
    case Ok(call) =>
      match env.makeTransformTool(call.args)
      case None => Err(ToolError)
      case Some(t) =>
        var id := ChosenId(env, s);
        if s.transformFilesDir.None? then Err(KeyError("transform_files_dir"))
        else
          var dir := s.transformFilesDir.value;
          var src := SourcePath(dir, id);
          var inp := InputPath(dir, id);
          var files := fs[src := SourceText(t)][inp := env.dumpsIndented(s.input.GetOr(JObject([])))];
          var u := NoUpdate.(turns := Some(MakeTransformTurns(env, call, t, src)),
                             transform := Some(t), transformId := Some(id));
          Ok(Step(u, files))
  }

  /** The files MakeTransform leaves: the source text and the input fixture
      at their paths for the chosen id, every other file as it was. */
  lemma MakeTransformFiles(env: Env, s: State, fs: FileMap)
    requires MakeTransform(env, s, fs).Ok?
    ensures var t := env.makeTransformTool(LastToolCall(s.turns).value.args).value;
            var src := SourcePath(s.transformFilesDir.value, ChosenId(env, s));
            var inp := InputPath(s.transformFilesDir.value, ChosenId(env, s));
            var files := MakeTransform(env, s, fs).value.files;
            && files.Keys == fs.Keys + {src, inp}
            && files[src] == SourceText(t)
            && files[inp] == env.dumpsIndented(s.input.GetOr(JObject([])))
            && (forall p :: p in fs && p != src && p != inp ==> files[p] == fs[p])
  {
    var t := env.makeTransformTool(LastToolCall(s.turns).value.args).value;
    var dir, id := s.transformFilesDir.value, ChosenId(env, s);
    ArtifactPathsDistinct(dir, id);
    assert MakeTransform(env, s, fs).value.files
      == fs[SourcePath(dir, id) := SourceText(t)][InputPath(dir, id) := env.dumpsIndented(s.input.GetOr(JObject([])))];
  }

  /** The state after merging MakeTransform's update: exactly two more turns,
      the new transform and the id, every other field as before. */
  lemma MakeTransformMerged(env: Env, s: State, fs: FileMap)
    requires MakeTransform(env, s, fs).Ok?
    ensures var call := LastToolCall(s.turns).value;
            var t := env.makeTransformTool(call.args).value;
            var src := SourcePath(s.transformFilesDir.value, ChosenId(env, s));
            var s' := Merge(s, MakeTransform(env, s, fs).value.update);
            && Turns(s') == Turns(s) + [ToolMessage("MakeTransform", env.transformToJson(t), call.id),
                                        AiMessage("Transform created at path: " + src, [])]
            && s'.transform == Some(t) && s'.transformId == Some(ChosenId(env, s))
            && s'.input == s.input && s'.output == s.output && s'.transformFilesDir == s.transformFilesDir
  {
    var call := LastToolCall(s.turns).value;
    var t := env.makeTransformTool(call.args).value;
    var src := SourcePath(s.transformFilesDir.value, ChosenId(env, s));
    assert MakeTransform(env, s, fs).value.update
      == NoUpdate.(turns := Some(MakeTransformTurns(env, call, t, src)),
                   transform := Some(t), transformId := Some(ChosenId(env, s)));
  }

  /** What MakeTransform does when it succeeds, `MakeTransformFiles` and
      `MakeTransformMerged` together, with the id spelled out: the id is reused or minted,
      the source text and the input fixture are both readable at their paths
      for that id, no other file changes, and the merged state has exactly
      two more turns (a "MakeTransform" tool message answering the call,
      then an AI message), the new transform and the id, and every other
      field as before. */
  lemma MakeTransformEffect(env: Env, s: State, fs: FileMap)
    requires MakeTransform(env, s, fs).Ok?
    ensures var call := LastToolCall(s.turns).value;
            var t := env.makeTransformTool(call.args).value;
            var id := if s.transformId.Some? then s.transformId.value else env.freshTransformId;
            var dir := s.transformFilesDir.value;
            var step := MakeTransform(env, s, fs).value;
            var s' := Merge(s, step.update);
            && step.files.Keys == fs.Keys + {SourcePath(dir, id), InputPath(dir, id)}
            && step.files[SourcePath(dir, id)] == SourceText(t)
            && step.files[InputPath(dir, id)] == env.dumpsIndented(s.input.GetOr(JObject([])))
            && (forall p :: p in fs && p != SourcePath(dir, id) && p != InputPath(dir, id) ==> step.files[p] == fs[p])
            && Turns(s') == Turns(s) + [ToolMessage("MakeTransform", env.transformToJson(t), call.id),
                                        AiMessage("Transform created at path: " + SourcePath(dir, id), [])]
            && s'.transform == Some(t) && s'.transformId == Some(id)
            && s'.input == s.input && s'.output == s.output && s'.transformFilesDir == s.transformFilesDir
  {
    MakeTransformFiles(env, s, fs);
    MakeTransformMerged(env, s, fs);
  }

  /** Calling MakeTransform again on its own result keeps the id: a state
      that already carries an id is never given a new one. */
  lemma MakeTransformKeepsId(env: Env, s: State, fs: FileMap)
    requires s.transformId.Some?
    requires MakeTransform(env, s, fs).Ok?
    ensures Merge(s, MakeTransform(env, s, fs).value.update).transformId == s.transformId
  {
  }

  /** The input fixture TestTransform reads: the directory and id it is
      keyed by, and the decoded document. */
  datatype Fixture = Fixture(dir: string, id: string, data: Json)

  /** Reads the input fixture for the state's directory and id. */
  function ReadInputFixture(env: Env, s: State, fs: FileMap): (r: Result<Fixture, StageError>)
    ensures r.Ok? <==> s.transformFilesDir.Some? && s.transformId.Some?
                       && InputPath(s.transformFilesDir.value, s.transformId.value) in fs
                       && env.loads(fs[InputPath(s.transformFilesDir.value, s.transformId.value)]).Some?
    ensures r.Ok? ==> s.transformFilesDir == Some(r.value.dir) && s.transformId == Some(r.value.id)
    ensures r.Ok? ==> InputPath(r.value.dir, r.value.id) in fs
                      && env.loads(fs[InputPath(r.value.dir, r.value.id)]) == Some(r.value.data)
    ensures r.Err? ==> (if s.transformFilesDir.None? then r.error == KeyError("transform_files_dir")
                        else if s.transformId.None? then r.error == KeyError("transform_id")
                        else var path := InputPath(s.transformFilesDir.value, s.transformId.value);
                             if path !in fs then r.error == FileNotFoundError(path)
                             else r.error == JsonDecodeError(path))
  {
    if s.transformFilesDir.None? then Err(KeyError("transform_files_dir"))
    else if s.transformId.None? then Err(KeyError("transform_id"))
    else
      var path := InputPath(s.transformFilesDir.value, s.transformId.value);
      if path !in fs then Err(FileNotFoundError(path))
      else match env.loads(fs[path])
        case None => Err(JsonDecodeError(path))
        case Some(data) => Ok(Fixture(s.transformFilesDir.value, s.transformId.value, data))
  }

  /** The two turns TestTransform appends. */
  function TestTransformTurns(env: Env, out: Json, outputPath: string): seq<Message> {
    [ToolMessage("TestTransform", "Result of executing the transform on the input:\n" + env.dumps(out),
                 env.freshToolCallId),
     AiMessage("Transform tested successfully.  Output written to: " + outputPath, [])]
  }

  /** Stage 4, with the source file loaded by an explicit source loader:
      runs the stored transform on the stored input fixture, writes the
      output fixture, and returns only two new turns. */
  function TestTransform(env: Env, s: State, fs: FileMap): (r: Result<Step, StageError>)
    ensures r.Ok? <==> ReadInputFixture(env, s, fs).Ok?
                       && var f := ReadInputFixture(env, s, fs).value;
                          SourcePath(f.dir, f.id) in fs && env.execute(fs[SourcePath(f.dir, f.id)], f.data).Returned?
    ensures r.Err? ==> (if ReadInputFixture(env, s, fs).Err? then r.error == ReadInputFixture(env, s, fs).error
                        else var f := ReadInputFixture(env, s, fs).value;
                             var src := SourcePath(f.dir, f.id);
                             if src !in fs then r.error == FileNotFoundError(src)
                             else if env.execute(fs[src], f.data).LoadFailed? then r.error == TransformLoadError(src)
                             else r.error == TransformExecutionError)
    ensures r.Ok? ==> r.value.update.turns.Some? && |r.value.update.turns.value| == 2
    ensures r.Ok? ==> r.value.update == TurnsUpdate(r.value.update.turns.value)
    ensures r.Ok? ==> ReadInputFixture(env, s, fs).Ok?
    ensures r.Ok? ==> var f := ReadInputFixture(env, s, fs).value;
                      && SourcePath(f.dir, f.id) in fs
                      && env.execute(fs[SourcePath(f.dir, f.id)], f.data).Returned?
                      && r.value.files == fs[OutputPath(f.dir, f.id) :=
                           env.dumpsIndented(env.execute(fs[SourcePath(f.dir, f.id)], f.data).value)]
  {
    match ReadInputFixture(env, s, fs)
    case Err(e) => Err(e)
    case Ok(f) =>
      var src := SourcePath(f.dir, f.id);
      if src !in fs then Err(FileNotFoundError(src))
      else match env.execute(fs[src], f.data)
        case LoadFailed => Err(TransformLoadError(src))
        case Raised => Err(TransformExecutionError)
        case Returned(out) =>
          var outPath := OutputPath(f.dir, f.id);
          Ok(Step(TurnsUpdate(TestTransformTurns(env, out, outPath)), fs[outPath := env.dumpsIndented(out)]))
  }

  /** Stage 4 as written: the loader asks for a module spec for the source
      path before anything is executed, and raises ImportError when there is
      none. */
  function TestTransformAsWritten(env: Env, s: State, fs: FileMap): (r: Result<Step, StageError>)
    ensures ReadInputFixture(env, s, fs).Err? ==> r == Err(ReadInputFixture(env, s, fs).error)
  {
    match ReadInputFixture(env, s, fs)
    case Err(e) => Err(e)
    case Ok(f) =>
      var src := SourcePath(f.dir, f.id);
      if HasImportLoader(src) then TestTransform(env, s, fs) else Err(ImportError(src))
  }

  /** As written, TestTransform never succeeds: once the input fixture is
      read, loading the `.json` source file fails with ImportError. */
  lemma TestTransformAsWrittenAlwaysFails(env: Env, s: State, fs: FileMap)
    ensures TestTransformAsWritten(env, s, fs).Err?
    ensures ReadInputFixture(env, s, fs).Ok? ==>
              var f := ReadInputFixture(env, s, fs).value;
              TestTransformAsWritten(env, s, fs) == Err(ImportError(SourcePath(f.dir, f.id)))
  {
    if ReadInputFixture(env, s, fs).Ok? {
      var f := ReadInputFixture(env, s, fs).value;
      NoImportLoaderForSourcePath(f.dir, f.id);
    }
  }

  /** The corrected stage leaves every field but the turn log alone and
      appends a "TestTransform" tool message and an AI message naming the
      output path; it changes only the output fixture, so the transform's
      source and input fixture are still there, unchanged. */
  lemma TestTransformEffect(env: Env, s: State, fs: FileMap)
    requires TestTransform(env, s, fs).Ok?
    ensures var f := ReadInputFixture(env, s, fs).value;
            var out := env.execute(fs[SourcePath(f.dir, f.id)], f.data).value;
            var step := TestTransform(env, s, fs).value;
            var s' := Merge(s, step.update);
            && s' == s.(turns := Some(Turns(s) + TestTransformTurns(env, out, OutputPath(f.dir, f.id))))
            && step.files[OutputPath(f.dir, f.id)] == env.dumpsIndented(out)
            && step.files[SourcePath(f.dir, f.id)] == fs[SourcePath(f.dir, f.id)]
            && step.files[InputPath(f.dir, f.id)] == fs[InputPath(f.dir, f.id)]
  {
    var f := ReadInputFixture(env, s, fs).value;
    ArtifactPathsDistinct(f.dir, f.id);
  }

  /** The JSON codec reads document `j` back from the text it writes for it. */
  predicate CodecKeeps(env: Env, j: Json) {
    env.loads(env.dumpsIndented(j)) == Some(j)
  }

  /** The artifact store round trip: what MakeTransform writes is what
      TestTransform reads.  When the codec reads the input back, testing right after
      making runs the transform's own source text on the state's input, and
      succeeds exactly when that run returns a document. */
  lemma MakeThenTest(env: Env, s: State, fs: FileMap)
    requires CodecKeeps(env, s.input.GetOr(JObject([])))
    requires MakeTransform(env, s, fs).Ok?
    ensures var step := MakeTransform(env, s, fs).value;
            var t := env.makeTransformTool(LastToolCall(s.turns).value.args).value;
            var run := env.execute(SourceText(t), s.input.GetOr(JObject([])));
            var tested := TestTransform(env, Merge(s, step.update), step.files);
            && (tested.Ok? <==> run.Returned?)
            && (run.LoadFailed? ==> tested == Err(TransformLoadError(SourcePath(s.transformFilesDir.value, ChosenId(env, s)))))
            && (run.Raised? ==> tested == Err(TransformExecutionError))
            && (run.Returned? ==> tested.value.files[OutputPath(s.transformFilesDir.value, ChosenId(env, s))]
                                  == env.dumpsIndented(run.value))
  {
    MakeTransformEffect(env, s, fs);
    var step := MakeTransform(env, s, fs).value;
    var s1 := Merge(s, step.update);
    var dir := s.transformFilesDir.value;
    var id := ChosenId(env, s);
    var input := s.input.GetOr(JObject([]));
    assert ReadInputFixture(env, s1, step.files) == Ok(Fixture(dir, id, input));
  }
}
