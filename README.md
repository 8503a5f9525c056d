# The Python-expert workflow of LP03, modelled in Dafny

LP03 has an LLM agent write a Python transform that migrates Elasticsearch
index settings to OpenSearch. This project models the core of that agent:

- **The workflow graph** (`lp03/python_expert/graph.py`). The state record
  `PythonState` goes through four nodes: validate the starting state, invoke
  the model, make the transform, test the transform.
- **The merge policy.** Each node returns a partial update. `python_turns`
  uses the `add_messages` reducer and is appended to. Every other key is
  overwritten.
- **The run loop** `run_workflow`. It walks the streamed states and keeps the
  last one.
- **The artifact path scheme** (`lp03/utilities/transforms.py`). A transform
  id names three files in the transform directory: `<id>.json` holds the
  source, `<id>_input.json` the input fixture and `<id>_output.json` the
  output fixture. Each path is built with POSIX `os.path.join`.

## Modules

- `wrappers.dfy`, module `Wrappers`: `Option` and `Result`.
- `transforms.dfy`, module `Transforms`:
  - `os.path.join`, `os.path.basename` and the three path functions;
  - the suffix test that `importlib.util.spec_from_file_location` applies
    before it returns a module spec.
- `state.dfy`, module `PythonState`:
  - the JSON document, messages, tool calls, `Transform`, the state and a partial update;
  - `Merge`, which applies an update to the state;
  - Python truthiness of a JSON value.
- `nodes.dfy`, module `Nodes`: the four nodes as functions.
  - The inputs are the state and the files (a map from path to content).
  - The result is the node's update and the new files, or the exception the
    node raises: a `StageError` such as `MissingStateError`, `KeyError` or
    `IndexError`.
  - Everything outside the process is a field of `Env`: the model, the tool,
    the JSON codec, loading and running the generated code, and the two uuids.
  - `Env.loader` says how the test node loads the transform's source file:
    `SpecFromFileLocation` as the code is written, or `SourceFileLoader`, the
    correction described under "## Findings".
- `graph.dfy`, module `Graph`:
  - the static edge chain;
  - `RunFrom` and `Run`, the pure meaning of `run_workflow`: which nodes ran,
    which states were streamed, the outcome and the files. The test node
    uses the loader `Env.loader` names;
  - the lemmas about whole runs, for both loaders: as written no run ends
    normally (`Graph.RunAsWrittenNeverEndsNormally`); with the corrected
    loader a run ends normally and stores the three artifacts
    (`Graph.RunEndToEnd`).
- `runner.dfy`, module `Runner`, the imperative side:
  - `ArtifactStore`, the file system as an object whose `files` map is
    written in place;
  - the make and test nodes as methods. They write to the store and build
    their `result` list by appending;
  - `RunWorkflow`, the streaming loop. Its postcondition says it returns
    exactly what `Graph.Run` gives.

### Two consequences of the merge policy

- **Validate does not reset the turns.** Validate's update,
  `{"python_turns": []}` (graph.py:88), reads like a reset of the turn log
  to empty. But the `add_messages` reducer appends it (graph.py:37), so the
  log is unchanged. The model follows the code
  (`Nodes.ValidateStartingState`). For the same reason, seeding the turns
  before the run is safe.
- **Printing the last turn can fail on an empty log.** The run loop prints
  the last turn of every streamed state that has a `python_turns` key
  (graph.py:197-199). So a run with an empty seed log raises IndexError
  before it invokes the model (`Graph.RunNeedsSeedTurns`). The model assumes
  that the first streamed value is the input state itself, as LangGraph's
  `"values"` stream mode yields it.

## Model

| member | source | states |
|---|---|---|
| `PythonState.Truthy` | lp03/python_expert/graph.py:82-85 | a predicate, with no contract of its own: Python truthiness of a JSON value (null, false, zero and empty strings, arrays and objects are falsy); its use is stated by `Nodes.ValidateStartingState` |
| `PythonState.Merge` | lp03/python_expert/graph.py:37 | the merged log is the old log followed by the update's turns; every other key takes the update's value when the update has it and keeps the old one otherwise |
| `PythonState.MergeThen` | lp03/python_expert/graph.py:37 | two merges in a row equal one merge of the combined update (turns of both, in order) |
| `PythonState.MergeExtendsTurns` | lp03/python_expert/graph.py:37 | a merge never loses turns: the old log is a prefix of the new one |
| `PythonState.MergeNoUpdate` | lp03/python_expert/graph.py:37 | an update with no keys leaves the state as it was |
| `Transforms.BaseName` | lp03/utilities/transforms.py:5-12 | a specification helper, `os.path.basename`, which the source does not call: the result has no separator and ends the path. It states where the artifact files lie (`Transforms.ArtifactNames`) |
| `Transforms.DirPrefix` | lp03/utilities/transforms.py:6 | what `os.path.join` keeps before a relative name starts with the directory and ends in a separator (or is empty); it is the directory itself when that is empty or already ends in a separator |
| `Transforms.Join` | lp03/utilities/transforms.py:6 | the joined path ends with the name; a relative name keeps the directory in front; an absolute name discards it |
| `Transforms.SourcePath` | lp03/utilities/transforms.py:5-6 | the source path ends with `id + ".json"`; it starts with the directory for a relative id and is `id + ".json"` for an absolute one |
| `Transforms.InputPath` | lp03/utilities/transforms.py:8-9 | the same for `id + "_input.json"` |
| `Transforms.OutputPath` | lp03/utilities/transforms.py:11-12 | the same for `id + "_output.json"` |
| `Transforms.SuffixKeepsAbsoluteness` | lp03/utilities/transforms.py:5-12 | appending a suffix that does not start with a separator leaves an id absolute or relative as it was |
| `Transforms.ArtifactPathShape` | lp03/utilities/transforms.py:5-12 | for a relative id the artifact path is the directory prefix, the id, then the suffix; for an absolute id it is the id and the suffix |
| `Transforms.BaseNameAfterSep` | lp03/utilities/transforms.py:5-12 | a separator-free name placed after a separator (or at the start) is the base name of the result |
| `Transforms.BaseNameOfJoin` | lp03/utilities/transforms.py:5-12 | joining a directory with a separator-free name gives a path whose base name is that name |
| `Transforms.ArtifactNames` | lp03/utilities/transforms.py:5-12 | for an id with no separator, all three paths start with the directory, and their base names are `id.json`, `id_input.json` and `id_output.json` |
| `Transforms.ArtifactPathLength` | lp03/utilities/transforms.py:5-12 | an artifact path is as long as a fixed offset for (dir, id) plus its suffix |
| `Transforms.ArtifactPathsDistinct` | lp03/utilities/transforms.py:5-12 | for one directory and one id (any id), the source, input and output paths are pairwise different |
| `Transforms.ArtifactPathInjective` | lp03/utilities/transforms.py:5-12 | for one directory and one suffix, two relative ids with the same path are equal |
| `Transforms.PathsInjective` | lp03/utilities/transforms.py:5-12 | each of the three path functions is injective in the id over relative ids |
| `Transforms.AbsoluteIdAliasesRelativeId` | lp03/utilities/transforms.py:5-6 | injectivity needs relative ids: source path ("/tmp", "/tmp/t") equals source path ("/tmp", "t") |
| `Transforms.ArtifactPathsCollideAcrossIds` | lp03/utilities/transforms.py:5-12 | paths collide across ids: the source path of `x + "_input"` is the input path of `x`, and the source path of `x + "_output"` is the output path of `x` |
| `Transforms.HasImportLoader` | lp03/utilities/transforms.py:15-16 | a predicate, with no contract of its own: the suffixes for which `spec_from_file_location` picks a loader (`.py`, `.pyw`, `.pyc`, and extension suffixes ending in `.so`, `.pyd` or `.dll`). What it implies for artifact paths is `Transforms.NoImportLoaderForSourcePath` |
| `Transforms.NoImportLoaderForSourcePath` | lp03/utilities/transforms.py:14-17 | no source path ends in a suffix that `spec_from_file_location` has a loader for |
| `Nodes.ValidateStartingState` | lp03/python_expert/graph.py:81-88 | fails exactly when `input` is absent or falsy or `transform_files_dir` is absent or empty, naming `input` first; on success the update is exactly `{python_turns: []}` and carries no other key, and merging it keeps the log and every other field |
| `Nodes.InvokeLlmPython` | lp03/python_expert/graph.py:91-94 | KeyError exactly when the log is absent; otherwise merging appends exactly one message, the model's reply to the whole log, and changes nothing else |
| `Nodes.LastToolCall` | lp03/python_expert/graph.py:102 | succeeds exactly when the last turn is an AI message with at least one tool call, and returns its last call |
| `Nodes.SourceText` | lp03/python_expert/graph.py:108 | the source starts with the imports and a docstring opener and ends with a docstring closer and the code; the description is exactly the text between; its length is the parts' lengths plus 12 |
| `Nodes.ChosenId` | lp03/python_expert/graph.py:104 | the id is the state's `transform_id` whenever that key is present, and the fresh uuid only when it is absent |
| `Nodes.MakeTransform` | lp03/python_expert/graph.py:97-127 | succeeds exactly when the last tool call exists, the tool accepts its arguments and the directory key is present; otherwise raises the first failing step's exception, in source order |
| `Nodes.MakeTransformTurns` | lp03/python_expert/graph.py:121-125 | no contract of its own: the "MakeTransform" tool message answering the call, then the AI message naming the source path; `Nodes.MakeTransformEffect` states that the node appends exactly these |
| `Nodes.MakeTransformFiles` | lp03/python_expert/graph.py:107-117 | on success the source text is at the source path and the input fixture at the input path for the chosen id; no other file is added or changed |
| `Nodes.MakeTransformMerged` | lp03/python_expert/graph.py:119-127 | on success the merged state has exactly the two new turns appended, the transform and the chosen id, and `input`, `output` and the directory as before |
| `Nodes.MakeTransformEffect` | lp03/python_expert/graph.py:101-127 | on success: the source text is at the source path and the input fixture at the input path for the chosen id, and no other file changes; exactly two turns are appended (a "MakeTransform" tool message answering the call's id, then an AI message naming the source path); `transform` and `transform_id` are set; `input`, `output` and the directory are unchanged |
| `Nodes.MakeTransformKeepsId` | lp03/python_expert/graph.py:104 | making again on a state that already has an id keeps that id |
| `Nodes.ReadInputFixture` | lp03/python_expert/graph.py:135-137 | the read succeeds exactly when the directory and id keys are present and the input file for them exists and decodes; it then returns that directory, id and document. Otherwise it raises, checked in this order: KeyError `transform_files_dir`, KeyError `transform_id` (testing before making), FileNotFoundError, JsonDecodeError |
| `Nodes.TestTransform` | lp03/python_expert/graph.py:130-160 | succeeds exactly when the fixture is read, the source file exists, and running it on the fixture returns a document. Otherwise it raises the fixture's error, FileNotFoundError for the source, TransformLoadError, or the transform's own exception, in that order. On success the update has only `python_turns`, with exactly two turns, and the only file change is the returned document, written at the output path |
| `Nodes.TestTransformTurns` | lp03/python_expert/graph.py:153-158 | no contract of its own: the "TestTransform" tool message with the dumped output, then the AI message naming the output path; `Nodes.TestTransformEffect` states that the node appends exactly these |
| `Nodes.TestTransformEffect` | lp03/python_expert/graph.py:146-160 | on success the merged state differs only by a "TestTransform" tool message and an AI message naming the output path; the output fixture holds the result; the source and input fixture are unchanged |
| `Nodes.TestTransformAsWritten` | lp03/python_expert/graph.py:130-141 | as written, a failure to read the input fixture is reported as such; after that the loader needs a module spec for the source path |
| `Nodes.TestTransformAsWrittenAlwaysFails` | lp03/utilities/transforms.py:14-17 | as written, the test node never succeeds: once the fixture is read, it raises ImportError for the source path |
| `Nodes.MakeThenTest` | lp03/python_expert/graph.py:107-149 | if the codec reads the state's input back from the text it writes, testing right after making runs the transform's own source text on the state's input; it succeeds exactly when that run returns a document, which is then stored at the output path; a load failure or an exception from the transform is reported as such |
| `Graph.Next` | lp03/python_expert/graph.py:177-182 | every edge moves one node closer to END |
| `Graph.ChainFrom` | lp03/python_expert/graph.py:177-182 | the chain from a node has as many nodes as the node's rank and never contains END |
| `Graph.Execute` | lp03/python_expert/graph.py:162-165 | dispatches a node to its function, the test node with the loader `Env.loader` names; validate and invoke leave the files unchanged |
| `Graph.CanPrintLastTurn` | lp03/python_expert/graph.py:197-198 | a predicate, with no contract of its own: the loop can print the last turn of a state (no `python_turns` key, or a non-empty log); its effect is stated by `Graph.RunNeedsSeedTurns` |
| `Graph.ChainFromStart` | lp03/python_expert/graph.py:177-182 | from START the chain is validate, invoke, make, test |
| `Graph.Run` | lp03/python_expert/graph.py:187-202 | the input state is streamed first; a run that ends normally returns the last state streamed |
| `Graph.RunFrom` | lp03/python_expert/graph.py:189-200 | the driver, with no contract of its own: run the node, merge its update, stream the state, follow the edge. What it does is stated by `Graph.RunFromShape`, `Graph.RunFromStep` and the lemmas after them |
| `Graph.RunFromStep` | lp03/python_expert/graph.py:189-199 | a node that succeeds and leaves a printable state is followed by the run from the next node, on the merged state and the new files |
| `Graph.RunFromVisits` | lp03/python_expert/graph.py:177-182 | a run from a node visits a prefix of the chain from that node, all of it when it ends normally, and then streams one state per node |
| `Graph.RunFromEndsWithLast` | lp03/python_expert/graph.py:195-202 | a run that ends normally ends with the last state it streamed |
| `Graph.RunFromTurnsGrow` | lp03/python_expert/graph.py:37 | along the stream of a run, each state's turn log extends the one before |
| `Graph.RunFromShape` | lp03/python_expert/graph.py:189-202 | a convenience conjunction of the three lemmas above: a run visits a prefix of the chain (all of it when it ends normally), streams one state per node, ends with the last state streamed, and its turn log only grows |
| `Graph.RunVisitsEachNodeOnce` | lp03/python_expert/graph.py:177-202 | a normal run visits validate, invoke, make and test exactly once each, in that order, streams five states and returns the last |
| `Graph.RunTurnsOnlyGrow` | lp03/python_expert/graph.py:195-200 | in every run, failed or not, each streamed state's log extends the previous one's |
| `Graph.RunRejectsIncompleteState` | lp03/python_expert/graph.py:82-86 | a starting state without input or directory stops at validate with the right MissingStateError, and no file is written |
| `Graph.RunNeedsSeedTurns` | lp03/python_expert/graph.py:196-198 | with an empty seed log the run raises IndexError before invoking the model, and no file is written |
| `Graph.RunThroughInvoke` | lp03/python_expert/graph.py:81-94 | a run on a state with input, directory and seed turns gets through validate and invoke, and then goes on as the run from make on the state with the model's reply appended |
| `Graph.RunFromMakeSucceeds` | lp03/python_expert/graph.py:97-160 | with the corrected loader and a codec that reads the input back, the run from make ends normally. Its state has the two make turns, then the two test turns, plus the transform and its id; the three artifacts are written |
| `Graph.RunEndToEnd` | lp03/python_expert/graph.py:177-202 | given the corrected loader and a codec that reads the input back, a run with input, directory and seed turns, a model that requests an accepted tool call, and a transform that returns `out`, ends normally. The final state has the five new turns in order, the transform and the chosen id, and the other fields as given; the three artifacts are written |
| `Graph.RunIdentityTransform` | lp03/python_expert/graph.py:177-202 | with the corrected loader and an identity transform, the output fixture read back equals the input |
| `Graph.AsWrittenTestRun` | lp03/python_expert/graph.py:130-141 | as written, once the test node has read the fixture, the run from it ends with ImportError for the source path and writes nothing |
| `Graph.RunFromAsWrittenFails` | lp03/utilities/transforms.py:15-17 | as written, every run from any node ends with an exception |
| `Graph.RunAsWrittenNeverEndsNormally` | lp03/python_expert/graph.py:187-202 | as written, `run_workflow` never returns a state |
| `Graph.RunAsWrittenEndToEnd` | lp03/python_expert/graph.py:130-141 | as written, the scenario of `Graph.RunEndToEnd`, with an input fixture that only needs to decode, visits all four nodes. Make writes the source and the input fixture; test then raises ImportError for the source path, and no output fixture is written |
| `Runner.ArtifactStore.Write` | lp03/python_expert/graph.py:110-111 | the file at the path is replaced by the content; no other file changes |
| `Runner.ArtifactStore.Read` | lp03/python_expert/graph.py:136-137 | a read finds exactly the files present, with their content |
| `Runner.MakeTransformNode` | lp03/python_expert/graph.py:97-127 | the update and the store's files after the call are those of `Nodes.MakeTransform`; on an error the store is untouched |
| `Runner.TestTransformNode` | lp03/python_expert/graph.py:130-160 | the update and the store's files after the call are those of `Graph.Execute` at the test node, under either loader; on an error the store is untouched |
| `Runner.TestNodeCases` | lp03/python_expert/graph.py:130-141 | the test node under either loader is `Nodes.TestTransform`, except that as written it raises ImportError right after reading the fixture when the source path has no loader suffix |
| `Runner.ExecuteNode` | lp03/python_expert/graph.py:162-165 | running one node against the store gives `Graph.Execute` |
| `Runner.RunWorkflow` | lp03/python_expert/graph.py:187-202 | the loop's outcome and the store's final files are exactly those of `Graph.Run` |

## Findings

| source | as written | input that shows it | evidently intended | confidence | as-written member | corrected member |
|---|---|---|---|---|---|---|
| lp03/utilities/transforms.py:15-17 | `spec_from_file_location` is called without a loader on the path that `get_transform_file_path` builds, and that path always ends in `.json`. CPython returns no spec for a suffix it has no loader for, so the `ImportError` branch is taken | any run that reaches the test node, e.g. directory `/tmp/transforms` and any id: the source path ends in `.json` | load the generated source as Python (for example by passing a source-file loader), so the test node runs the transform | not executed; follows from CPython's loader selection by file suffix | `Nodes.TestTransformAsWritten` (`Nodes.TestTransformAsWrittenAlwaysFails`, `Graph.RunAsWrittenNeverEndsNormally`, `Graph.RunAsWrittenEndToEnd`) | `Nodes.TestTransform`, which `Graph.Execute` and `Runner.TestTransformNode` run when `Env.loader` is `SourceFileLoader` (`Nodes.MakeThenTest`, `Graph.RunEndToEnd`) |

## Left out

- Nodes.InvokeLlmPython: the model call is `Env.llm`, a total function of
  the turn log. The client and `bind_tools` (graph.py:22-28) are a network
  call, and its failures are not modelled.
- Graph.Run: the whole-run lemmas that end normally (`Graph.RunEndToEnd`,
  `Graph.RunIdentityTransform`, and `Runner.RunWorkflow` in that case)
  describe the program with the corrected loader, `Env.loader ==
  SourceFileLoader`. As written, every run ends with an exception
  (`Graph.RunAsWrittenNeverEndsNormally`).
- Graph.Run: assumes a fresh thread, so no checkpointed state from an
  earlier run is merged in. `StateGraph`, `compile`, the `MemorySaver`
  checkpointer and `stream` (graph.py:71-74, 185-193) are library internals,
  replaced by the explicit driver.
- **`add_messages` details.** It also converts messages, assigns each message
  an id and replaces a message that has the same id. The model merges by
  plain append.
- **The tool.** `make_transform_tool` and `Transform.to_json` come from
  `python_expert.tools`, which is not part of this model. They are
  `Env.makeTransformTool` (None when it rejects the arguments) and
  `Env.transformToJson`.
- **Running generated code.** Loading and running the generated code is
  `Env.execute`. It gives a load failure, an exception, or a document.
  Apart from the suffix test above, `load_transform_from_file`
  (transforms.py:14-20) is not modelled.
- **JSON.** `json.dumps` and `json.load` are `Env.dumpsIndented`,
  `Env.dumps` and `Env.loads`. The lemmas that need the codec to read back
  what it writes assume it only for the state's input document
  (`Nodes.CodecKeeps`), not for every value: `json.load` builds a dict, so
  it cannot give back an object with a repeated key, nor every real. Output
  that cannot be serialised cannot occur, because results are JSON values.
  Floating point is modelled as reals.
- **uuids.** The two `uuid.uuid4()` values are fields of `Env`. Nothing is
  claimed about the test node's `tool_call_id`, which answers no real call.
- Runner.ArtifactStore.Write: never fails. A missing or unwritable
  directory is not modelled, and reads fail only when a file is absent.
- **The commented-out conditional edge** (graph.py:168-175, 180) is dead
  code. The chain is fixed.
- **Logging and tracing.** `trace_python_node`, `python_state_to_json` and
  the logger calls (graph.py:44-65) are observational and not modelled. The
  loop's printing of the last turn is modelled only for the IndexError it
  can raise.
- **Other files.** `lp03/python_expert/prompting.py` (prompt text),
  `lp03/testing.py` (a driver script) and
  `lp03/utilities/opensearch_client.py` (a REST wrapper) are not part of
  this model.
