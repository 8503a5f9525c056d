/**
 * The record the workflow threads through its stages (`PythonState`), the
 * messages of the conversation it holds, and the merge of a stage's partial
 * update into it: `python_turns` carries the `add_messages` reducer and is
 * appended to, every other key is overwritten.
 */
module PythonState {
  import opened Wrappers

  /** A JSON document (the shape of `input`, of fixtures and of transform
      output).  Numbers are kept as reals. */
  datatype Json =
    | JNull
    | JBool(b: bool)
    | JNumber(n: real)
    | JString(s: string)
    | JArray(items: seq<Json>)
    | JObject(members: seq<(string, Json)>)

  /** Python truthiness of a decoded JSON value: `None`, `False`, zero and
      empty strings, lists and dictionaries are false. */
  predicate Truthy(j: Json) {
    match j
    case JNull => false
    case JBool(b) => b
    case JNumber(n) => n != 0.0
    case JString(s) => s != []
    case JArray(items) => items != []
    case JObject(members) => members != []
  }

  /** The generated transform: its import lines, a description and the code. */
  datatype Transform = Transform(imports: string, description: string, code: string)

  /** A tool call requested by the model: the tool's name, its arguments and
      the call's id. */
  datatype ToolCall = ToolCall(name: string, args: Json, id: string)

  /** One turn of the conversation. */
  datatype Message =
    | SystemMessage(content: string)
    | HumanMessage(content: string)
    | AiMessage(content: string, toolCalls: seq<ToolCall>)
    | ToolMessage(name: string, content: string, toolCallId: string)

  /** `PythonState`: a dictionary whose keys may each be absent. */
  datatype State = State(
    input: Option<Json>,
    output: Option<seq<Json>>,
    turns: Option<seq<Message>>,
    transform: Option<Transform>,
    transformId: Option<string>,
    transformFilesDir: Option<string>)

  /** A stage's partial update: the keys it returns, each absent or present. */
  datatype Update = Update(
    input: Option<Json>,
    output: Option<seq<Json>>,
    turns: Option<seq<Message>>,
    transform: Option<Transform>,
    transformId: Option<string>,
    transformFilesDir: Option<string>)

  /** The update with no key at all. */
  const NoUpdate: Update := Update(None, None, None, None, None, None)

  /** The update that returns only `python_turns`. */
  function TurnsUpdate(msgs: seq<Message>): Update {
    NoUpdate.(turns := Some(msgs))
  }

  /** The turn log of a state; the reducer treats an absent log as empty. */
  function Turns(s: State): seq<Message> {
    s.turns.GetOr([])
  }

  function Overwrite<T>(prev: Option<T>, upd: Option<T>): Option<T> {
    if upd.Some? then upd else prev
  }

  /** Applies a stage's update to the state. */
  function Merge(s: State, u: Update): (r: State)
    ensures Turns(r) == Turns(s) + u.turns.GetOr([])
    ensures r.turns.Some? <==> s.turns.Some? || u.turns.Some?
    ensures r.input == (if u.input.Some? then u.input else s.input)
    ensures r.output == (if u.output.Some? then u.output else s.output)
    ensures r.transform == (if u.transform.Some? then u.transform else s.transform)
    ensures r.transformId == (if u.transformId.Some? then u.transformId else s.transformId)
    ensures r.transformFilesDir == (if u.transformFilesDir.Some? then u.transformFilesDir else s.transformFilesDir)
  {
    State(
      Overwrite(s.input, u.input),
      Overwrite(s.output, u.output),
      if u.turns.Some? then Some(Turns(s) + u.turns.value) else s.turns,
      Overwrite(s.transform, u.transform),
      Overwrite(s.transformId, u.transformId),
      Overwrite(s.transformFilesDir, u.transformFilesDir))
  }

  /** Two updates applied one after the other, as one update: the turns of
      both in order, and for every other key the later value when present. */
  function Then(u1: Update, u2: Update): Update {
    Update(
      Overwrite(u1.input, u2.input),
      Overwrite(u1.output, u2.output),
      if u1.turns.Some? || u2.turns.Some? then Some(u1.turns.GetOr([]) + u2.turns.GetOr([])) else None,
      Overwrite(u1.transform, u2.transform),
      Overwrite(u1.transformId, u2.transformId),
      Overwrite(u1.transformFilesDir, u2.transformFilesDir))
  }

  /** The empty update changes nothing. */
  lemma MergeNoUpdate(s: State)
    ensures Merge(s, NoUpdate) == s
  {
  }

  /** Merging is a monoid action: two merges in a row are one merge of the
      combined update. */
  lemma MergeThen(s: State, u1: Update, u2: Update)
    ensures Merge(Merge(s, u1), u2) == Merge(s, Then(u1, u2))
  {
    var l := Merge(Merge(s, u1), u2);
    var r := Merge(s, Then(u1, u2));
    assert Turns(l) == Turns(r) by {
      assert Turns(s) + u1.turns.GetOr([]) + u2.turns.GetOr([])
          == Turns(s) + (u1.turns.GetOr([]) + u2.turns.GetOr([]));
    }
  }

  /** The turn log only grows: the old log is a prefix of the merged one. */
  lemma MergeExtendsTurns(s: State, u: Update)
    ensures Turns(s) <= Turns(Merge(s, u))
  {
  }
}
