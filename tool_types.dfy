// The shapes shared by the assistant's tools: a tool's definition, what
// running it yields, and the task row a task-creating tool writes.
module ToolTypes {
  import opened Common

  /** The argument schema: property names and the required ones. */
  datatype Parameters = Parameters(properties: seq<string>, required: seq<string>)

  /** Which `execute` a tool runs. */
  datatype ToolKind = SnapshotContextTool | CreateEmailTool | SendEmailTool | CreateCalendarEventTool

  datatype Tool = Tool(name: string, description: string, parameters: Parameters, kind: ToolKind)

  /** What `getToolDefinitions` hands the model for a tool. */
  datatype Definition = Definition(name: string, description: string, parameters: Parameters)

  function DefinitionOf(t: Tool): (d: Definition)
    ensures d.name == t.name && d.description == t.description && d.parameters == t.parameters
  {
    Definition(t.name, t.description, t.parameters)
  }

  /** A value in a task's data object. */
  datatype DataValue = Scalar(v: JsValue) | Strings(items: seq<string>)

  /**
   * A task row: its type, its data object, and the status the writer sets
   * (`None` where the row goes through `createTask`, which is not part of
   * this model).
   */
  datatype TaskRow = TaskRow(kind: string, data: seq<(string, DataValue)>, status: Option<string>)

  /** A returned string, or a rejected promise with its message. */
  datatype ToolOutcome = Returned(output: string) | Rejected(error: string)

  /** One run of a tool: its outcome and the task it wrote, if any. */
  datatype ToolRun = ToolRun(outcome: ToolOutcome, task: Option<TaskRow>)

  /** `[…].filter(Boolean)` on lines where `None` is `null`: the missing and the empty lines go. */
  function Compact(lines: seq<Option<string>>): (r: seq<string>)
    ensures forall i :: 0 <= i < |r| ==> r[i] != ""
    ensures |r| <= |lines|
  {
    if lines == [] then []
    else
      var rest := Compact(lines[1..]);
      if lines[0].Some? && lines[0].value != "" then [lines[0].value] + rest else rest
  }

  /** The lines kept are exactly the non-empty lines present. */
  lemma {:induction false} CompactMembers(lines: seq<Option<string>>, x: string)
    ensures x in Compact(lines) <==> x != "" && Some(x) in lines
  {
    if lines != [] {
      CompactMembers(lines[1..], x);
      assert Some(x) in lines <==> Some(x) == lines[0] || Some(x) in lines[1..];
    }
  }

  lemma {:induction false} CompactAppend(a: seq<Option<string>>, b: seq<Option<string>>)
    ensures Compact(a + b) == Compact(a) + Compact(b)
  {
    if a == [] {
      assert a + b == b;
    } else {
      assert (a + b)[0] == a[0];
      assert (a + b)[1..] == a[1..] + b;
      CompactAppend(a[1..], b);
    }
  }

  /** The filter on a first line and the rest. */
  lemma CompactCons(x: Option<string>, rest: seq<Option<string>>)
    ensures Compact([x] + rest) == (if x.Some? && x.value != "" then [x.value] else []) + Compact(rest)
  {
    assert ([x] + rest)[1..] == rest;
  }

  /** What one line contributes to the filter's result. */
  function Kept(x: Option<string>): (r: seq<string>)
    ensures Compact([x]) == r
    ensures r == [] <==> x.None? || x.value == ""
  {
    assert [x][1..] == [];
    if x.Some? && x.value != "" then [x.value] else []
  }

  lemma CompactPair(a: Option<string>, b: Option<string>)
    ensures Compact([a, b]) == Kept(a) + Kept(b)
  {
    assert [a, b] == [a] + [b];
    CompactAppend([a], [b]);
  }

  lemma CompactTriple(a: Option<string>, b: Option<string>, c: Option<string>)
    ensures Compact([a, b, c]) == Kept(a) + Kept(b) + Kept(c)
  {
    assert [a, b, c] == [a] + [b, c];
    CompactAppend([a], [b, c]);
    CompactPair(b, c);
  }

  /**
   * Three fixed lines, some optional ones, then `''` and a last line: the
   * separator goes and the optional lines are filtered on their own.
   */
  lemma CompactFramed(h1: string, h2: string, h3: string, mid: seq<Option<string>>, last: string)
    requires h1 != "" && h2 != "" && h3 != "" && last != ""
    ensures Compact([Some(h1), Some(h2), Some(h3)] + mid + [Some(""), Some(last)])
            == [h1, h2, h3] + Compact(mid) + [last]
  {
    var h, t := [Some(h1), Some(h2), Some(h3)], [Some(""), Some(last)];
    CompactAppend(h + mid, t);
    CompactAppend(h, mid);
    CompactPresent(h1, h2, h3);
    CompactSeparated(last);
  }

  lemma CompactPresent(h1: string, h2: string, h3: string)
    requires h1 != "" && h2 != "" && h3 != ""
    ensures Compact([Some(h1), Some(h2), Some(h3)]) == [h1, h2, h3]
  {
    CompactCons(Some(h3), []);
    CompactCons(Some(h2), [Some(h3)]);
    CompactCons(Some(h1), [Some(h2), Some(h3)]);
    assert [Some(h3)] == [Some(h3)] + [];
    assert [Some(h2), Some(h3)] == [Some(h2)] + [Some(h3)];
    assert [Some(h1), Some(h2), Some(h3)] == [Some(h1)] + [Some(h2), Some(h3)];
  }

  /** An empty separator before a last line leaves only that line. */
  lemma CompactSeparated(last: string)
    requires last != ""
    ensures Compact([Some(""), Some(last)]) == [last]
  {
    CompactCons(Some(last), []);
    CompactCons(Some(""), [Some(last)]);
    assert [Some(last)] == [Some(last)] + [];
    assert [Some(""), Some(last)] == [Some("")] + [Some(last)];
  }

  /** A line that is there and not empty survives the filter in place. */
  lemma CompactKeeps(a: seq<Option<string>>, x: string, b: seq<Option<string>>)
    requires x != ""
    ensures Compact(a + [Some(x)] + b) == Compact(a) + [x] + Compact(b)
  {
    CompactAppend(a + [Some(x)], b);
    CompactAppend(a, [Some(x)]);
    assert Compact([Some(x)]) == [x] + Compact([]);
  }

  /** A missing or empty line leaves no trace. */
  lemma CompactDrops(a: seq<Option<string>>, x: Option<string>, b: seq<Option<string>>)
    requires x.None? || x == Some("")
    ensures Compact(a + [x] + b) == Compact(a) + Compact(b)
  {
    CompactAppend(a + [x], b);
    CompactAppend(a, [x]);
    assert Compact([x]) == Compact([]);
  }

  /** `v ? text : null`. */
  function LineIf(cond: bool, text: string): (r: Option<string>)
    ensures r.Some? <==> cond
    ensures r.Some? ==> r.value == text
  {
    if cond then Some(text) else None
  }

  /** The data entries a spread `...(v && { key: v })` contributes. */
  function EntryIf(key: string, v: JsValue): (r: seq<(string, DataValue)>)
    ensures |r| <= 1
    ensures r != [] <==> Truthy(v)
    ensures r != [] ==> r[0] == (key, Scalar(v))
  {
    if Truthy(v) then [(key, Scalar(v))] else []
  }

  lemma EntryIfKeys(key: string, v: JsValue)
    ensures DataKeys(EntryIf(key, v)) == if Truthy(v) then [key] else []
  {
  }

  /** The keys of a data object, in order. */
  function DataKeys(data: seq<(string, DataValue)>): (ks: seq<string>)
    ensures |ks| == |data|
    ensures forall i :: 0 <= i < |data| ==> ks[i] == data[i].0
  {
    if data == [] then [] else [data[0].0] + DataKeys(data[1..])
  }

  lemma {:induction false} DataKeysAppend(a: seq<(string, DataValue)>, b: seq<(string, DataValue)>)
    ensures DataKeys(a + b) == DataKeys(a) + DataKeys(b)
  {
    if a == [] {
      assert a + b == b;
    } else {
      assert (a + b)[1..] == a[1..] + b;
      DataKeysAppend(a[1..], b);
    }
  }
}
