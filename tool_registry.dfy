// The tool registry: a map from tool names to tools, kept in insertion
// order as a JavaScript `Map` iterates, with the definitions handed to the
// model and the dispatch by name.
module ToolRegistry {
  import opened Common
  import opened ToolTypes
  import SnapshotContext
  import CreateEmail
  import CreateCalendarEvent
  import SendEmail

  /** `d` is `s` with some elements left out: what remains keeps its order. */
  predicate SubsequenceOf<T(==)>(d: seq<T>, s: seq<T>)
    decreases |s|
  {
    if s == [] then d == []
    else (d != [] && d[0] == s[0] && SubsequenceOf(d[1..], s[1..])) || SubsequenceOf(d, s[1..])
  }

  /** A filter keeps the order of the elements it keeps. */
  lemma {:induction false} FilterIsSubsequence<T>(s: seq<T>, p: T -> bool)
    ensures SubsequenceOf(Filter(s, p), s)
  {
    if s != [] {
      FilterIsSubsequence(s[1..], p);
      if p(s[0]) {
        assert Filter(s, p) == [s[0]] + Filter(s[1..], p);
        assert Filter(s, p)[1..] == Filter(s[1..], p);
      } else {
        assert Filter(s, p) == Filter(s[1..], p);
      }
    }
  }

  /** The tools that create tasks for the browser extension. */
  predicate CreatesTasks(name: string)
  {
    name == CreateEmail.Name || name == CreateCalendarEvent.Name
  }

  /** The names `initializeTools` registers. */
  predicate IsInitial(name: string)
  {
    name == SnapshotContext.Name || name == CreateEmail.Name || name == CreateCalendarEvent.Name
  }

  /** The three tools `initializeTools` registers, and `send_email`, have four different names. */
  lemma InitialNamesDistinct()
    ensures SnapshotContext.Name != CreateEmail.Name && SnapshotContext.Name != CreateCalendarEvent.Name
    ensures CreateEmail.Name != CreateCalendarEvent.Name
    ensures SendEmail.Name != SnapshotContext.Name && SendEmail.Name != CreateEmail.Name
    ensures SendEmail.Name != CreateCalendarEvent.Name
  {
    assert |SnapshotContext.Name| == 20 && |CreateEmail.Name| == 12 && |CreateCalendarEvent.Name| == 21;
    assert |SendEmail.Name| == 10;
  }

  /** `executeTool` either finds the tool or throws. */
  datatype Dispatch = Run(tool: Tool) | Threw(error: string)

  function NotFound(name: string): string
  {
    "Tool \"" + name + "\" not found"
  }

  ghost predicate Consistent(names: seq<string>, tools: map<string, Tool>)
  {
    && (forall i, j :: 0 <= i < j < |names| ==> names[i] != names[j])
    && (forall n :: n in tools <==> n in names)
    && (forall n :: n in tools ==> tools[n].name == n)
  }

  class Registry {
    /** The keys in insertion order. */
    var names: seq<string>
    var tools: map<string, Tool>

    /** Every key once, exactly the map's keys, each naming its own tool. */
    ghost predicate Valid()
      reads this
    {
      Consistent(names, tools)
    }

    constructor ()
      ensures names == [] && tools == map[]
      ensures Valid()
    {
      names, tools := [], map[];
    }

    /**
     * `registerTool`: `tools.set(tool.name, tool)`. A new name goes last; a
     * name already there keeps its place and gets the new tool.
     */
    method Register(tool: Tool)
      modifies this
      ensures tools == old(tools)[tool.name := tool]
      ensures names == if tool.name in old(tools) then old(names) else old(names) + [tool.name]
      ensures old(Valid()) ==> Valid()
    {
      if tool.name !in tools {
        names := names + [tool.name];
      }
      tools := tools[tool.name := tool];
    }

    /** `initializeTools`: the snapshot lookup, the email draft, the calendar event, in that order. */
    method Initialize()
      modifies this
      ensures tools.Keys == old(tools).Keys + {SnapshotContext.Name, CreateEmail.Name, CreateCalendarEvent.Name}
      ensures tools[SnapshotContext.Name] == SnapshotContext.Definition
      ensures tools[CreateEmail.Name] == CreateEmail.Definition
      ensures tools[CreateCalendarEvent.Name] == CreateCalendarEvent.Definition
      ensures forall n :: n in old(tools) && !IsInitial(n) ==> tools[n] == old(tools)[n]
      ensures old(Valid()) ==> Valid()
      ensures old(Valid()) && old(names) == [] ==> names == [SnapshotContext.Name, CreateEmail.Name, CreateCalendarEvent.Name]
    {
      InitialNamesDistinct();
      RegisterInOrder(SnapshotContext.Definition, CreateEmail.Definition, CreateCalendarEvent.Definition);
    }

    /** Three registrations of tools with different names, one after the other. */
    method RegisterInOrder(a: Tool, b: Tool, c: Tool)
      requires a.name != b.name && a.name != c.name && b.name != c.name
      modifies this
      ensures tools == old(tools)[a.name := a][b.name := b][c.name := c]
      ensures old(Valid()) ==> Valid()
      ensures old(Valid()) && old(names) == [] ==> names == [a.name, b.name, c.name]
    {
      Register(a);
      RegisterPair(b, c);
    }

    /** Two registrations of new tools with different names append both names. */
    method RegisterPair(b: Tool, c: Tool)
      requires b.name != c.name
      modifies this
      ensures tools == old(tools)[b.name := b][c.name := c]
      ensures old(Valid()) ==> Valid()
      ensures b.name !in old(tools) && c.name !in old(tools) ==> names == old(names) + [b.name, c.name]
    {
      Register(b);
      Register(c);
    }

    /** `getToolDefinitions`: one definition per registered tool, in registration order. */
    function Definitions(): (d: seq<Definition>)
      requires Valid()
      reads this
      ensures |d| == |names|
      ensures forall i :: 0 <= i < |names| ==> d[i] == DefinitionOf(tools[names[i]])
      ensures forall x :: x in d ==> x.name in tools && x == DefinitionOf(tools[x.name])
    {
      assert forall i :: 0 <= i < |names| ==> names[i] in tools;
      seq(|names|, i requires 0 <= i < |names| && names[i] in tools reads this => DefinitionOf(tools[names[i]]))
    }

    /** `getTaskCreationToolDefinitions`: the definitions of the task-creating tools, in order. */
    function TaskCreationDefinitions(): (d: seq<Definition>)
      requires Valid()
      reads this
      ensures forall x :: x in d <==> x in Definitions() && CreatesTasks(x.name)
      ensures SubsequenceOf(d, Definitions())
      ensures |d| <= |names|
    {
      var all := Definitions();
      var keep := (x: Definition) => CreatesTasks(x.name);
      assert forall x :: x in Filter(all, keep) <==> x in all && keep(x) by {
        forall x { FilterMembers(all, keep, x); }
      }
      FilterIsSubsequence(all, keep);
      Filter(all, keep)
    }

    /** `getTool`. */
    function GetTool(name: string): (r: Option<Tool>)
      reads this
      ensures r.Some? <==> name in tools
      ensures r.Some? ==> r.value == tools[name]
    {
      if name in tools then Some(tools[name]) else None
    }

    /** `executeTool`: the named tool's `execute` runs, or the call throws. */
    function Execute(name: string): (r: Dispatch)
      reads this
      ensures name in tools ==> r == Run(tools[name])
      ensures name !in tools ==> r == Threw(NotFound(name))
    {
      match GetTool(name)
      case Some(t) => Run(t)
      case None => Threw(NotFound(name))
    }
  }

  /** A registry holding three tools lists their three definitions, in order. */
  lemma DefinitionsOfThree(r: Registry, a: Tool, b: Tool, c: Tool)
    requires r.Valid() && r.names == [a.name, b.name, c.name]
    requires a.name in r.tools && b.name in r.tools && c.name in r.tools
    requires r.tools[a.name] == a && r.tools[b.name] == b && r.tools[c.name] == c
    ensures r.Definitions() == [DefinitionOf(a), DefinitionOf(b), DefinitionOf(c)]
  {
  }

  /** Of three definitions where only the last two create tasks, the task-creating ones are those two. */
  lemma CreatingAmongThree(all: seq<Definition>, a: Tool, b: Tool, c: Tool)
    requires all == [DefinitionOf(a), DefinitionOf(b), DefinitionOf(c)]
    requires !CreatesTasks(a.name) && CreatesTasks(b.name) && CreatesTasks(c.name)
    ensures forall x :: x in all && CreatesTasks(x.name) <==> x == DefinitionOf(b) || x == DefinitionOf(c)
  {
  }

  /**
   * After `initializeTools` on the empty registry: three definitions in
   * order, exactly two of them task-creating, and `send_email` is not
   * registered, so calling it throws.
   */
  method InitializedRegistry() returns (all: seq<Definition>, creating: seq<Definition>, sendEmail: Dispatch)
    ensures all == [DefinitionOf(SnapshotContext.Definition), DefinitionOf(CreateEmail.Definition),
                    DefinitionOf(CreateCalendarEvent.Definition)]
    ensures forall x :: x in creating <==> (x == DefinitionOf(CreateEmail.Definition)
                                          || x == DefinitionOf(CreateCalendarEvent.Definition))
    ensures sendEmail == Threw(NotFound(SendEmail.Name))
  {
    var r := new Registry();
    r.Initialize();
    InitialNamesDistinct();
    all := r.Definitions();
    creating := r.TaskCreationDefinitions();
    DefinitionsOfThree(r, SnapshotContext.Definition, CreateEmail.Definition, CreateCalendarEvent.Definition);
    CreatingAmongThree(all, SnapshotContext.Definition, CreateEmail.Definition, CreateCalendarEvent.Definition);
    sendEmail := r.Execute(SendEmail.Name);
  }
}
