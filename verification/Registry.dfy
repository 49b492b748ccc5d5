/**
  The tool registry: every registration makes a new version, and nothing else does.
  Its ghost history holds, for every version so far, the hidden tools of that version.
*/
module Registry {

  /** What search sees of the hidden tools: name and description. */
  type Docs = map<string, string>

  datatype Tool = Tool(name: string, description: string)

  datatype ToolEntry = ToolEntry(tool: Tool, isCore: bool, ttl: int)

  type Tools = map<string, ToolEntry>

  function Hidden(tools: Tools): Docs {
    map n | n in tools && !tools[n].isCore :: tools[n].tool.description
  }

  /** The same tools in the same roles, whatever their time to live. */
  ghost predicate SameTools(a: Tools, b: Tools) {
    a.Keys == b.Keys && forall n | n in a :: a[n].tool == b[n].tool && a[n].isCore == b[n].isCore
  }

  lemma {:induction false} SameToolsSameDocs(a: Tools, b: Tools)
    requires SameTools(a, b)
    ensures Hidden(a) == Hidden(b)
  {}

  class ToolRegistry {
    var tools: Tools
    var version: nat
    ghost var history: seq<Docs>

    ghost predicate Valid()
      reads this
    {
      |history| == version + 1 && history[version] == Hidden(tools)
    }

    constructor ()
      ensures Valid() && version == 0 && tools == map[]
    {
      tools, version, history := map[], 0, [map[]];
    }

    method Register(tool: Tool)
      requires Valid()
      modifies this
      ensures Valid() && tools == old(tools)[tool.name := ToolEntry(tool, true, 0)]
      ensures version == old(version) + 1 && history == old(history) + [Hidden(tools)]
      ensures Hidden(tools) == old(Hidden(tools)) - {tool.name}
    {
      tools := tools[tool.name := ToolEntry(tool, true, 0)];
      version := version + 1;
      history := history + [Hidden(tools)];
    }

    method RegisterHidden(tool: Tool)
      requires Valid()
      modifies this
      ensures Valid() && tools == old(tools)[tool.name := ToolEntry(tool, false, 0)]
      ensures version == old(version) + 1 && history == old(history) + [Hidden(tools)]
      ensures Hidden(tools) == old(Hidden(tools))[tool.name := tool.description]
    {
      tools := tools[tool.name := ToolEntry(tool, false, 0)];
      version := version + 1;
      history := history + [Hidden(tools)];
    }

    /** Promotion changes times to live only, so no cached engine needs to know. */
    method PromoteTools(names: seq<string>, ttl: int)
      requires Valid()
      modifies this`tools
      ensures Valid() && SameTools(tools, old(tools))
      ensures forall n | n in tools ::
                tools[n].ttl == if n in names && !tools[n].isCore then ttl else old(tools)[n].ttl
    {
      for i := 0 to |names|
        invariant SameTools(tools, old(tools))
        invariant forall n | n in tools ::
                    tools[n].ttl == if n in names[..i] && !tools[n].isCore then ttl else old(tools)[n].ttl
      {
        assert names[..i + 1] == names[..i] + [names[i]];
        if names[i] in tools {
          var entry := tools[names[i]];
          if !entry.isCore {
            tools := tools[names[i] := entry.(ttl := ttl)];
          }
        }
      }
      assert names[..|names|] == names;
      SameToolsSameDocs(tools, old(tools));
    }

    method TickTTL()
      requires Valid()
      modifies this`tools
      ensures Valid() && SameTools(tools, old(tools))
      ensures forall n | n in tools ::
                tools[n].ttl == old(tools)[n].ttl - if !tools[n].isCore && old(tools)[n].ttl > 0 then 1 else 0
    {
      ghost var was := tools;
      var rest := tools.Keys;
      while rest != {}
        invariant SameTools(tools, was) && rest <= was.Keys
        invariant forall n | n in rest :: tools[n].ttl == was[n].ttl
        invariant forall n | n in tools && n !in rest ::
                    tools[n].ttl == was[n].ttl - if !tools[n].isCore && was[n].ttl > 0 then 1 else 0
        decreases rest
      {
        var n :| n in rest;
        var entry := tools[n];
        if !entry.isCore && entry.ttl > 0 {
          tools := tools[n := entry.(ttl := entry.ttl - 1)];
        }
        rest := rest - {n};
      }
      SameToolsSameDocs(tools, was);
    }

    /** Tools and version under one lock: the docs are those of the version. */
    method SnapshotHiddenTools() returns (docs: Docs, at: nat)
      requires Valid()
      ensures at == version && docs == history[at] == Hidden(tools)
    {
      docs := Hidden(tools);
      at := version;
    }
  }
}
