/** Tool registries: a map from names to tools, listed by name, and the merge of static and dynamic tools. */
module ToolRegistry {
  import opened Common
  import opened JsonValue
  import opened Ordering

  datatype ToolSpec = ToolSpec(name: string, description: string, inputSchema: Json)

  /** A tool is its spec and what it does, which is not modelled further. */
  datatype Tool = Tool(spec: ToolSpec, body: nat)

  datatype Policy = Error | DynamicWins | StaticWins

  datatype Result<+T> = Ok(value: T) | Conflict(names: seq<string>)

  type Tools = map<string, Tool>

  /** Every tool is registered under its own name. */
  ghost predicate Named(tools: Tools) {
    forall n | n in tools :: tools[n].spec.name == n
  }

  /** Adding tools one after another: the last one of a name stays. */
  function RegistryOf(tools: seq<Tool>): (r: Tools)
    ensures Named(r)
  {
    if tools == [] then map[]
    else RegistryOf(tools[..|tools| - 1])[tools[|tools| - 1].spec.name := tools[|tools| - 1]]
  }

  function NamesOf(tools: seq<Tool>): set<string> {
    set t | t in tools :: t.spec.name
  }

  /** The sorted listing of a set of names. */
  ghost function Sorted(names: set<string>): (sorted: seq<string>)
    ensures Ascending(sorted) && Elements(sorted) == names
  {
    if names == {} then []
    else
      var x :| x in names;
      var rest := Sorted(names - {x});
      InsertAscending(x, rest);
      InsertElements(x, rest);
      Insert(x, rest)
  }

  ghost function ListedSpecs(tools: Tools): seq<ToolSpec> {
    var names := Sorted(tools.Keys);
    assert forall i | 0 <= i < |names| :: names[i] in Elements(names);
    seq(|names|, i requires 0 <= i < |names| => tools[names[i]].spec)
  }

  // ---- The registry object -------------------------------------------------------------------

  method SortNames(names: set<string>) returns (sorted: seq<string>)
    ensures sorted == Sorted(names)
  {
    sorted := [];
    var rest := names;
    while rest != {}
      invariant rest <= names && Ascending(sorted) && Elements(sorted) == names - rest
      decreases rest
    {
      var x :| x in rest;
      InsertAscending(x, sorted);
      InsertElements(x, sorted);
      sorted := Insert(x, sorted);
      rest := rest - {x};
    }
    AscendingUnique(sorted, Sorted(names));
  }

  class AgentToolRegistry {
    var tools: Tools

    constructor ()
      ensures tools == map[]
    {
      tools := map[];
    }

    /** Overwrites on a duplicate name. */
    method Add(tool: Tool)
      modifies this
      ensures tools == old(tools)[tool.spec.name := tool]
    {
      tools := tools[tool.spec.name := tool];
    }

    method Extend(more: seq<Tool>)
      modifies this
      ensures tools == old(tools) + RegistryOf(more)
    {
      for i := 0 to |more|
        invariant tools == old(tools) + RegistryOf(more[..i])
      {
        assert more[..i + 1][..i] == more[..i];
        Add(more[i]);
      }
      assert more[..|more|] == more;
    }

    method ListSpecs() returns (specs: seq<ToolSpec>)
      ensures specs == ListedSpecs(tools)
    {
      var names := SortNames(tools.Keys);
      assert forall i | 0 <= i < |names| :: names[i] in Elements(names);
      specs := [];
      for i := 0 to |names|
        invariant |specs| == i && forall j | 0 <= j < i :: specs[j] == tools[names[j]].spec
      {
        specs := specs + [tools[names[i]].spec];
      }
    }

    method TryGet(name: string) returns (tool: Option<Tool>)
      ensures tool == if name in tools then Some(tools[name]) else None
    {
      if name in tools { return Some(tools[name]); }
      return None;
    }
  }

  // ---- Merging -------------------------------------------------------------------------------

  /** The part of a registry with the given names. */
  function Only(tools: Tools, names: set<string>): Tools {
    map n | n in tools && n in names :: tools[n]
  }

  lemma RegistryNames(tools: seq<Tool>, n: string)
    ensures n in RegistryOf(tools) <==> n in NamesOf(tools)
  {
    if tools != [] {
      var init, last := tools[..|tools| - 1], tools[|tools| - 1];
      assert tools == init + [last];
      RegistryNames(init, n);
      assert NamesOf(tools) == NamesOf(init) + {last.spec.name};
    }
  }

  /** The tools of a registry in the order it iterates over them. */
  ghost function Iterated(tools: Tools): seq<Tool> {
    var names := Sorted(tools.Keys);
    assert forall i | 0 <= i < |names| :: names[i] in Elements(names);
    seq(|names|, i requires 0 <= i < |names| => tools[names[i]])
  }

  method Iterate(tools: Tools) returns (list: seq<Tool>)
    ensures list == Iterated(tools)
  {
    var names := SortNames(tools.Keys);
    assert forall i | 0 <= i < |names| :: names[i] in Elements(names);
    list := [];
    for i := 0 to |names|
      invariant |list| == i && forall j | 0 <= j < i :: list[j] == tools[names[j]]
    {
      list := list + [tools[names[i]]];
    }
  }

  /** Adding the tools of a registry one after another gives the registry. */
  lemma IteratedIsRegistry(tools: Tools)
    requires Named(tools)
    ensures RegistryOf(Iterated(tools)) == tools
  {
    var names, list := Sorted(tools.Keys), Iterated(tools);
    forall n
      ensures n in RegistryOf(list) ==> n in tools
      ensures n in tools ==> n in RegistryOf(list) && RegistryOf(list)[n] == tools[n]
    {
      RegistryNames(list, n);
      if n in tools {
        assert n in Elements(names);
        var i :| 0 <= i < |names| && names[i] == n;
        forall j | i < j < |list| ensures list[j].spec.name != list[i].spec.name { LexTotal(names[i], names[j]); }
        RegistryHasLast(list, i);
      }
    }
  }

  function AddAll(base: Tools, source: seq<Tool>, except: set<string>): Tools {
    if source == [] then base
    else
      var before, last := AddAll(base, source[..|source| - 1], except), source[|source| - 1];
      if last.spec.name in except then before else before[last.spec.name := last]
  }

  lemma {:induction false} AddAllOverrides(base: Tools, source: seq<Tool>, except: set<string>)
    ensures AddAll(base, source, except) == base + Only(RegistryOf(source), RegistryOf(source).Keys - except)
  {
    if source != [] {
      AddAllOverrides(base, source[..|source| - 1], except);
    }
  }

  /** A loop of `build_tools`: tools in their order, except those named in `except`. */
  method AddListed(merged: AgentToolRegistry, source: seq<Tool>, except: set<string>)
    modifies merged
    ensures merged.tools == AddAll(old(merged.tools), source, except)
  {
    for i := 0 to |source|
      invariant merged.tools == AddAll(old(merged.tools), source[..i], except)
    {
      assert source[..i + 1][..i] == source[..i];
      if source[i].spec.name !in except { merged.Add(source[i]); }
    }
    assert source[..|source|] == source;
  }

  /** `build_tools`. With no dynamic tools to resolve the static registry is used as it is. Otherwise names
      claimed by both sides are an error under that policy and only then; the merge is the losing side
      overridden by the winning one, the last dynamic tool of a name counting. */
  method BuildTools(statics: Tools, dynamics: Option<seq<Tool>>, policy: Policy) returns (r: Result<Tools>)
    requires Named(statics)
    ensures dynamics.None? ==> r == Ok(statics)
    ensures dynamics.Some? ==>
      var both := statics.Keys * NamesOf(dynamics.value);
      && (r.Conflict? <==> both != {} && policy == Error)
      && (r.Conflict? ==> r.names == Sorted(both))
      && (r.Ok? ==> r.value == if policy == StaticWins then RegistryOf(dynamics.value) + statics
                               else statics + RegistryOf(dynamics.value))
  {
    if dynamics.None? { return Ok(statics); }
    var dynamicNames := NamesOf(dynamics.value);
    var collisions := statics.Keys * dynamicNames;
    if collisions != {} && policy == Error {
      var names := SortNames(collisions);
      return Conflict(names);
    }
    var list := Iterate(statics);
    var merged := new AgentToolRegistry();
    if policy == StaticWins {
      AddListed(merged, dynamics.value, statics.Keys);
      AddListed(merged, list, {});
    } else {
      AddListed(merged, list, dynamicNames);
      AddListed(merged, dynamics.value, {});
    }
    IteratedIsRegistry(statics);
    MergeOverrides(statics, list, dynamics.value);
    return Ok(merged.tools);
  }

  /** Leaving out what the second side has, then adding the second side, is overriding by it. */
  lemma Overriding(a: seq<Tool>, b: seq<Tool>)
    ensures AddAll(AddAll(map[], a, NamesOf(b)), b, {}) == RegistryOf(a) + RegistryOf(b)
  {
    var ra, rb := RegistryOf(a), RegistryOf(b);
    assert rb.Keys == NamesOf(b) by {
      forall n ensures n in rb <==> n in NamesOf(b) { RegistryNames(b, n); }
    }
    AddAllOverrides(map[], a, NamesOf(b));
    AddAllOverrides(AddAll(map[], a, NamesOf(b)), b, {});
    OverridingMaps(ra, rb);
  }

  lemma OverridingMaps(a: Tools, b: Tools)
    ensures map[] + Only(a, a.Keys - b.Keys) + Only(b, b.Keys - {}) == a + b
  {
  }

  lemma MergeOverrides(statics: Tools, list: seq<Tool>, dynamics: seq<Tool>)
    requires RegistryOf(list) == statics
    ensures AddAll(AddAll(map[], dynamics, statics.Keys), list, {}) == RegistryOf(dynamics) + statics
    ensures AddAll(AddAll(map[], list, NamesOf(dynamics)), dynamics, {}) == statics + RegistryOf(dynamics)
  {
    assert statics.Keys == NamesOf(list) by {
      forall n ensures n in statics <==> n in NamesOf(list) { RegistryNames(list, n); }
    }
    Overriding(dynamics, list);
    Overriding(list, dynamics);
  }

  // ---- Canonical listings --------------------------------------------------------------------

  ghost predicate DistinctNames(tools: seq<Tool>) {
    forall i, j | 0 <= i < j < |tools| :: tools[i].spec.name != tools[j].spec.name
  }

  /** A name's tool is the last one of that name. */
  lemma {:induction false} RegistryHasLast(tools: seq<Tool>, i: nat)
    requires i < |tools| && forall j | i < j < |tools| :: tools[j].spec.name != tools[i].spec.name
    ensures tools[i].spec.name in RegistryOf(tools) && RegistryOf(tools)[tools[i].spec.name] == tools[i]
  {
    if i < |tools| - 1 { RegistryHasLast(tools[..|tools| - 1], i); }
  }

  lemma RegistryOfDistinct(tools: seq<Tool>, t: Tool)
    requires DistinctNames(tools)
    ensures t in tools <==> t.spec.name in RegistryOf(tools) && RegistryOf(tools)[t.spec.name] == t
  {
    if t in tools {
      var i :| 0 <= i < |tools| && tools[i] == t;
      RegistryHasLast(tools, i);
    }
    if t.spec.name in RegistryOf(tools) && RegistryOf(tools)[t.spec.name] == t {
      RegistryNames(tools, t.spec.name);
      var u :| u in tools && u.spec.name == t.spec.name;
      var i :| 0 <= i < |tools| && tools[i] == u;
      RegistryHasLast(tools, i);
    }
  }

  /** Registering the same tools, of distinct names, in any order gives the same registry, and so the same
      listing. */
  lemma OrderDoesNotMatter(a: seq<Tool>, b: seq<Tool>)
    requires DistinctNames(a) && DistinctNames(b) && Elements(a) == Elements(b)
    ensures RegistryOf(a) == RegistryOf(b) && ListedSpecs(RegistryOf(a)) == ListedSpecs(RegistryOf(b))
  {
    var ra, rb := RegistryOf(a), RegistryOf(b);
    forall n
      ensures n in ra ==> n in rb && rb[n] == ra[n]
      ensures n in rb ==> n in ra
    {
      if n in ra {
        RegistryOfDistinct(a, ra[n]);
        assert ra[n] in Elements(b);
        RegistryOfDistinct(b, ra[n]);
      }
      if n in rb {
        RegistryOfDistinct(b, rb[n]);
        assert rb[n] in Elements(a);
        RegistryOfDistinct(a, rb[n]);
      }
    }
  }
}
