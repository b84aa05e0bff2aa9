/** The text an agent's fingerprint is the hash of. */
module Fingerprint {
  import opened JsonValue
  import opened Ordering
  import opened ToolRegistry

  const NUL := '\0'

  predicate NulFree(s: string) { NUL !in s }

  ghost predicate AllNulFree(parts: seq<string>) {
    forall i | 0 <= i < |parts| :: NulFree(parts[i])
  }

  /** `"\x00".join`. */
  function Join(parts: seq<string>): string {
    if parts == [] then ""
    else if |parts| == 1 then parts[0]
    else parts[0] + [NUL] + Join(parts[1..])
  }

  // ---- When a joined text determines its parts -----------------------------------------------

  /** Up to the first NUL. */
  function Cut(s: string): nat {
    if s == "" || s[0] == NUL then 0 else 1 + Cut(s[1..])
  }

  lemma {:induction false} CutAt(a: string, x: string)
    requires NulFree(a)
    ensures Cut(a + [NUL] + x) == |a|
  {
    if a != "" {
      assert (a + [NUL] + x)[1..] == a[1..] + [NUL] + x;
      CutAt(a[1..], x);
    }
  }

  /** A text is cut at its first NUL in only one way. */
  lemma FirstNul(a: string, x: string, b: string, y: string)
    requires NulFree(a) && NulFree(b) && a + [NUL] + x == b + [NUL] + y
    ensures a == b && x == y
  {
    CutAt(a, x);
    CutAt(b, y);
    var s, t := a + [NUL] + x, b + [NUL] + y;
    assert a == s[..|a|] && b == t[..|a|];
    assert x == s[|a| + 1..] && y == t[|a| + 1..];
  }

  lemma {:induction false} CountNuls(parts: seq<string>)
    requires parts != []
    ensures Nuls(Join(parts)) >= |parts| - 1
    ensures Nuls(Join(parts)) == |parts| - 1 <==> AllNulFree(parts)
  {
    NulsNone(parts[0]);
    if |parts| > 1 {
      CountNuls(parts[1..]);
      NulsAppend(parts[0], [NUL] + Join(parts[1..]));
      assert parts[0] + [NUL] + Join(parts[1..]) == parts[0] + ([NUL] + Join(parts[1..]));
      assert ([NUL] + Join(parts[1..]))[1..] == Join(parts[1..]);
      assert AllNulFree(parts) <==> NulFree(parts[0]) && AllNulFree(parts[1..]) by {
        assert forall i | 1 <= i < |parts| :: parts[i] == parts[1..][i - 1];
      }
    }
  }

  function Nuls(s: string): nat {
    if s == "" then 0 else (if s[0] == NUL then 1 else 0) + Nuls(s[1..])
  }

  lemma {:induction false} NulsAppend(a: string, b: string)
    ensures Nuls(a + b) == Nuls(a) + Nuls(b)
  {
    if a == "" {
      assert a + b == b;
    } else {
      assert (a + b)[1..] == a[1..] + b;
      NulsAppend(a[1..], b);
    }
  }

  lemma {:induction false} NulsNone(s: string)
    ensures Nuls(s) == 0 <==> NulFree(s)
  {
    if s != "" {
      NulsNone(s[1..]);
      assert s == [s[0]] + s[1..];
    }
  }

  /** Lists of NUL-free parts are told apart by their joined text, whatever their lengths. */
  lemma {:induction false} JoinInjective(a: seq<string>, b: seq<string>)
    requires a != [] && b != [] && AllNulFree(a) && AllNulFree(b) && Join(a) == Join(b)
    ensures a == b
  {
    CountNuls(a);
    CountNuls(b);
    if |a| > 1 {
      FirstNul(a[0], Join(a[1..]), b[0], Join(b[1..]));
      JoinInjective(a[1..], b[1..]);
      assert a == [a[0]] + a[1..] && b == [b[0]] + b[1..];
    }
  }

  ghost predicate OnlyPreimage(parts: seq<string>) {
    forall other: seq<string> | |other| == |parts| && Join(other) == Join(parts) :: other == parts
  }

  /** Moving a boundary across a NUL leaves the joined text as it was. */
  lemma ShiftBoundary(before: seq<string>, x: string, y: string, z: string, after: seq<string>)
    ensures Join(before + [x + [NUL] + y, z] + after) == Join(before + [x, y + [NUL] + z] + after)
  {
    if before == [] {
      ShiftFirst(x, y, z, after);
      assert before + [x + [NUL] + y, z] + after == [x + [NUL] + y, z] + after;
      assert before + [x, y + [NUL] + z] + after == [x, y + [NUL] + z] + after;
    } else {
      var b, rest := before[0], before[1..];
      ShiftBoundary(rest, x, y, z, after);
      var p, q := before + [x + [NUL] + y, z] + after, before + [x, y + [NUL] + z] + after;
      assert p[1..] == rest + [x + [NUL] + y, z] + after;
      assert q[1..] == rest + [x, y + [NUL] + z] + after;
    }
  }

  lemma ShiftFirst(x: string, y: string, z: string, after: seq<string>)
    ensures Join([x + [NUL] + y, z] + after) == Join([x, y + [NUL] + z] + after)
  {
    var p, q := [x + [NUL] + y, z] + after, [x, y + [NUL] + z] + after;
    assert p[1..] == [z] + after && q[1..] == [y + [NUL] + z] + after;
    if after == [] {
      assert p[1..] == [z] && q[1..] == [y + [NUL] + z];
      assert (x + [NUL] + y) + [NUL] + z == x + [NUL] + (y + [NUL] + z);
    } else {
      assert p[1..][1..] == after && q[1..][1..] == after;
      var tail := Join(after);
      assert (x + [NUL] + y) + [NUL] + (z + [NUL] + tail) == x + [NUL] + ((y + [NUL] + z) + [NUL] + tail);
    }
  }

  /** Two or more parts are recoverable from their joined text exactly when none of them holds a NUL. */
  lemma JoinDeterminesIff(parts: seq<string>)
    requires |parts| >= 2
    ensures OnlyPreimage(parts) <==> AllNulFree(parts)
  {
    if AllNulFree(parts) {
      forall other: seq<string> | |other| == |parts| && Join(other) == Join(parts) ensures other == parts {
        CountNuls(parts);
        CountNuls(other);
        JoinInjective(other, parts);
      }
    } else {
      var i :| 0 <= i < |parts| && !NulFree(parts[i]);
      var other := AnotherPreimage(parts, i);
      assert !OnlyPreimage(parts);
    }
  }

  lemma AnotherPreimage(parts: seq<string>, i: nat) returns (other: seq<string>)
    requires |parts| >= 2 && i < |parts| && !NulFree(parts[i])
    ensures |other| == |parts| && Join(other) == Join(parts) && other != parts
  {
    var k :| 0 <= k < |parts[i]| && parts[i][k] == NUL;
    var x, y := parts[i][..k], parts[i][k + 1..];
    assert parts[i] == x + [NUL] + y;
    if i + 1 < |parts| {
      var z := parts[i + 1];
      ShiftBoundary(parts[..i], x, y, z, parts[i + 2..]);
      other := parts[..i] + [x, y + [NUL] + z] + parts[i + 2..];
      assert parts == parts[..i] + [x + [NUL] + y, z] + parts[i + 2..];
      assert other[i] == x && |x| < |parts[i]|;
    } else {
      var z := parts[i - 1];
      ShiftBoundary(parts[..i - 1], z, x, y, parts[i + 1..]);
      other := parts[..i - 1] + [z + [NUL] + x, y] + parts[i + 1..];
      assert parts == parts[..i - 1] + [z, x + [NUL] + y] + parts[i + 1..];
      assert other[i] == y && |y| < |parts[i]|;
    }
  }

  // ---- The fingerprint text ------------------------------------------------------------------

  datatype Agent = Agent(model: string, systemPrompt: string)

  datatype Gateway = Gateway(builtin: bool, on: bool, url: string, name: string)

  function Show(b: bool): string { if b then "True" else "False" }

  function SpecParts(specs: seq<ToolSpec>, dump: Json -> string): seq<string> {
    if specs == [] then []
    else [specs[0].name, specs[0].description, dump(specs[0].inputSchema)] + SpecParts(specs[1..], dump)
  }

  function FixedParts(agent: Agent, gateway: Gateway): seq<string> {
    [agent.model, agent.systemPrompt, "builtin=" + Show(gateway.builtin), "gateway_mcp=" + Show(gateway.on),
     "gateway_url=" + gateway.url, "gateway_name=" + gateway.name]
  }

  ghost function Parts(agent: Agent, gateway: Gateway, tools: Tools, dump: Json -> string): seq<string> {
    FixedParts(agent, gateway) + SpecParts(ListedSpecs(tools), dump)
  }

  ghost function FingerprintText(agent: Agent, gateway: Gateway, tools: Tools, dump: Json -> string): string {
    Join(Parts(agent, gateway, tools, dump))
  }

  /** The list the hash is taken of, built as the backend builds it. */
  method BuildParts(agent: Agent, gateway: Gateway, registry: AgentToolRegistry, dump: Json -> string)
    returns (parts: seq<string>)
    ensures parts == Parts(agent, gateway, registry.tools, dump)
  {
    parts := FixedParts(agent, gateway);
    var specs := registry.ListSpecs();
    for i := 0 to |specs|
      invariant parts + SpecParts(specs[i..], dump) == Parts(agent, gateway, registry.tools, dump)
    {
      assert specs[i..][1..] == specs[i + 1..];
      var added := [specs[i].name, specs[i].description, dump(specs[i].inputSchema)];
      assert parts + (added + SpecParts(specs[i + 1..], dump)) == (parts + added) + SpecParts(specs[i + 1..], dump);
      parts := parts + added;
    }
    assert parts + [] == parts;
  }

  /** The text, spelled out. */
  ghost function SpecText(specs: seq<ToolSpec>, dump: Json -> string): string {
    if specs == [] then ""
    else
      "\0" + specs[0].name + "\0" + specs[0].description + "\0" + dump(specs[0].inputSchema) + SpecText(specs[1..], dump)
  }

  lemma {:induction false} JoinSpecs(first: string, specs: seq<ToolSpec>, dump: Json -> string)
    ensures Join([first] + SpecParts(specs, dump)) == first + SpecText(specs, dump)
    decreases |specs|
  {
    if specs == [] {
      assert [first] + SpecParts(specs, dump) == [first] && first + "" == first;
    } else {
      var n, d, s := specs[0].name, specs[0].description, dump(specs[0].inputSchema);
      JoinSpecs(s, specs[1..], dump);
      JoinFour(first, n, d, s, SpecParts(specs[1..], dump));
      assert [first] + SpecParts(specs, dump) == [first, n, d, s] + SpecParts(specs[1..], dump);
      SpellFour(first, n, d, s, SpecText(specs[1..], dump));
    }
  }

  lemma SpellFour(a: string, b: string, c: string, d: string, rest: string)
    ensures a + "\0" + (b + "\0" + (c + "\0" + (d + rest))) == a + ("\0" + b + "\0" + c + "\0" + d + rest)
  {
  }

  lemma JoinTwo(a: string, rest: seq<string>)
    requires rest != []
    ensures Join([a] + rest) == a + "\0" + Join(rest)
  {
    assert ([a] + rest)[1..] == rest;
  }

  lemma JoinFour(a: string, b: string, c: string, d: string, rest: seq<string>)
    ensures Join([a, b, c, d] + rest) == a + "\0" + (b + "\0" + (c + "\0" + Join([d] + rest)))
  {
    JoinTwo(c, [d] + rest);
    JoinTwo(b, [c] + ([d] + rest));
    JoinTwo(a, [b] + ([c] + ([d] + rest)));
    assert [a, b, c, d] + rest == [a] + ([b] + ([c] + ([d] + rest)));
  }

  lemma JoinSix(a: string, b: string, c: string, d: string, e: string, f: string, specs: seq<ToolSpec>, dump: Json -> string)
    ensures Join([a, b, c, d, e, f] + SpecParts(specs, dump))
         == a + "\0" + (b + "\0" + (c + "\0" + (d + "\0" + (e + "\0" + (f + SpecText(specs, dump))))))
  {
    var rest := SpecParts(specs, dump);
    JoinSpecs(f, specs, dump);
    JoinTwo(e, [f] + rest);
    JoinTwo(d, [e] + ([f] + rest));
    JoinFour(a, b, c, d, [e] + ([f] + rest));
    assert [a, b, c, d, e, f] + rest == [a, b, c, d] + ([e] + ([f] + rest));
  }

  /** The hash is taken of the model, the prompt, the four settings and, for every tool in ascending order of names, its
      name, description and schema, with a NUL between any two. */
  lemma TextSpells(agent: Agent, gateway: Gateway, tools: Tools, dump: Json -> string)
    ensures FingerprintText(agent, gateway, tools, dump)
         == agent.model + "\0" + (agent.systemPrompt + "\0"
            + ((if gateway.builtin then "builtin=True" else "builtin=False") + "\0"
            + ((if gateway.on then "gateway_mcp=True" else "gateway_mcp=False") + "\0"
            + ("gateway_url=" + gateway.url + "\0"
            + ("gateway_name=" + gateway.name + SpecText(ListedSpecs(tools), dump))))))
  {
    var builtin := if gateway.builtin then "builtin=True" else "builtin=False";
    var on := if gateway.on then "gateway_mcp=True" else "gateway_mcp=False";
    assert builtin == "builtin=" + Show(gateway.builtin) && on == "gateway_mcp=" + Show(gateway.on);
    JoinSix(agent.model, agent.systemPrompt, builtin, on, "gateway_url=" + gateway.url, "gateway_name=" + gateway.name,
            ListedSpecs(tools), dump);
  }

  /** Different schemas among those given have different texts. */
  ghost predicate Faithful(dump: Json -> string, schemas: set<Json>) {
    forall a, b | a in schemas && b in schemas && dump(a) == dump(b) :: a == b
  }

  function SchemasOf(tools: Tools): set<Json> {
    set n | n in tools :: tools[n].spec.inputSchema
  }

  lemma {:induction false} SpecPartsInjective(a: seq<ToolSpec>, b: seq<ToolSpec>, dump: Json -> string, schemas: set<Json>)
    requires Faithful(dump, schemas) && SpecParts(a, dump) == SpecParts(b, dump)
    requires forall i | 0 <= i < |a| :: a[i].inputSchema in schemas
    requires forall i | 0 <= i < |b| :: b[i].inputSchema in schemas
    ensures a == b
  {
    if a != [] && b != [] {
      var p, q := SpecParts(a, dump), SpecParts(b, dump);
      assert p[0] == q[0] && p[1] == q[1] && p[2] == q[2];
      assert SpecParts(a[1..], dump) == p[3..] == q[3..] == SpecParts(b[1..], dump);
      SpecPartsInjective(a[1..], b[1..], dump, schemas);
      assert a == [a[0]] + a[1..] && b == [b[0]] + b[1..];
    }
  }

  lemma ListedSchemas(tools: Tools)
    ensures forall i | 0 <= i < |ListedSpecs(tools)| :: ListedSpecs(tools)[i].inputSchema in SchemasOf(tools)
  {
    var names := Sorted(tools.Keys);
    forall i | 0 <= i < |names| ensures names[i] in tools && ListedSpecs(tools)[i] == tools[names[i]].spec {
      assert names[i] in Elements(names);
    }
  }

  lemma PrefixInjective(p: string, a: string, b: string)
    requires p + a == p + b
    ensures a == b
  {
    assert a == (p + a)[|p|..] && b == (p + b)[|p|..];
  }

  lemma FixedInjective(a: Agent, g: Gateway, b: Agent, h: Gateway)
    requires FixedParts(a, g) == FixedParts(b, h)
    ensures a == b && g == h
  {
    var p, q := FixedParts(a, g), FixedParts(b, h);
    assert p[0] == q[0] && p[1] == q[1] && p[2] == q[2] && p[3] == q[3] && p[4] == q[4] && p[5] == q[5];
    PrefixInjective("builtin=", Show(g.builtin), Show(h.builtin));
    PrefixInjective("gateway_mcp=", Show(g.on), Show(h.on));
    PrefixInjective("gateway_url=", g.url, h.url);
    PrefixInjective("gateway_name=", g.name, h.name);
    assert |Show(true)| != |Show(false)|;
  }

  /** With NUL-free fields, and texts that tell the schemas at hand apart, the text the hash is taken of
      determines the model, the prompt, every flag, and the spec registered under every name. */
  lemma TextDetermines(a: Agent, g: Gateway, s: Tools, b: Agent, h: Gateway, t: Tools, dump: Json -> string)
    requires Faithful(dump, SchemasOf(s) + SchemasOf(t)) && Named(s) && Named(t)
    requires AllNulFree(Parts(a, g, s, dump)) && AllNulFree(Parts(b, h, t, dump))
    requires FingerprintText(a, g, s, dump) == FingerprintText(b, h, t, dump)
    ensures a == b && g == h && s.Keys == t.Keys && forall n | n in s :: s[n].spec == t[n].spec
  {
    var p, q := Parts(a, g, s, dump), Parts(b, h, t, dump);
    JoinInjective(p, q);
    assert FixedParts(a, g) == p[..6] && FixedParts(b, h) == q[..6];
    assert SpecParts(ListedSpecs(s), dump) == p[6..] && SpecParts(ListedSpecs(t), dump) == q[6..];
    FixedInjective(a, g, b, h);
    ListedSchemas(s);
    ListedSchemas(t);
    SpecPartsInjective(ListedSpecs(s), ListedSpecs(t), dump, SchemasOf(s) + SchemasOf(t));
    SameSpecs(s, t);
  }

  lemma SameSpecs(s: Tools, t: Tools)
    requires Named(s) && Named(t) && ListedSpecs(s) == ListedSpecs(t)
    ensures s.Keys == t.Keys && forall n | n in s :: s[n].spec == t[n].spec
  {
    var a, b := Sorted(s.Keys), Sorted(t.Keys);
    assert |a| == |ListedSpecs(s)| == |b|;
    forall i | 0 <= i < |a| ensures a[i] in s && b[i] in t && a[i] == b[i] && s[a[i]].spec == t[b[i]].spec {
      assert a[i] in Elements(a) && b[i] in Elements(b);
      assert ListedSpecs(s)[i] == s[a[i]].spec && ListedSpecs(t)[i] == t[b[i]].spec;
    }
    assert a == b;
    forall n | n in s ensures s[n].spec == t[n].spec {
      assert n in Elements(a);
      var i :| 0 <= i < |a| && a[i] == n;
    }
  }

  /** A NUL in the model blurs it with the prompt: two agents, one text. */
  lemma NulCollides(x: string, y: string, prompt: string, gateway: Gateway, tools: Tools, dump: Json -> string)
    ensures var a, b := Agent(x + [NUL] + y, prompt), Agent(x, y + [NUL] + prompt);
      a != b && FingerprintText(a, gateway, tools, dump) == FingerprintText(b, gateway, tools, dump)
  {
    var a, b := Agent(x + [NUL] + y, prompt), Agent(x, y + [NUL] + prompt);
    var after := FixedParts(a, gateway)[2..] + SpecParts(ListedSpecs(tools), dump);
    ShiftFirst(x, y, prompt, after);
    assert Parts(a, gateway, tools, dump) == [x + [NUL] + y, prompt] + after;
    assert Parts(b, gateway, tools, dump) == [x, y + [NUL] + prompt] + after;
    assert |a.model| > |b.model|;
  }

  /** Equivalent registries have one text: it does not depend on the order in which tools were added. */
  lemma TextIsCanonical(agent: Agent, gateway: Gateway, a: seq<Tool>, b: seq<Tool>, dump: Json -> string)
    requires DistinctNames(a) && DistinctNames(b) && Elements(a) == Elements(b)
    ensures FingerprintText(agent, gateway, RegistryOf(a), dump) == FingerprintText(agent, gateway, RegistryOf(b), dump)
  {
    OrderDoesNotMatter(a, b);
  }
}
