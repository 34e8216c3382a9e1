/** Go names for generated definitions
    (codexsdk/internal/protocolgen/type_plan.go). */
module Naming {
  import opened Wrappers
  import opened StringOrder

  // ------------------------------------------------ schemas up to documentation

  /** A parsed schema or nil; `leaf` stands for the keywords without subschemas. */
  datatype Schema =
    | Nil
    | Node(description: string, title: string, leaf: string, items: Schema, additional: Schema,
           allOf: seq<Schema>, anyOf: seq<Schema>, oneOf: seq<Schema>,
           properties: map<string, Schema>, definitions: map<string, Schema>)

  /** cloneSchemaWithoutDocumentation. */
  function Strip(s: Schema): Schema
    decreases s, 1
  {
    match s
    case Nil => Nil
    case Node(_, _, leaf, items, additional, allOf, anyOf, oneOf, _, _) =>
      Node("", "", leaf, Strip(items), Strip(additional), StripAll(allOf), StripAll(anyOf), StripAll(oneOf),
           StripProperties(s), StripDefinitions(s))
  }

  function StripAll(list: seq<Schema>): (r: seq<Schema>)
    ensures |r| == |list| && forall i :: 0 <= i < |list| ==> r[i] == Strip(list[i])
    decreases list, 1
  {
    if list == [] then [] else [Strip(list[0])] + StripAll(list[1..])
  }

  function StripProperties(s: Schema): map<string, Schema>
    requires s.Node?
    decreases s, 0
  {
    map k | k in s.properties :: Strip(s.properties[k])
  }

  function StripDefinitions(s: Schema): map<string, Schema>
    requires s.Node?
    decreases s, 0
  {
    map k | k in s.definitions :: Strip(s.definitions[k])
  }

  /** The same schema when descriptions and titles are ignored at every depth. */
  ghost predicate Alike(s: Schema, t: Schema)
    decreases s, 1
  {
    match s
    case Nil => t.Nil?
    case Node(_, _, leaf, items, additional, allOf, anyOf, oneOf, _, _) =>
      && t.Node? && leaf == t.leaf && Alike(items, t.items) && Alike(additional, t.additional)
      && AllAlike(allOf, t.allOf) && AllAlike(anyOf, t.anyOf) && AllAlike(oneOf, t.oneOf)
      && PropertiesAlike(s, t) && DefinitionsAlike(s, t)
  }

  ghost predicate AllAlike(a: seq<Schema>, b: seq<Schema>)
    decreases a, 1
  {
    |a| == |b| && forall i :: 0 <= i < |a| ==> Alike(a[i], b[i])
  }

  ghost predicate PropertiesAlike(s: Schema, t: Schema)
    requires s.Node? && t.Node?
    decreases s, 0
  {
    s.properties.Keys == t.properties.Keys && forall k :: k in s.properties ==> Alike(s.properties[k], t.properties[k])
  }

  ghost predicate DefinitionsAlike(s: Schema, t: Schema)
    requires s.Node? && t.Node?
    decreases s, 0
  {
    s.definitions.Keys == t.definitions.Keys
    && forall k :: k in s.definitions ==> Alike(s.definitions[k], t.definitions[k])
  }

  /** Comparing stripped schemas decides likeness. */
  lemma {:induction false} StrippedIffAlike(s: Schema, t: Schema)
    ensures Strip(s) == Strip(t) <==> Alike(s, t)
    decreases s, 1
  {
    hide StripAll, StripProperties, StripDefinitions, AllAlike, PropertiesAlike, DefinitionsAlike;
    if s.Node? && t.Node? {
      StrippedIffAlike(s.items, t.items);
      StrippedIffAlike(s.additional, t.additional);
      ListsIffAlike(s.allOf, t.allOf);
      ListsIffAlike(s.anyOf, t.anyOf);
      ListsIffAlike(s.oneOf, t.oneOf);
      PropertiesIffAlike(s, t);
      DefinitionsIffAlike(s, t);
    }
  }

  lemma {:induction false} ListsIffAlike(a: seq<Schema>, b: seq<Schema>)
    ensures StripAll(a) == StripAll(b) <==> AllAlike(a, b)
    decreases a, 1
  {
    hide Strip, Alike, StripAll;
    if |a| == |b| {
      forall i | 0 <= i < |a| ensures Strip(a[i]) == Strip(b[i]) <==> Alike(a[i], b[i]) {
        StrippedIffAlike(a[i], b[i]);
      }
      if StripAll(a) == StripAll(b) {
        forall i | 0 <= i < |a| ensures Strip(a[i]) == Strip(b[i]) { assert StripAll(a)[i] == StripAll(b)[i]; }
      }
    }
  }

  lemma {:induction false} PropertiesIffAlike(s: Schema, t: Schema)
    requires s.Node? && t.Node?
    ensures StripProperties(s) == StripProperties(t) <==> PropertiesAlike(s, t)
    decreases s, 0
  {
    hide Strip, Alike;
    var a, b := StripProperties(s), StripProperties(t);
    assert a.Keys == s.properties.Keys && b.Keys == t.properties.Keys;
    forall k | k in a && k in b ensures a[k] == b[k] <==> Alike(s.properties[k], t.properties[k]) {
      StrippedIffAlike(s.properties[k], t.properties[k]);
    }
  }

  lemma {:induction false} DefinitionsIffAlike(s: Schema, t: Schema)
    requires s.Node? && t.Node?
    ensures StripDefinitions(s) == StripDefinitions(t) <==> DefinitionsAlike(s, t)
    decreases s, 0
  {
    hide Strip, Alike;
    var a, b := StripDefinitions(s), StripDefinitions(t);
    assert a.Keys == s.definitions.Keys && b.Keys == t.definitions.Keys;
    forall k | k in a && k in b ensures a[k] == b[k] <==> Alike(s.definitions[k], t.definitions[k]) {
      StrippedIffAlike(s.definitions[k], t.definitions[k]);
    }
  }

  // ----------------------------------------------------------------- fresh names

  function Digit(n: nat): char
    requires n < 10
  {
    '0' + n as char
  }

  function Decimal(n: nat): (s: string)
    ensures s != ""
  {
    if n < 10 then [Digit(n)] else Decimal(n / 10) + [Digit(n % 10)]
  }

  lemma {:induction false} DecimalInjective(m: nat, n: nat)
    requires Decimal(m) == Decimal(n)
    ensures m == n
    decreases m
  {
    var a, b := Decimal(m), Decimal(n);
    assert a[|a| - 1] == Digit(m % 10) && b[|b| - 1] == Digit(n % 10);
    assert m >= 10 ==> |a| >= 2;
    assert n >= 10 ==> |b| >= 2;
    if m >= 10 {
      assert a[..|a| - 1] == Decimal(m / 10) && b[..|b| - 1] == Decimal(n / 10);
      DecimalInjective(m / 10, n / 10);
    }
  }

  function Suffixed(preferred: string, index: nat): string { preferred + Decimal(index) }

  function Preferred(name: string): string { if name == "" then "GeneratedDefinition" else name }

  /** As many names as suffixes: one set of used names cannot hold them all. */
  lemma {:induction false} SuffixesDiffer(preferred: string, used: set<string>, index: nat)
    requires 2 <= index && forall j :: 2 <= j < index ==> Suffixed(preferred, j) in used
    ensures index - 2 <= |used|
    decreases index
  {
    if index > 2 {
      var last := Suffixed(preferred, index - 1);
      forall j | 2 <= j < index - 1 ensures Suffixed(preferred, j) in used - {last} {
        if Suffixed(preferred, j) == last {
          assert Decimal(j) == last[|preferred|..] && Decimal(index - 1) == last[|preferred|..];
          DecimalInjective(j, index - 1);
        }
      }
      SuffixesDiffer(preferred, used - {last}, index - 1);
    }
  }

  /** The first free suffix from index on. */
  function Free(preferred: string, used: set<string>, index: nat): (name: string)
    requires 2 <= index && forall j :: 2 <= j < index ==> Suffixed(preferred, j) in used
    ensures name !in used
    decreases |used| + 2 - index
  {
    if Suffixed(preferred, index) !in used then Suffixed(preferred, index)
    else
      SuffixesDiffer(preferred, used, index + 1);
      Free(preferred, used, index + 1)
  }

  /** The name claimed: the preferred one, or that with the least free suffix. */
  function Fresh(name: string, used: set<string>): (r: string)
    ensures r !in used
  {
    if Preferred(name) !in used then Preferred(name) else Free(Preferred(name), used, 2)
  }

  lemma {:induction false} FreeIsLeast(preferred: string, used: set<string>, index: nat, i: nat)
    requires 2 <= index && forall j :: 2 <= j < index ==> Suffixed(preferred, j) in used
    requires index <= i && Suffixed(preferred, i) !in used && forall j :: 2 <= j < i ==> Suffixed(preferred, j) in used
    ensures Free(preferred, used, index) == Suffixed(preferred, i)
    decreases i - index
  {
    if index < i { FreeIsLeast(preferred, used, index + 1, i); }
  }

  class UsedNames {
    var used: set<string>

    constructor (initial: set<string>)
      ensures used == initial
    {
      used := initial;
    }

    /** claimGeneratedDefinitionTypeName: the unbounded search ends. */
    method Claim(name: string) returns (claimed: string)
      modifies this
      ensures claimed == Fresh(name, old(used)) && used == old(used) + {claimed}
    {
      var preferred := Preferred(name);
      if preferred !in used {
        used := used + {preferred};
        return preferred;
      }
      var index := 2;
      while Suffixed(preferred, index) in used
        invariant 2 <= index && forall j :: 2 <= j < index ==> Suffixed(preferred, j) in used
        invariant used == old(used)
        decreases |used| + 2 - index
      {
        SuffixesDiffer(preferred, used, index + 1);
        index := index + 1;
      }
      FreeIsLeast(preferred, used, 2, index);
      claimed := Suffixed(preferred, index);
      used := used + {claimed};
    }
  }
}
