/** Marking the definitions that generated types depend on
    (codexsdk/internal/protocolgen/type_plan.go): a depth-first walk of schema
    documents that refer to each other, cycles included. */
module Reachability {
  import opened Wrappers
  import Naming
  import Pointer
  import Resolver
  import StringOrder

  /** A planned type. `candidate` says that it becomes a generated top-level type
      once it is a root, `union` that its own schema is walked, `fields` the
      references of its fields, `definitions` the names its schema defines. */
  datatype PlannedType = PlannedType(typeName: string, schemaPath: string, hasSchema: bool, candidate: bool,
      union: bool,
                                     fields: seq<string>, definitions: set<string>)

  /** What the walk of a schema node meets, in order: a reference, a nested schema,
      or a property that cannot be planned. */
  datatype Step = Refer(ref: string) | Enter(path: string) | Unplannable

  datatype Shape = Same | Differs | Broken

  /** A property: does its type admit only null, the reference it is planned with
      (empty for none, None when it cannot be planned), and is it an object with
      properties of its own? */
  datatype Property = Property(nullOnly: bool, planned: Option<string>, payload: bool)

  /** What the walk looks at in a schema node. `sealed` says that additional
      properties are forbidden, `additional` and `items` give the references of those
      schemas (empty for an inline one), the counts are those of the variants, and
      `expand` marks a variant of a mixed union. */
  datatype SchemaNode = SchemaNode(
    ref: string, properties: map<string, Property>, required: set<string>, sealed: bool, additional: string,
    isArray: bool, items: Option<string>, allOf: nat, anyOf: nat, oneOf: nat, expand: bool)

  /** The types, the schema nodes by their paths, and the comparison of a definition
      with a top-level type. */
  datatype Graph = Graph(types: seq<PlannedType>, nodes: map<string, SchemaNode>, shape: (string, nat) -> Shape)

  // ------------------------------------------------------------- the steps of a node

  function Below(path: string, rest: string): string { if '#' in path then path + "/" + rest else path + "#/" + rest }

  function ReferTo(ref: string): seq<Step> { if ref == "" then [] else [Refer(ref)] }

  /** Optional null-only properties carry nothing. */
  function FieldSteps(node: SchemaNode, path: string, name: string): seq<Step>
    requires name in node.properties
  {
    var p := node.properties[name];
    if p.nullOnly && name !in node.required then []
    else if p.planned.None? then [Unplannable]
    else
      ReferTo(p.planned.value)
      + if node.expand && |node.properties| == 1 && name in node.required && node.sealed && p.payload
        then [Enter(Below(path, "properties/" + name))] else []
  }

  function FieldsSteps(node: SchemaNode, path: string, names: seq<string>): seq<Step>
    requires forall name <- names :: name in node.properties
  {
    if names == [] then []
    else FieldsSteps(node, path, names[..|names| - 1]) + FieldSteps(node, path, names[|names| - 1])
  }

  function ItemSteps(node: SchemaNode, path: string): seq<Step> {
    if !node.isArray || node.items.None? then []
    else if node.items.value != "" then [Refer(node.items.value)]
    else [Enter(Below(path, "items"))]
  }

  function AdditionalSteps(node: SchemaNode): seq<Step> {
    if node.properties == map[] then ReferTo(node.additional) else []
  }

  function VariantSteps(path: string, keyword: string, count: nat): seq<Step> {
    if count == 0 then []
    else VariantSteps(path, keyword, count - 1) + [Enter(Below(path, keyword + "/" + Naming.Decimal(count - 1)))]
  }

  /** The node's reference, its properties in name order, its items and additional
      properties, and its variants. */
  ghost function NodeSteps(node: SchemaNode, path: string): seq<Step> {
    ReferTo(node.ref) + FieldsSteps(node, path, StringOrder.Sorted(node.properties.Keys))
    + ItemSteps(node, path) + AdditionalSteps(node)
    + VariantSteps(path, "allOf", node.allOf) + VariantSteps(path, "anyOf", node.anyOf)
    + VariantSteps(path, "oneOf", node.oneOf)
  }

  /** What a property contributes: nothing if it is optional and admits only null;
      else its reference, and for the one required property of an expanded sealed
      variant its own schema. */
  predicate OfProperty(node: SchemaNode, path: string, name: string, step: Step)
    requires name in node.properties
  {
    var p := node.properties[name];
    && (p.nullOnly ==> name in node.required)
    && match p.planned
       case None => step == Unplannable
       case Some(ref) =>
         || (ref != "" && step == Refer(ref))
         || (node.expand && node.properties.Keys == {name} && name in node.required && node.sealed && p.payload
             && step == Enter(Below(path, "properties/" + name)))
  }

  predicate OfVariant(path: string, keyword: string, count: nat, step: Step) {
    exists k: nat :: k < count && step == Variant(path, keyword, k)
  }

  function Variant(path: string, keyword: string, k: nat): Step { Enter(Below(path, keyword + "/" + Naming.Decimal(k))) }

  lemma {:induction false} VariantsAre(path: string, keyword: string, count: nat, step: Step)
    ensures step in VariantSteps(path, keyword, count) <==> OfVariant(path, keyword, count, step)
  {
    if count > 0 {
      VariantsAre(path, keyword, count - 1, step);
      assert step == Variant(path, keyword, count - 1) ==> OfVariant(path, keyword, count, step);
    }
  }

  lemma {:induction false} FieldsAre(node: SchemaNode, path: string, names: seq<string>, step: Step)
    requires forall name <- names :: name in node.properties
    ensures step in FieldsSteps(node, path, names) <==> exists name <- names :: step in FieldSteps(node, path, name)
    decreases |names|
  {
    hide FieldSteps;
    if names != [] {
      var init, last := names[..|names| - 1], names[|names| - 1];
      assert names == init + [last];
      FieldsAre(node, path, init, step);
    }
  }

  lemma FieldIs(node: SchemaNode, path: string, name: string, step: Step)
    requires name in node.properties
    ensures step in FieldSteps(node, path, name) <==> OfProperty(node, path, name, step)
  {
    OnlyName(node.properties.Keys, name);
  }

  lemma OnlyName(names: set<string>, name: string)
    requires name in names
    ensures |names| == 1 <==> names == {name}
  {
    if |names| == 1 {
      assert |names - {name}| == 0;
      assert names == {name} + (names - {name});
    }
  }

  /** What a node refers to and what it nests, field by field. */
  lemma NodeMeets(node: SchemaNode, path: string, step: Step)
    ensures step in NodeSteps(node, path) <==>
            || (node.ref != "" && step == Refer(node.ref))
            || (exists name <- node.properties :: OfProperty(node, path, name, step))
            || (node.isArray && node.items.Some?
                && step == if node.items.value == "" then Enter(Below(path, "items")) else Refer(node.items.value))
            || (node.properties == map[] && node.additional != "" && step == Refer(node.additional))
            || OfVariant(path, "allOf", node.allOf, step)
            || OfVariant(path, "anyOf", node.anyOf, step)
            || OfVariant(path, "oneOf", node.oneOf, step)
  {
    hide FieldSteps, FieldsSteps, VariantSteps, OfVariant, OfProperty, StringOrder.Ascending;
    var names := StringOrder.Sorted(node.properties.Keys);
    VariantsAre(path, "allOf", node.allOf, step);
    VariantsAre(path, "anyOf", node.anyOf, step);
    VariantsAre(path, "oneOf", node.oneOf, step);
    FieldsAre(node, path, names, step);
    forall name <- node.properties ensures step in FieldSteps(node, path, name) <==> OfProperty(node, path, name, step) {
      FieldIs(node, path, name, step);
    }
    assert (exists name <- names :: step in FieldSteps(node, path, name)) <==>
           exists name <- node.properties :: OfProperty(node, path, name, step);
  }

  ghost function Steps(g: Graph, path: string): seq<Step>
    requires path in g.nodes
  {
    NodeSteps(g.nodes[path], path)
  }

  method Variants(path: string, keyword: string, count: nat) returns (steps: seq<Step>)
    ensures steps == VariantSteps(path, keyword, count)
  {
    steps := [];
    for index := 0 to count
      invariant steps == VariantSteps(path, keyword, index)
    {
      steps := steps + [Enter(Below(path, keyword + "/" + Naming.Decimal(index)))];
    }
  }

  method Fields(node: SchemaNode, path: string) returns (steps: seq<Step>)
    ensures steps == FieldsSteps(node, path, StringOrder.Sorted(node.properties.Keys))
  {
    hide StringOrder.Ascending, FieldSteps;
    var names := StringOrder.SortStrings(node.properties.Keys);
    steps := [];
    var k := 0;
    while k < |names|
      invariant 0 <= k <= |names| && steps == FieldsSteps(node, path, names[..k])
    {
      assert names[k] in names && names[..k + 1][..k] == names[..k];
      steps := steps + FieldSteps(node, path, names[k]);
      k := k + 1;
    }
    assert names[..k] == names;
  }

  /** What walking a node meets, collected before it is followed; nothing of it
      depends on what is marked. */
  method Meets(node: SchemaNode, path: string) returns (steps: seq<Step>)
    ensures steps == NodeSteps(node, path)
  {
    var fields := Fields(node, path);
    var allOf := Variants(path, "allOf", node.allOf);
    var anyOf := Variants(path, "anyOf", node.anyOf);
    var oneOf := Variants(path, "oneOf", node.oneOf);
    steps := ReferTo(node.ref) + fields + ItemSteps(node, path) + AdditionalSteps(node) + allOf + anyOf + oneOf;
  }

  // ------------------------------------------------------------------ references

  /** strings.Cut at the first fragment mark. */
  function Cut(s: string, sep: char): (r: (string, Option<string>))
    ensures sep !in r.0
    ensures r.1.None? ==> s == r.0
    ensures r.1.Some? ==> s == r.0 + [sep] + r.1.value
  {
    if s == "" then ("", None)
    else if s[0] == sep then ("", Some(s[1..]))
    else
      var rest := Cut(s[1..], sep);
      ([s[0]] + rest.0, rest.1)
  }

  function DocumentOf(path: string): string { Cut(path, '#').0 }

  function Absolute(current: string, ref: string): string {
    if ref == "" then ""
    else if ref[0] == '#' then DocumentOf(current) + ref
    else ref
  }

  const PREFIX := "/definitions/"

  const ENVELOPES := {"JSONRPCRequest", "JSONRPCResponse", "JSONRPCNotification", "JSONRPCMessage", "JSONRPCError",
      "JSONRPCErrorError"}

  function TrimJson(s: string): string {
    if |s| >= 5 && s[|s| - 5..] == ".json" then s[..|s| - 5] else s
  }

  predicate IsEnvelope(path: string) { TrimJson(path) in ENVELOPES }

  predicate Indexed(t: PlannedType) { t.hasSchema && DocumentOf(t.schemaPath) != "" }

  /** The last type of a document. */
  function IndexOf(types: seq<PlannedType>, document: string): (r: Option<nat>)
    ensures r.Some? ==> r.value < |types| && Indexed(types[r.value]) && DocumentOf(types[r.value].schemaPath) == document
  {
    if types == [] then None
    else
      var t := types[|types| - 1];
      if Indexed(t) && DocumentOf(t.schemaPath) == document then Some(|types| - 1)
      else IndexOf(types[..|types| - 1], document)
  }

  /** The types of a name, in order. */
  function Named(types: seq<PlannedType>, name: string): (r: seq<nat>)
    ensures forall i <- r :: i < |types| && Indexed(types[i]) && types[i].typeName == name
  {
    if types == [] then []
    else
      var t := types[|types| - 1];
      Named(types[..|types| - 1], name) + if Indexed(t) && t.typeName == name then [|types| - 1] else []
  }

  datatype Target =
    | Nowhere                                   // an unknown document or another fragment
    | Document(index: nat)
    | Missing                                   // no such definition
    | Envelope                                  // owned by handwritten validation
    | Definition(owner: nat, name: string, path: string)

  function Resolve(g: Graph, current: string, ref: string): (r: Target)
    ensures r.Document? ==> r.index < |g.types|
    ensures r.Definition? ==> r.owner < |g.types| && r.name in g.types[r.owner].definitions
    ensures r.Definition? ==> r.path == Resolver.DefinitionPath(DocumentOf(g.types[r.owner].schemaPath), r.name)
  {
    var (document, fragment) := Cut(Absolute(current, ref), '#');
    var index := IndexOf(g.types, document);
    if index.None? then Nowhere
    else if fragment.None? || fragment.value == "" then Document(index.value)
    else if !(PREFIX <= fragment.value) then Nowhere
    else
      var name := Pointer.Unescape(Cut(fragment.value[|PREFIX|..], '/').0);
      if name !in g.types[index.value].definitions then Missing
      else if IsEnvelope(document) && IsEnvelope(name) then Envelope
      else Definition(index.value, name, Resolver.DefinitionPath(document, name))
  }

  // -------------------------------------------------------- what a reference names

  predicate IsOf(t: PlannedType, document: string) { t.hasSchema && document != "" && DocumentOf(t.schemaPath) == document }

  /** The type found for a document is the last one that has it. */
  lemma {:induction false} IndexOfLast(types: seq<PlannedType>, document: string)
    ensures var r := IndexOf(types, document);
            && (r.None? <==> forall t <- types :: !IsOf(t, document))
            && (r.Some? ==> IsOf(types[r.value], document) && forall j :: r.value < j < |types| ==> !IsOf(types[j], document))
    decreases |types|
  {
    hide DocumentOf;
    if types != [] {
      var init, last := types[..|types| - 1], types[|types| - 1];
      assert types == init + [last];
      IndexOfLast(init, document);
      assert forall t <- types :: t in init || t == last;
      assert forall t <- init :: t in types;
      assert last in types;
    }
  }

  /** All the types of a name are considered, in order. */
  lemma {:induction false} NamedExactly(types: seq<PlannedType>, name: string)
    ensures forall i :: i in Named(types, name) <==>
                        0 <= i < |types| && types[i].typeName == name && IsOf(types[i], DocumentOf(types[i].schemaPath))
    ensures forall a, b :: 0 <= a < b < |Named(types, name)| ==> Named(types, name)[a] < Named(types, name)[b]
    decreases |types|
  {
    hide DocumentOf;
    if types != [] {
      var init, last := types[..|types| - 1], types[|types| - 1];
      assert types == init + [last];
      NamedExactly(init, name);
      var some := Named(init, name);
      assert forall a :: 0 <= a < |some| ==> some[a] in some;
    }
  }

  lemma {:induction false} CutAt(a: string, sep: char, b: string)
    requires sep !in a
    ensures Cut(a, sep) == (a, None) && Cut(a + [sep] + b, sep) == (a, Some(b))
    decreases |a|
  {
    if a == "" {
      assert (a + [sep] + b)[1..] == b;
    } else {
      assert (a + [sep] + b)[1..] == a[1..] + [sep] + b;
      CutAt(a[1..], sep, b);
    }
  }

  /** A reference to a document leads to its type, and one to a definition by its
      escaped name, however it goes on below that, to the definition, unless both are
      envelopes; and it is missing if the document's type does not define it. */
  lemma ReferencesResolve(g: Graph, current: string, document: string, name: string, rest: string, index: nat)
    requires document != "" && '#' !in document && IndexOf(g.types, document) == Some(index)
    requires rest == "" || rest[0] == '/'
    ensures Resolve(g, current, document) == Document(index)
    ensures Resolve(g, current, document + "#") == Document(index)
    ensures Resolve(g, current, document + "#/definitions/" + (Pointer.Escape(name) + rest)) ==
            if name !in g.types[index].definitions then Missing
            else if IsEnvelope(document) && IsEnvelope(name) then Envelope
            else Definition(index, name, Resolver.DefinitionPath(document, name))
  {
    hide Pointer.Escape, Pointer.Unescape, IsEnvelope, Cut, IndexOf;
    var fragment := PREFIX + (Pointer.Escape(name) + rest);
    CutAt(document, '#', "");
    CutAt(document, '#', fragment);
    assert document + "#/definitions/" + (Pointer.Escape(name) + rest) == document + ['#'] + fragment;
    assert document + "#" == document + ['#'] + "";
    assert fragment[|PREFIX|..] == Pointer.Escape(name) + rest;
    Pointer.EscapeHasNoSlash(name);
    CutAt(Pointer.Escape(name), '/', if rest == "" then "" else rest[1..]);
    if rest == "" {
      assert Pointer.Escape(name) + rest == Pointer.Escape(name);
    } else {
      assert Pointer.Escape(name) + rest == Pointer.Escape(name) + ['/'] + rest[1..];
    }
    Pointer.UnescapeEscape(name);
  }

  /** A fragment alone is resolved in the current document. */
  lemma FragmentsAreLocal(g: Graph, current: string, fragment: string)
    requires DocumentOf(current) != ""
    ensures Resolve(g, current, "#" + fragment) == Resolve(g, current, DocumentOf(current) + ("#" + fragment))
  {
    assert DocumentOf(current)[0] != '#' by { assert DocumentOf(current)[0] in DocumentOf(current); }
  }

  // --------------------------------------------------------- what marking promises

  /** What has been marked and visited. */
  datatype Marks = Marks(roots: set<nat>, types: set<nat>, schemas: set<string>, definitions: set<(nat, string)>)

  /** Can a reference to a definition be redirected to this type of its name? */
  predicate Twin(g: Graph, owner: nat, name: string, path: string, i: nat)
    requires owner < |g.types|
  {
    && i in Named(g.types, name) && g.types[i].candidate
    && g.types[i].schemaPath != DocumentOf(g.types[owner].schemaPath) && g.shape(path, i) == Same
  }

  /** A walked reference leads to a marked definition whose node is visited, to a
      visited root (directly or by the same shape), or nowhere the generator owns. */
  ghost predicate Settled(g: Graph, m: Marks, current: string, ref: string) {
    match Resolve(g, current, ref)
    case Nowhere => true
    case Envelope => true
    case Missing => false
    case Document(i) => i in m.types
    case Definition(owner, name, path) =>
      || ((owner, name) in m.definitions && (path in m.schemas || path !in g.nodes))
      || exists i :: i in m.types && i in m.roots && Twin(g, owner, name, path, i)
  }

  ghost predicate StepSettled(g: Graph, m: Marks, path: string, s: Step) {
    match s
    case Refer(ref) => Settled(g, m, DocumentOf(path), ref)
    case Enter(inner) => inner in m.schemas || inner !in g.nodes
    case Unplannable => false
  }

  ghost predicate SchemaClosed(g: Graph, m: Marks, path: string) {
    path in g.nodes && forall s <- Steps(g, path) :: StepSettled(g, m, path, s)
  }

  ghost predicate TypeClosed(g: Graph, m: Marks, i: nat) {
    && i < |g.types| && i in m.roots
    && (forall ref <- g.types[i].fields :: ref != "" ==> Settled(g, m, g.types[i].schemaPath, ref))
    && (g.types[i].union ==> g.types[i].schemaPath in m.schemas || g.types[i].schemaPath !in g.nodes)
  }

  /** Everything visited since `before` is closed. */
  ghost predicate Closed(g: Graph, before: Marks, m: Marks) {
    && (forall i :: i in m.types && i !in before.types ==> TypeClosed(g, m, i))
    && (forall p :: p in m.schemas && p !in before.schemas ==> SchemaClosed(g, m, p))
  }

  ghost predicate Within(a: Marks, b: Marks) {
    a.roots <= b.roots && a.types <= b.types && a.schemas <= b.schemas && a.definitions <= b.definitions
  }

  lemma SettledKept(g: Graph, a: Marks, b: Marks, current: string, ref: string)
    requires Within(a, b) && Settled(g, a, current, ref)
    ensures Settled(g, b, current, ref)
  {
    hide Twin, Resolve;
    match Resolve(g, current, ref)
    case Definition(owner, name, path) =>
      if !((owner, name) in a.definitions && (path in a.schemas || path !in g.nodes)) {
        var i :| i in a.types && i in a.roots && Twin(g, owner, name, path, i);
      }
    case _ =>
  }

  lemma ClosedJoin(g: Graph, a: Marks, b: Marks, c: Marks)
    requires Within(a, b) && Within(b, c) && Closed(g, a, b) && Closed(g, b, c)
    ensures Closed(g, a, c) && Within(a, c)
  {
    hide Settled;
    forall i | i in c.types && i !in a.types ensures TypeClosed(g, c, i) {
      if i in b.types {
        assert TypeClosed(g, b, i);
        forall ref <- g.types[i].fields | ref != "" ensures Settled(g, c, g.types[i].schemaPath, ref) {
          SettledKept(g, b, c, g.types[i].schemaPath, ref);
        }
      }
    }
    forall p | p in c.schemas && p !in a.schemas ensures SchemaClosed(g, c, p) {
      if p in b.schemas {
        assert SchemaClosed(g, b, p);
        forall s <- Steps(g, p) ensures StepSettled(g, c, p, s) {
          assert StepSettled(g, b, p, s);
          if s.Refer? { SettledKept(g, b, c, DocumentOf(p), s.ref); }
        }
      }
    }
  }

  // ---------------------------------------------------------------- reachability

  datatype Node = Type(index: nat) | Schema(path: string)

  /** Where a reference may lead: to the definition, or to its twin. */
  ghost predicate Leads(g: Graph, current: string, ref: string, n: Node) {
    match Resolve(g, current, ref)
    case Document(i) => n == Type(i)
    case Definition(owner, name, path) => n == Schema(path) || (n.Type? && Twin(g, owner, name, path, n.index))
    case _ => false
  }

  ghost predicate Edge(g: Graph, a: Node, b: Node) {
    match a
    case Type(i) =>
      && i < |g.types|
      && ((exists ref :: ref in g.types[i].fields && ref != "" && Leads(g, g.types[i].schemaPath, ref, b))
          || (g.types[i].union && b == Schema(g.types[i].schemaPath)))
    case Schema(path) =>
      && path in g.nodes
      && exists s :: s in Steps(g, path)
          && ((s.Refer? && Leads(g, DocumentOf(path), s.ref, b)) || (s.Enter? && b == Schema(s.path)))
  }

  ghost predicate IsPath(g: Graph, path: seq<Node>) {
    path != [] && forall k :: 0 <= k < |path| - 1 ==> Edge(g, path[k], path[k + 1])
  }

  ghost predicate Reaches(g: Graph, a: Node, b: Node) {
    exists path :: IsPath(g, path) && path[0] == a && path[|path| - 1] == b
  }

  lemma ReachesSelf(g: Graph, a: Node)
    ensures Reaches(g, a, a)
  {
    assert IsPath(g, [a]) && [a][0] == a && [a][|[a]| - 1] == a;
  }

  lemma ReachesEdge(g: Graph, a: Node, b: Node, c: Node)
    requires Edge(g, a, b) && Reaches(g, b, c)
    ensures Reaches(g, a, c)
  {
    hide Edge;
    var path :| IsPath(g, path) && path[0] == b && path[|path| - 1] == c;
    var longer := [a] + path;
    forall k | 0 <= k < |longer| - 1 ensures Edge(g, longer[k], longer[k + 1]) {
      if k > 0 { assert Edge(g, path[k - 1], path[k]); }
    }
    assert IsPath(g, longer) && longer[0] == a && longer[|longer| - 1] == c;
  }

  /** A reference that cannot be followed: its definition is missing, or comparing it
      with a type of its name fails. */
  ghost predicate BadRef(g: Graph, current: string, ref: string) {
    match Resolve(g, current, ref)
    case Missing => true
    case Definition(owner, name, path) => exists i :: i in Named(g.types, name) && g.shape(path, i) == Broken
    case _ => false
  }

  ghost predicate Faulty(g: Graph, n: Node) {
    match n
    case Type(i) => i < |g.types| && exists ref :: ref in g.types[i].fields && ref != "" && BadRef(g, g.types[i].schemaPath, ref)
    case Schema(path) =>
      && path in g.nodes
      && exists s :: s in Steps(g, path) && (s.Unplannable? || (s.Refer? && BadRef(g, DocumentOf(path), s.ref)))
  }

  /** Something faulty is reachable. */
  ghost predicate Fault(g: Graph, a: Node) { exists n :: Reaches(g, a, n) && Faulty(g, n) }

  ghost predicate RefFault(g: Graph, current: string, ref: string) {
    BadRef(g, current, ref) || exists n :: Leads(g, current, ref, n) && Fault(g, n)
  }

  lemma FaultHere(g: Graph, a: Node)
    requires Faulty(g, a)
    ensures Fault(g, a)
  {
    hide Faulty, Reaches;
    ReachesSelf(g, a);
  }

  lemma FaultBelow(g: Graph, a: Node, b: Node)
    requires Edge(g, a, b) && Fault(g, b)
    ensures Fault(g, a)
  {
    hide Edge, Faulty, Reaches;
    var n :| Reaches(g, b, n) && Faulty(g, n);
    ReachesEdge(g, a, b, n);
  }

  lemma FieldFault(g: Graph, index: nat, ref: string)
    requires index < |g.types| && ref in g.types[index].fields && ref != ""
    requires RefFault(g, g.types[index].schemaPath, ref)
    ensures Fault(g, Type(index))
  {
    hide BadRef, Leads, Fault;
    if BadRef(g, g.types[index].schemaPath, ref) {
      FaultHere(g, Type(index));
    } else {
      var n :| Leads(g, g.types[index].schemaPath, ref, n) && Fault(g, n);
      FaultBelow(g, Type(index), n);
    }
  }

  lemma UnionFault(g: Graph, index: nat)
    requires index < |g.types| && g.types[index].union && Fault(g, Schema(g.types[index].schemaPath))
    ensures Fault(g, Type(index))
  {
    hide Fault;
    FaultBelow(g, Type(index), Schema(g.types[index].schemaPath));
  }

  lemma StepFault(g: Graph, path: string, k: nat)
    requires path in g.nodes && k < |Steps(g, path)|
    requires var s := Steps(g, path)[k];
             match s case Unplannable => true case Refer(ref) => RefFault(g, DocumentOf(path),
                 ref) case Enter(inner) => Fault(g, Schema(inner))
    ensures Fault(g, Schema(path))
  {
    hide BadRef, Leads, Fault;
    var s := Steps(g, path)[k];
    assert s in Steps(g, path);
    if s.Unplannable? || (s.Refer? && BadRef(g, DocumentOf(path), s.ref)) {
      FaultHere(g, Schema(path));
    } else if s.Refer? {
      var n :| Leads(g, DocumentOf(path), s.ref, n) && Fault(g, n);
      FaultBelow(g, Schema(path), n);
    } else {
      FaultBelow(g, Schema(path), Schema(s.path));
    }
  }

  /** Everything newly visited is reachable from a node. */
  ghost predicate OnlyFrom(g: Graph, before: Marks, m: Marks, from: Node) {
    && (forall i :: i in m.types && i !in before.types ==> Reaches(g, from, Type(i)))
    && (forall p :: p in m.schemas && p !in before.schemas ==> Reaches(g, from, Schema(p)))
  }

  lemma OnlyFromEdge(g: Graph, before: Marks, m: Marks, a: Node, b: Node)
    requires Edge(g, a, b) && OnlyFrom(g, before, m, b)
    ensures OnlyFrom(g, before, m, a)
  {
    hide Edge, Reaches;
    forall i | i in m.types && i !in before.types ensures Reaches(g, a, Type(i)) { ReachesEdge(g, a, b, Type(i)); }
    forall p | p in m.schemas && p !in before.schemas ensures Reaches(g, a, Schema(p)) {
      ReachesEdge(g, a, b, Schema(p));
    }
  }

  // -------------------------------------------------------------------- the walk

  ghost function Indices(n: nat): (r: set<nat>)
    ensures forall i: nat :: i in r <==> i < n
  {
    if n == 0 then {} else Indices(n - 1) + {n - 1}
  }

  /** How much is left to visit. */
  ghost function Left(g: Graph, m: Marks): nat {
    |Indices(|g.types|) - m.types| + |g.nodes.Keys - m.schemas|
  }

  lemma LeftShrinks(g: Graph, a: Marks, b: Marks)
    requires Within(a, b)
    ensures Left(g, b) <= Left(g, a)
    ensures (exists i :: i in b.types && i !in a.types && i < |g.types|) ==> Left(g, b) < Left(g, a)
    ensures (exists p :: p in b.schemas && p !in a.schemas && p in g.nodes) ==> Left(g, b) < Left(g, a)
  {
    var indices := Indices(|g.types|);
    Smaller(indices - b.types, indices - a.types);
    Smaller(g.nodes.Keys - b.schemas, g.nodes.Keys - a.schemas);
  }

  lemma {:induction false} Smaller<T>(a: set<T>, b: set<T>)
    requires a <= b
    ensures |a| <= |b| && (a != b ==> |a| < |b|)
  {
    if a == b {
    } else {
      var x :| x in b && x !in a;
      assert b == (b - {x}) + {x};
      Smaller(a, b - {x});
    }
  }

  /** The visited part of a reference's target hangs off one edge, or nothing new
      was visited. */
  ghost predicate ThroughRef(g: Graph, before: Marks, m: Marks, current: string, ref: string) {
    || (m.types == before.types && m.schemas == before.schemas)
    || exists n :: Leads(g, current, ref, n) && OnlyFrom(g, before, m, n)
  }

  /** Marked definitions are visited, except for one about to be. */
  ghost predicate Sound(g: Graph, m: Marks, seen: set<string>, pending: set<string>) {
    && m.types <= m.roots && (forall i <- m.roots :: i < |g.types|)
    && (forall d <- m.definitions :: d.0 < |g.types| && d.1 in g.types[d.0].definitions
                                     && Resolver.DefinitionPath(DocumentOf(g.types[d.0].schemaPath), d.1) in seen)
    && (forall p <- seen :: p in m.schemas || p !in g.nodes || p in pending)
  }

  ghost predicate Progress(g: Graph, a: Marks, b: Marks, from: Node) {
    Within(a, b) && Closed(g, a, b) && OnlyFrom(g, a, b, from) && Left(g, b) <= Left(g, a)
  }

  ghost predicate RefProgress(g: Graph, a: Marks, b: Marks, current: string, ref: string) {
    Within(a, b) && Closed(g, a, b) && ThroughRef(g, a, b, current, ref) && Left(g, b) <= Left(g, a)
  }

  ghost predicate FieldsSettled(g: Graph, m: Marks, index: nat, k: nat)
    requires index < |g.types| && k <= |g.types[index].fields|
  {
    forall j :: 0 <= j < k && g.types[index].fields[j] != "" ==>
        Settled(g, m, g.types[index].schemaPath, g.types[index].fields[j])
  }

  ghost predicate StepsSettled(g: Graph, m: Marks, path: string, k: nat)
    requires path in g.nodes && k <= |Steps(g, path)|
  {
    forall j :: 0 <= j < k ==> StepSettled(g, m, path, Steps(g, path)[j])
  }

  lemma NoProgress(g: Graph, m: Marks, from: Node)
    ensures Progress(g, m, m, from)
  {
  }

  lemma NoRefProgress(g: Graph, m: Marks, current: string, ref: string)
    ensures RefProgress(g, m, m, current, ref)
  {
  }

  lemma ProgressWithin(g: Graph, a: Marks, b: Marks, from: Node)
    requires Progress(g, a, b, from)
    ensures Within(a, b)
  {
  }

  lemma ProgressJoin(g: Graph, a: Marks, b: Marks, c: Marks, from: Node)
    requires Progress(g, a, b, from) && Progress(g, b, c, from)
    ensures Progress(g, a, c, from)
  {
    hide TypeClosed, SchemaClosed, Closed, Reaches, Left;
    ClosedJoin(g, a, b, c);
  }

  /** Progress through a reference is progress from a node with that reference. */
  lemma ThroughProgress(g: Graph, a: Marks, b: Marks, current: string, ref: string, from: Node)
    requires RefProgress(g, a, b, current, ref) && forall n :: Leads(g, current, ref, n) ==> Edge(g, from, n)
    ensures Progress(g, a, b, from)
  {
    hide Closed, Leads, Edge, Left;
    if !(b.types == a.types && b.schemas == a.schemas) {
      var n :| Leads(g, current, ref, n) && OnlyFrom(g, a, b, n);
      hide OnlyFrom;
      OnlyFromEdge(g, a, b, from, n);
    } else {
      hide Reaches;
    }
  }

  /** A reference followed into a node is progress through the reference. */
  lemma Led(g: Graph, a: Marks, b: Marks, current: string, ref: string, n: Node)
    requires Progress(g, a, b, n) && Leads(g, current, ref, n)
    ensures RefProgress(g, a, b, current, ref)
  {
    hide Closed, Leads, Left, OnlyFrom;
  }

  lemma TypeEntered(g: Graph, start: Marks, entered: Marks, seen: set<string>, index: nat)
    requires index < |g.types| && index !in start.types && Sound(g, start, seen, {})
    requires entered == start.(types := start.types + {index}, roots := start.roots + {index})
    ensures Sound(g, entered, seen, {}) && Left(g, entered) < Left(g, start)
  {
    LeftShrinks(g, start, entered);
  }

  lemma SchemaEntered(g: Graph, start: Marks, entered: Marks, seen: set<string>, path: string)
    requires path in g.nodes && path !in start.schemas && Sound(g, start, seen, {path})
    requires entered == start.(schemas := start.schemas + {path})
    ensures Sound(g, entered, seen, {}) && Left(g, entered) < Left(g, start)
  {
    LeftShrinks(g, start, entered);
  }

  lemma PendingMore(g: Graph, m: Marks, seen: set<string>, path: string)
    requires Sound(g, m, seen, {})
    ensures Sound(g, m, seen, {path})
  {
  }

  lemma PendingSettled(g: Graph, m: Marks, seen: set<string>, path: string)
    requires Sound(g, m, seen, {path}) && (path in m.schemas || path !in g.nodes)
    ensures Sound(g, m, seen, {})
  {
  }

  lemma FieldProgress(g: Graph, entered: Marks, before: Marks, now: Marks, index: nat, k: nat)
    requires index < |g.types| && k < |g.types[index].fields| && g.types[index].fields[k] != ""
    requires Progress(g, entered, before, Type(index)) && FieldsSettled(g, before, index, k)
    requires RefProgress(g, before, now, g.types[index].schemaPath, g.types[index].fields[k])
    requires Settled(g, now, g.types[index].schemaPath, g.types[index].fields[k])
    ensures Progress(g, entered, now, Type(index)) && FieldsSettled(g, now, index, k + 1)
    ensures Left(g, now) <= Left(g, before)
  {
    hide Closed, Leads, Left, OnlyFrom, Settled, ThroughRef;
    var current, ref := g.types[index].schemaPath, g.types[index].fields[k];
    assert ref in g.types[index].fields;
    ThroughProgress(g, before, now, current, ref, Type(index));
    ProgressJoin(g, entered, before, now, Type(index));
    forall j | 0 <= j < k && g.types[index].fields[j] != "" ensures Settled(g, now, current, g.types[index].fields[j]) {
      SettledKept(g, before, now, current, g.types[index].fields[j]);
    }
  }

  lemma UnionProgress(g: Graph, entered: Marks, before: Marks, now: Marks, index: nat)
    requires index < |g.types| && g.types[index].union
    requires Progress(g, entered, before, Type(index)) && FieldsSettled(g, before, index, |g.types[index].fields|)
    requires Progress(g, before, now, Schema(g.types[index].schemaPath))
    ensures Progress(g, entered, now, Type(index)) && FieldsSettled(g, now, index, |g.types[index].fields|)
  {
    hide Closed, Leads, Left, OnlyFrom, Settled;
    assert Edge(g, Type(index), Schema(g.types[index].schemaPath));
    OnlyFromEdge(g, before, now, Type(index), Schema(g.types[index].schemaPath));
    ProgressJoin(g, entered, before, now, Type(index));
    var fields := g.types[index].fields;
    forall j | 0 <= j < |fields| && fields[j] != "" ensures Settled(g, now, g.types[index].schemaPath, fields[j]) {
      SettledKept(g, before, now, g.types[index].schemaPath, fields[j]);
    }
  }

  lemma TypeDone(g: Graph, start: Marks, entered: Marks, now: Marks, index: nat)
    requires index < |g.types| && FieldsSettled(g, now, index, |g.types[index].fields|)
    requires g.types[index].union ==> g.types[index].schemaPath in now.schemas || g.types[index].schemaPath !in g.nodes
    requires entered == start.(types := start.types + {index}, roots := start.roots + {index})
    requires Progress(g, entered, now, Type(index)) && Left(g, entered) < Left(g, start)
    ensures Progress(g, start, now, Type(index)) && index in now.types
  {
    hide Left, Settled, Edge, SchemaClosed, Reaches;
    ReachesSelf(g, Type(index));
    assert TypeClosed(g, now, index);
  }

  lemma StepNext(g: Graph, before: Marks, now: Marks, path: string, k: nat)
    requires path in g.nodes && k < |Steps(g, path)| && StepsSettled(g, before, path, k) && Within(before, now)
    requires StepSettled(g, now, path, Steps(g, path)[k])
    ensures StepsSettled(g, now, path, k + 1)
  {
    hide Settled;
    forall j | 0 <= j < k ensures StepSettled(g, now, path, Steps(g, path)[j]) {
      assert StepSettled(g, before, path, Steps(g, path)[j]);
      if Steps(g, path)[j].Refer? { SettledKept(g, before, now, DocumentOf(path), Steps(g, path)[j].ref); }
    }
  }

  lemma ReferProgress(g: Graph, entered: Marks, before: Marks, now: Marks, path: string, k: nat)
    requires path in g.nodes && k < |Steps(g, path)| && Steps(g, path)[k].Refer?
    requires Progress(g, entered, before, Schema(path)) && StepsSettled(g, before, path, k)
    requires RefProgress(g, before, now, DocumentOf(path), Steps(g, path)[k].ref)
    requires Settled(g, now, DocumentOf(path), Steps(g, path)[k].ref)
    ensures Progress(g, entered, now, Schema(path)) && StepsSettled(g, now, path, k + 1)
    ensures Left(g, now) <= Left(g, before)
  {
    hide Closed, Leads, Left, OnlyFrom, Settled, ThroughRef;
    StepNext(g, before, now, path, k);
    var s := Steps(g, path)[k];
    assert s in Steps(g, path);
    ThroughProgress(g, before, now, DocumentOf(path), s.ref, Schema(path));
    ProgressJoin(g, entered, before, now, Schema(path));
  }

  lemma EnterProgress(g: Graph, entered: Marks, before: Marks, now: Marks, path: string, k: nat)
    requires path in g.nodes && k < |Steps(g, path)| && Steps(g, path)[k].Enter?
    requires Progress(g, entered, before, Schema(path)) && StepsSettled(g, before, path, k)
    requires Progress(g, before, now, Schema(Steps(g, path)[k].path))
    requires Steps(g, path)[k].path in now.schemas || Steps(g, path)[k].path !in g.nodes
    ensures Progress(g, entered, now, Schema(path)) && StepsSettled(g, now, path, k + 1)
    ensures Left(g, now) <= Left(g, before)
  {
    hide Closed, Leads, Left, OnlyFrom, Settled;
    StepNext(g, before, now, path, k);
    var s := Steps(g, path)[k];
    assert s in Steps(g, path);
    assert Edge(g, Schema(path), Schema(s.path));
    OnlyFromEdge(g, before, now, Schema(path), Schema(s.path));
    ProgressJoin(g, entered, before, now, Schema(path));
  }

  lemma SchemaDone(g: Graph, start: Marks, entered: Marks, now: Marks, path: string)
    requires path in g.nodes && StepsSettled(g, now, path, |Steps(g, path)|)
    requires entered == start.(schemas := start.schemas + {path})
    requires Progress(g, entered, now, Schema(path)) && Left(g, entered) < Left(g, start)
    ensures Progress(g, start, now, Schema(path)) && path in now.schemas
  {
    hide Left, StepSettled, Edge, TypeClosed, Reaches;
    ReachesSelf(g, Schema(path));
    assert SchemaClosed(g, now, path);
  }

  /** The marks after a definition is marked. */
  ghost predicate MarkedBy(g: Graph, start: Marks, marked: Marks, current: string, ref: string) {
    var r := Resolve(g, current, ref);
    r.Definition? && marked == start.(definitions := start.definitions + {(r.owner, r.name)})
  }

  lemma LeftSame(g: Graph, a: Marks, b: Marks)
    requires a.types == b.types && a.schemas == b.schemas
    ensures Left(g, a) == Left(g, b)
  {
  }

  lemma AlreadyMarked(g: Graph, start: Marks, marked: Marks, seen: set<string>, current: string, ref: string)
    requires Sound(g, start, seen, {}) && MarkedBy(g, start, marked, current, ref)
    requires Resolve(g, current, ref).path in seen
    ensures Sound(g, marked, seen, {}) && Settled(g, marked, current, ref)
    ensures RefProgress(g, start, marked, current, ref)
  {
    hide Resolve, TypeClosed, SchemaClosed, Left, OnlyFrom, Leads, Twin;
    LeftSame(g, start, marked);
  }

  lemma Marked(g: Graph, start: Marks, marked: Marks, seen: set<string>, current: string, ref: string)
    requires Sound(g, start, seen, {}) && MarkedBy(g, start, marked, current, ref)
    ensures Sound(g, marked, seen + {Resolve(g, current, ref).path}, {Resolve(g, current, ref).path})
    ensures Left(g, marked) == Left(g, start)
  {
    hide Resolve, Left;
    LeftSame(g, start, marked);
  }

  lemma MarkedWalked(g: Graph, start: Marks, marked: Marks, now: Marks, current: string, ref: string)
    requires MarkedBy(g, start, marked, current, ref) && Left(g, marked) == Left(g, start)
    requires Progress(g, marked, now, Schema(Resolve(g, current, ref).path))
    requires Resolve(g, current, ref).path in now.schemas || Resolve(g, current, ref).path !in g.nodes
    ensures Settled(g, now, current, ref) && RefProgress(g, start, now, current, ref)
  {
    hide Resolve, TypeClosed, SchemaClosed, Left, Reaches;
    assert Leads(g, current, ref, Schema(Resolve(g, current, ref).path));
    assert OnlyFrom(g, start, now, Schema(Resolve(g, current, ref).path));
  }

  class Marker {
    const g: Graph
    var generatedRoot: set<nat>
    var generatedDefinitions: set<(nat, string)>
    var visitedSchemas: set<string>
    var visitedDefinitions: set<string>
    var visitedTypes: set<nat>

    constructor (graph: Graph, roots: set<nat>)
      ensures g == graph && generatedRoot == roots && generatedDefinitions == {}
      ensures visitedSchemas == {} && visitedDefinitions == {} && visitedTypes == {}
    {
      g, generatedRoot, generatedDefinitions := graph, roots, {};
      visitedSchemas, visitedDefinitions, visitedTypes := {}, {}, {};
    }

    ghost function Now(): Marks
      reads this
    {
      Marks(generatedRoot, visitedTypes, visitedSchemas, generatedDefinitions)
    }

    ghost predicate Valid(pending: set<string>)
      reads this
    {
      Sound(g, Now(), visitedDefinitions, pending)
    }

    /** walkType: false stands for an error. */
    method WalkType(index: nat) returns (ok: bool)
      requires index < |g.types| && Valid({})
      modifies this
      ensures ok ==> Valid({}) && index in visitedTypes && Progress(g, old(Now()), Now(), Type(index))
      ensures !ok ==> Fault(g, Type(index))
      decreases Left(g, Now()), 0
    {
      hide Sound, Settled, Left, Leads, Edge, Progress, ThroughRef, Fault, RefFault;
      ghost var start := Now();
      if index in visitedTypes {
        NoProgress(g, start, Type(index));
        return true;
      }
      visitedTypes := visitedTypes + {index};
      generatedRoot := generatedRoot + {index};
      ghost var entered := Now();
      TypeEntered(g, start, entered, visitedDefinitions, index);
      NoProgress(g, entered, Type(index));
      var typ := g.types[index];
      var k := 0;
      while k < |typ.fields|
        invariant 0 <= k <= |typ.fields| && Valid({}) && Left(g, Now()) < Left(g, start)
        invariant FieldsSettled(g, Now(), index, k) && Progress(g, entered, Now(), Type(index))
      {
        if typ.fields[k] != "" {
          ghost var before := Now();
          ok := WalkRef(typ.schemaPath, typ.fields[k]);
          if !ok {
            FieldFault(g, index, typ.fields[k]);
            return;
          }
          FieldProgress(g, entered, before, Now(), index, k);
        }
        k := k + 1;
      }
      ok := true;
      ghost var walked := Now();
      if typ.union {
        PendingMore(g, walked, visitedDefinitions, typ.schemaPath);
        ok := WalkSchema(typ.schemaPath);
        if !ok {
          UnionFault(g, index);
          return;
        }
        UnionProgress(g, entered, walked, Now(), index);
      }
      TypeDone(g, start, entered, Now(), index);
    }

    /** walkRef. */
    method WalkRef(current: string, ref: string) returns (ok: bool)
      requires Valid({})
      modifies this
      ensures ok ==> Valid({}) && Settled(g, Now(), current, ref) && RefProgress(g, old(Now()), Now(), current, ref)
      ensures !ok ==> RefFault(g, current, ref)
      decreases Left(g, Now()), 1
    {
      ghost var start := Now();
      hide Sound, Left, Edge, Progress, Fault;
      match Resolve(g, current, ref)
      case Nowhere => NoRefProgress(g, start, current, ref); return true;
      case Envelope => NoRefProgress(g, start, current, ref); return true;
      case Missing => return false;
      case Document(index) =>
        ok := WalkType(index);
        if ok { Led(g, start, Now(), current, ref, Type(index)); }
      case Definition(owner, name, path) =>
        var document := DocumentOf(g.types[owner].schemaPath);
        var candidates := Named(g.types, name);
        var k := 0;
        while k < |candidates|
          invariant 0 <= k <= |candidates| && Now() == start && visitedDefinitions == old(visitedDefinitions)
        {
          var i := candidates[k];
          assert i in candidates;
          if g.types[i].schemaPath != document && i in generatedRoot && g.types[i].candidate {
            match g.shape(path, i) {
              case Broken => return false;
              case Same =>
                ok := WalkType(i);
                if ok {
                  Led(g, start, Now(), current, ref, Type(i));
                  ProgressWithin(g, start, Now(), Type(i));
                }
                return;
              case Differs =>
            }
          }
          k := k + 1;
        }
        ok := Mark(current, ref, owner, name, path);
    }

    /** The definition itself is marked and walked. */
    method Mark(current: string, ref: string, owner: nat, name: string, path: string) returns (ok: bool)
      requires Valid({}) && Resolve(g, current, ref) == Definition(owner, name, path)
      modifies this
      ensures ok ==> Valid({}) && Settled(g, Now(), current, ref) && RefProgress(g, old(Now()), Now(), current, ref)
      ensures !ok ==> RefFault(g, current, ref)
      decreases Left(g, Now()), 1, 0
    {
      hide Sound, Left, Edge, Progress, RefProgress, Settled, Fault, BadRef;
      ghost var start := Now();
      generatedDefinitions := generatedDefinitions + {(owner, name)};
      ghost var marked := Now();
      if path in visitedDefinitions {
        AlreadyMarked(g, start, marked, visitedDefinitions, current, ref);
        return true;
      }
      visitedDefinitions := visitedDefinitions + {path};
      Marked(g, start, marked, old(visitedDefinitions), current, ref);
      ok := WalkSchema(path);
      if ok { MarkedWalked(g, start, marked, Now(), current, ref); }
    }

    /** walkSchema: an absent node has nothing to walk. */
    method WalkSchema(path: string) returns (ok: bool)
      requires Valid({path})
      modifies this
      ensures ok ==> Valid({}) && (path in visitedSchemas || path !in g.nodes) && Progress(g, old(Now()), Now(), Schema(path))
      ensures !ok ==> Fault(g, Schema(path))
      decreases Left(g, Now()), 0
    {
      hide Sound, StepSettled, Left, Leads, Edge, Progress, ThroughRef, Fault, RefFault;
      ghost var start := Now();
      if path !in g.nodes || path in visitedSchemas {
        NoProgress(g, start, Schema(path));
        PendingSettled(g, start, visitedDefinitions, path);
        return true;
      }
      visitedSchemas := visitedSchemas + {path};
      ghost var entered := Now();
      SchemaEntered(g, start, entered, visitedDefinitions, path);
      NoProgress(g, entered, Schema(path));
      var steps := Meets(g.nodes[path], path);
      var k := 0;
      while k < |steps|
        invariant 0 <= k <= |steps| && Valid({}) && Left(g, Now()) < Left(g, start)
        invariant StepsSettled(g, Now(), path, k) && Progress(g, entered, Now(), Schema(path))
      {
        ghost var before := Now();
        match steps[k] {
          case Unplannable =>
            StepFault(g, path, k);
            return false;
          case Refer(ref) =>
            ok := WalkRef(DocumentOf(path), ref);
            if !ok {
              StepFault(g, path, k);
              return;
            }
            ReferProgress(g, entered, before, Now(), path, k);
          case Enter(inner) =>
            PendingMore(g, Now(), visitedDefinitions, inner);
            ok := WalkSchema(inner);
            if !ok {
              StepFault(g, path, k);
              return;
            }
            EnterProgress(g, entered, before, Now(), path, k);
        }
        k := k + 1;
      }
      ok := true;
      SchemaDone(g, start, entered, Now(), path);
    }
  }

  // ------------------------------------------------------------ what a run gives

  /** Nothing is visited yet. */
  ghost function Start(roots: set<nat>): Marks { Marks(roots, {}, {}, {}) }

  ghost predicate DefinitionVisited(g: Graph, m: Marks, d: (nat, string)) {
    && d.0 < |g.types| && d.1 in g.types[d.0].definitions
    && var path := Resolver.DefinitionPath(DocumentOf(g.types[d.0].schemaPath), d.1);
       path in m.schemas || path !in g.nodes
  }

  /** A successful marking: the roots are visited, everything visited is closed and
      reachable from a root, and every marked definition was walked. */
  ghost predicate Complete(g: Graph, roots: set<nat>, m: Marks) {
    && roots <= m.types && m.types <= m.roots && Closed(g, Start(roots), m)
    && (forall d <- m.definitions :: DefinitionVisited(g, m, d))
    && (forall i <- m.types :: exists r :: r in roots && Reaches(g, Type(r), Type(i)))
    && (forall p <- m.schemas :: exists r :: r in roots && Reaches(g, Type(r), Schema(p)))
  }

  /** markReachableGeneratedDefinitions, the manifest's roots given. */
  method MarkReachable(g: Graph, roots: set<nat>) returns (r: Option<Marker>)
    requires forall i <- roots :: i < |g.types|
    ensures r.Some? ==> roots != {} && fresh(r.value) && r.value.g == g && Complete(g, roots, r.value.Now())
    ensures r.None? ==> roots == {} || exists i :: i in roots && Fault(g, Type(i))
  {
    hide Closed, OnlyFrom, Edge, Left, Reaches, Sound, FromRoots, Complete, Fault;
    if roots == {} { return None; }
    var marker := new Marker(g, roots);
    ghost var start := marker.Now();
    var todo := roots;
    NothingVisited(g, roots, marker.visitedDefinitions);
    while todo != {}
      invariant todo <= roots && marker.Valid({}) && roots - todo <= marker.visitedTypes && marker.g == g
      invariant fresh(marker)
      invariant start == Start(roots) && Within(start, marker.Now()) && Closed(g, start, marker.Now())
      invariant FromRoots(g, roots, marker.Now())
      decreases |todo|
    {
      var index :| index in todo;
      ghost var before := marker.Now();
      var ok := marker.WalkType(index);
      if !ok { return None; }
      ProgressWithin(g, before, marker.Now(), Type(index));
      ClosedJoin(g, start, before, marker.Now());
      FromRootsJoin(g, roots, before, marker.Now(), index);
      todo := todo - {index};
    }
    CompleteNow(g, roots, marker.Now(), marker.visitedDefinitions);
    return Some(marker);
  }

  ghost predicate FromRoots(g: Graph, roots: set<nat>, m: Marks) {
    && (forall i <- m.types :: exists r :: r in roots && Reaches(g, Type(r), Type(i)))
    && (forall p <- m.schemas :: exists r :: r in roots && Reaches(g, Type(r), Schema(p)))
  }

  lemma NothingVisited(g: Graph, roots: set<nat>, seen: set<string>)
    requires seen == {} && forall i <- roots :: i < |g.types|
    ensures Closed(g, Start(roots), Start(roots)) && FromRoots(g, roots, Start(roots))
    ensures Sound(g, Start(roots), seen, {})
  {
  }

  lemma FromRootsJoin(g: Graph, roots: set<nat>, before: Marks, now: Marks, index: nat)
    requires FromRoots(g, roots, before) && index in roots && OnlyFrom(g, before, now, Type(index))
    ensures FromRoots(g, roots, now)
  {
    hide Reaches;
  }

  lemma CompleteNow(g: Graph, roots: set<nat>, m: Marks, seen: set<string>)
    requires Sound(g, m, seen, {}) && roots <= m.types && Closed(g, Start(roots), m) && FromRoots(g, roots, m)
    ensures Complete(g, roots, m)
  {
    hide Closed, Reaches;
  }

  // -------------------------------------------------- exactness without redirects

  ghost predicate Visited(g: Graph, m: Marks, n: Node) {
    match n
    case Type(i) => i in m.types
    case Schema(p) => p in m.schemas || p !in g.nodes
  }

  ghost predicate Redirected(g: Graph, owner: nat, name: string, i: nat)
    requires owner < |g.types|
  {
    Twin(g, owner, name, Resolver.DefinitionPath(DocumentOf(g.types[owner].schemaPath), name), i)
  }

  /** No definition has a top-level twin. */
  ghost predicate NoTwins(g: Graph) {
    forall owner: nat, name: string, i: nat ::
      owner < |g.types| && name in g.types[owner].definitions ==> !Redirected(g, owner, name, i)
  }

  lemma SettledLeads(g: Graph, m: Marks, current: string, ref: string, n: Node)
    requires NoTwins(g) && Settled(g, m, current, ref) && Leads(g, current, ref, n)
    ensures Visited(g, m, n)
  {
    hide Twin, Resolve;
    match Resolve(g, current, ref)
    case Definition(owner, name, path) =>
      forall i ensures !Twin(g, owner, name, path, i) {
        assert !Redirected(g, owner, name, i);
      }
    case _ =>
  }

  lemma EdgeVisited(g: Graph, roots: set<nat>, m: Marks, a: Node, b: Node)
    requires Complete(g, roots, m) && NoTwins(g) && Visited(g, m, a) && Edge(g, a, b)
    ensures Visited(g, m, b)
  {
    hide Complete, NoTwins, Leads, Settled;
    AllClosed(g, roots, m);
    match a
    case Type(i) =>
      assert TypeClosed(g, m, i);
      if !(g.types[i].union && b == Schema(g.types[i].schemaPath)) {
        var ref :| ref in g.types[i].fields && ref != "" && Leads(g, g.types[i].schemaPath, ref, b);
        SettledLeads(g, m, g.types[i].schemaPath, ref, b);
      }
    case Schema(path) =>
      assert SchemaClosed(g, m, path);
      var s :| s in Steps(g, path)
          && ((s.Refer? && Leads(g, DocumentOf(path), s.ref, b)) || (s.Enter? && b == Schema(s.path)));
      assert StepSettled(g, m, path, s);
      if s.Refer? { SettledLeads(g, m, DocumentOf(path), s.ref, b); }
  }

  lemma AllClosed(g: Graph, roots: set<nat>, m: Marks)
    requires Complete(g, roots, m)
    ensures forall i <- m.types :: TypeClosed(g, m, i)
    ensures forall p <- m.schemas :: SchemaClosed(g, m, p)
  {
    hide TypeClosed, SchemaClosed, DefinitionVisited, Reaches;
  }

  lemma AllReached(g: Graph, roots: set<nat>, m: Marks)
    requires Complete(g, roots, m)
    ensures FromRoots(g, roots, m)
  {
    hide TypeClosed, SchemaClosed, DefinitionVisited, Reaches;
  }

  lemma {:induction false} PathVisited(g: Graph, roots: set<nat>, m: Marks, path: seq<Node>, k: nat)
    requires Complete(g, roots, m) && NoTwins(g) && IsPath(g, path) && k < |path| && path[0].Type?
    requires path[0].index in roots
    ensures Visited(g, m, path[k])
    decreases k
  {
    hide Complete, NoTwins, Edge;
    if k == 0 {
      RootVisited(g, roots, m, path[0].index);
    } else {
      PathVisited(g, roots, m, path, k - 1);
      assert Edge(g, path[k - 1], path[k]);
      EdgeVisited(g, roots, m, path[k - 1], path[k]);
    }
  }

  lemma RootVisited(g: Graph, roots: set<nat>, m: Marks, i: nat)
    requires Complete(g, roots, m) && i in roots
    ensures i in m.types
  {
  }

  /** Where no definition has a twin, exactly what the roots reach is visited. */
  lemma VisitedExactly(g: Graph, roots: set<nat>, m: Marks, n: Node)
    requires Complete(g, roots, m) && NoTwins(g) && (n.Schema? ==> n.path in g.nodes)
    ensures Visited(g, m, n) <==> exists r :: r in roots && Reaches(g, Type(r), n)
  {
    hide Complete, NoTwins, Edge;
    AllReached(g, roots, m);
    if exists r :: r in roots && Reaches(g, Type(r), n) {
      var r :| r in roots && Reaches(g, Type(r), n);
      var path :| IsPath(g, path) && path[0] == Type(r) && path[|path| - 1] == n;
      PathVisited(g, roots, m, path, |path| - 1);
    }
  }
}
