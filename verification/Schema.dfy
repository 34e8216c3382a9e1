/** Admission of output schemas (llmcaller/codex/schema.go): the walk terminates on
    every root, whatever its references, and admits exactly the schemas whose
    reference unfolding is finite and locally acceptable throughout. */
module Schema {
  import opened Wrappers
  import opened Json
  import Pointer

  datatype Kind =
    | InvalidSubschema | InvalidRef | ExternalRef | CyclicRef | UnresolvableRef | UnsupportedDynamicRef
    | UnsupportedVocabulary | InvalidProperties | OptionalProperty | InvalidRequired | InvalidSubschemas
    | InvalidDependencies

  function At(f: map<string, Json>, key: string): Json { if key in f then f[key] else Null }

  function Values(v: Json): set<Json> { if v.Obj? then v.fields.Values else {} }

  function Elements(v: Json): set<Json> { if v.Arr? then set c | c in v.items else {} }

  /** Keywords that hold one subschema. */
  const SINGLES := {"additionalProperties", "unevaluatedProperties", "propertyNames", "additionalItems", "contains",
                    "unevaluatedItems", "not", "if", "then", "else", "contentSchema"}

  function Singles(f: map<string, Json>): set<Json> { set k | k in SINGLES && k in f :: f[k] }

  function Items(f: map<string, Json>): set<Json> {
    if "items" !in f then {} else if f["items"].Arr? then Elements(f["items"]) else {f["items"]}
  }

  /** Every subschema the walk visits, references apart. */
  function Children(f: map<string, Json>): set<Json> {
    Values(At(f, "properties")) + Singles(f) + Items(f)
    + Values(At(f, "patternProperties")) + Values(At(f, "dependentSchemas"))
    + Values(At(f, "$defs")) + Values(At(f, "definitions"))
    + Elements(At(f, "allOf")) + Elements(At(f, "anyOf")) + Elements(At(f, "oneOf")) + Elements(At(f, "prefixItems"))
    + (set c | c in Values(At(f, "dependencies")) && !c.Arr?)
  }

  /** requiredSet, when the keyword is well formed; absent and null require nothing. */
  predicate RequiredOk(v: Json) { v.Null? || (v.Arr? && forall e <- v.items :: e.Str?) }

  function Required(v: Json): set<string> { if v.Arr? then set e | e in v.items && e.Str? :: e.s else {} }

  /** Declared properties must all be required. */
  predicate PropertiesOk(f: map<string, Json>) {
    "properties" in f ==>
      f["properties"].Obj? && RequiredOk(At(f, "required"))
          && f["properties"].fields.Keys <= Required(At(f, "required"))
  }

  predicate ListOk(f: map<string, Json>, key: string) { key in f ==> f[key].Arr? }

  /** The conditions on one object, apart from its subschemas and its reference. */
  predicate LocalOk(f: map<string, Json>) {
    && "$dynamicRef" !in f && "$vocabulary" !in f && PropertiesOk(f)
    && ListOk(f, "allOf") && ListOk(f, "anyOf") && ListOk(f, "oneOf") && ListOk(f, "prefixItems")
    && ("dependencies" in f ==> f["dependencies"].Obj?)
  }

  /** The reference of an object is a string naming a value inside the root. */
  predicate RefOk(root: Json, f: map<string, Json>) {
    "$ref" in f ==> f["$ref"].Str? && Pointer.Resolve(root, f["$ref"].s).Some?
  }

  function Target(root: Json, ref: string): Json
    requires Pointer.Resolve(root, ref).Some?
  {
    Pointer.Resolve(root, ref).value
  }

  /** All reference strings anywhere inside a value. */
  function RefStrings(v: Json): set<string> {
    match v
    case Arr(items) => set i, r | 0 <= i < |items| && r in RefStrings(items[i]) :: r
    case Obj(f) =>
      (if "$ref" in f && f["$ref"].Str? then {f["$ref"].s} else {})
      + (set k, r | k in f && r in RefStrings(f[k]) :: r)
    case _ => {}
  }

  lemma FieldInside(f: map<string, Json>, key: string, c: Json)
    requires key in f && (c == f[key] || c in Values(f[key]) || c in Elements(f[key]))
    ensures c < Obj(f) && RefStrings(c) <= RefStrings(Obj(f))
  {
    assert RefStrings(f[key]) <= RefStrings(Obj(f));
    if c in Values(f[key]) {
      var k :| k in f[key].fields && f[key].fields[k] == c;
      assert RefStrings(c) <= RefStrings(f[key]);
    } else if c in Elements(f[key]) {
      var i :| 0 <= i < |f[key].items| && f[key].items[i] == c;
      assert RefStrings(c) <= RefStrings(f[key]);
    }
  }

  /** The keyword that holds a subschema. */
  lemma ChildKey(f: map<string, Json>, c: Json) returns (key: string)
    requires c in Children(f)
    ensures key in f && (c == f[key] || c in Values(f[key]) || c in Elements(f[key]))
  {
    if c in Values(At(f, "properties")) { return "properties"; }
    if c in Singles(f) {
      key :| key in SINGLES && key in f && f[key] == c;
      return;
    }
    if c in Items(f) { return "items"; }
    if c in Values(At(f, "patternProperties")) { return "patternProperties"; }
    if c in Values(At(f, "dependentSchemas")) { return "dependentSchemas"; }
    if c in Values(At(f, "$defs")) { return "$defs"; }
    if c in Values(At(f, "definitions")) { return "definitions"; }
    if c in Elements(At(f, "allOf")) { return "allOf"; }
    if c in Elements(At(f, "anyOf")) { return "anyOf"; }
    if c in Elements(At(f, "oneOf")) { return "oneOf"; }
    if c in Elements(At(f, "prefixItems")) { return "prefixItems"; }
    return "dependencies";
  }

  lemma ChildInside(f: map<string, Json>, c: Json)
    requires c in Children(f)
    ensures c < Obj(f) && RefStrings(c) <= RefStrings(Obj(f))
  {
    hide Children, RefStrings;
    var key := ChildKey(f, c);
    FieldInside(f, key, c);
  }

  lemma {:induction false} DescendInside(v: Json, keys: seq<string>)
    ensures Pointer.Descend(v, keys).Some? ==> RefStrings(Pointer.Descend(v, keys).value) <= RefStrings(v)
    decreases |keys|
  {
    if keys != [] && v.Obj? && keys[0] in v.fields {
      DescendInside(v.fields[keys[0]], keys[1..]);
    }
  }

  lemma TargetInside(root: Json, ref: string)
    requires Pointer.Resolve(root, ref).Some?
    ensures RefStrings(Target(root, ref)) <= RefStrings(root)
  {
    if ref != "#" { DescendInside(root, Pointer.Tokens(ref)); }
  }

  lemma FewerRefs(root: Json, refs: set<string>, ref: string)
    requires ref in RefStrings(root) && ref !in refs
    ensures |RefStrings(root) - (refs + {ref})| < |RefStrings(root) - refs|
  {
    assert RefStrings(root) - (refs + {ref}) == RefStrings(root) - refs - {ref};
  }

  // ----------------------------------------------------------------- admission

  /** Does the walk of `v`, with `refs` on the path, succeed? */
  predicate Admits(root: Json, v: Json, refs: set<string>)
    requires RefStrings(v) <= RefStrings(root)
    decreases |RefStrings(root) - refs|, v
  {
    match v
    case Bool(_) => true
    case Obj(f) =>
      && RefOk(root, f) && LocalOk(f)
      && ("$ref" in f ==>
            var ref := f["$ref"].s;
            ref !in refs && (TargetInside(root, ref); FewerRefs(root, refs, ref); Admits(root, Target(root, ref),
                refs + {ref})))
      && (forall c :: c in Children(f) ==> (ChildInside(f, c); Admits(root, c, refs)))
    case _ => false
  }

  /** The unfolding of `v` along references is at most `n` references deep, and every
      node in it meets the local conditions. */
  predicate Unfolds(root: Json, v: Json, n: nat)
    decreases n, v
  {
    match v
    case Bool(_) => true
    case Obj(f) =>
      && RefOk(root, f) && LocalOk(f)
      && ("$ref" in f ==> n > 0 && Unfolds(root, Target(root, f["$ref"].s), n - 1))
      && (forall c :: c in Children(f) ==> (ChildInside(f, c); Unfolds(root, c, n)))
    case _ => false
  }

  lemma RefAmong(f: map<string, Json>)
    requires "$ref" in f && f["$ref"].Str?
    ensures f["$ref"].s in RefStrings(Obj(f))
  {
  }

  lemma {:induction false} UnfoldsDeeper(root: Json, v: Json, n: nat)
    requires Unfolds(root, v, n)
    ensures Unfolds(root, v, n + 1)
    decreases n, v
  {
    hide Children, LocalOk, RefStrings;
    if v.Obj? {
      if "$ref" in v.fields { UnfoldsDeeper(root, Target(root, v.fields["$ref"].s), n - 1); }
      forall c | c in Children(v.fields) ensures Unfolds(root, c, n + 1) {
        ChildInside(v.fields, c);
        UnfoldsDeeper(root, c, n);
      }
    }
  }

  lemma {:induction false} UnfoldsUpTo(root: Json, v: Json, m: nat, n: nat)
    requires Unfolds(root, v, m) && m <= n
    ensures Unfolds(root, v, n)
    decreases n
  {
    hide Unfolds;
    if m < n {
      UnfoldsUpTo(root, v, m, n - 1);
      UnfoldsDeeper(root, v, n - 1);
    }
  }

  /** What is admitted unfolds finitely: no deeper than there are references left. */
  lemma {:induction false} AdmittedUnfolds(root: Json, v: Json, refs: set<string>)
    requires RefStrings(v) <= RefStrings(root) && Admits(root, v, refs)
    ensures Unfolds(root, v, |RefStrings(root) - refs|)
    decreases |RefStrings(root) - refs|, v
  {
    hide Children, LocalOk, RefStrings, Target;
    if v.Obj? {
      var n := |RefStrings(root) - refs|;
      if "$ref" in v.fields {
        var ref := v.fields["$ref"].s;
        TargetInside(root, ref);
        RefAmong(v.fields);
        FewerRefs(root, refs, ref);
        AdmittedUnfolds(root, Target(root, ref), refs + {ref});
        UnfoldsUpTo(root, Target(root, ref), |RefStrings(root) - (refs + {ref})|, n - 1);
      }
      forall c | c in Children(v.fields) ensures Unfolds(root, c, n) {
        ChildInside(v.fields, c);
        AdmittedUnfolds(root, c, refs);
      }
    }
  }

  /** The references on the path do not unfold within depth n - 1. */
  ghost predicate Deeper(root: Json, refs: set<string>, n: nat) {
    forall r <- refs :: Pointer.Resolve(root, r).Some? && (n > 0 ==> !Unfolds(root, Target(root, r), n - 1))
  }

  lemma {:induction false} LeastDepth(root: Json, v: Json, n: nat) returns (k: nat)
    requires Unfolds(root, v, n)
    ensures k <= n && Unfolds(root, v, k) && (k > 0 ==> !Unfolds(root, v, k - 1))
  {
    if n > 0 && Unfolds(root, v, n - 1) {
      k := LeastDepth(root, v, n - 1);
    } else {
      k := n;
    }
  }

  /** A reference met on the way is not its own ancestor, and its target is walked
      at its own least depth. */
  lemma RefDeepens(root: Json, refs: set<string>, ref: string, n: nat) returns (k: nat)
    requires Pointer.Resolve(root, ref).Some? && n > 0 && Unfolds(root, Target(root, ref), n - 1)
    requires Deeper(root, refs, n)
    ensures ref !in refs && k < n && Unfolds(root, Target(root, ref), k) && Deeper(root, refs + {ref}, k)
  {
    hide Unfolds;
    k := LeastDepth(root, Target(root, ref), n - 1);
    forall r <- refs | k > 0 ensures !Unfolds(root, Target(root, r), k - 1) {
      if Unfolds(root, Target(root, r), k - 1) { UnfoldsUpTo(root, Target(root, r), k - 1, n - 1); }
    }
  }

  /** What unfolds finitely is admitted: a reference that is its own ancestor would
      need to unfold within less than its least depth. */
  lemma {:induction false} UnfoldingAdmitted(root: Json, v: Json, refs: set<string>, n: nat)
    requires RefStrings(v) <= RefStrings(root) && Unfolds(root, v, n) && Deeper(root, refs, n)
    ensures Admits(root, v, refs)
    decreases n, v
  {
    hide Children, LocalOk, RefStrings, Target, Deeper;
    if v.Obj? {
      if "$ref" in v.fields {
        var ref := v.fields["$ref"].s;
        TargetInside(root, ref);
        RefAmong(v.fields);
        var k := RefDeepens(root, refs, ref, n);
        FewerRefs(root, refs, ref);
        UnfoldingAdmitted(root, Target(root, ref), refs + {ref}, k);
      }
      forall c | c in Children(v.fields) ensures RefStrings(c) <= RefStrings(root) && Admits(root, c, refs) {
        ChildInside(v.fields, c);
        UnfoldingAdmitted(root, c, refs, n);
      }
    }
  }

  /** Admission is exact: a schema is admitted exactly when its reference unfolding
      is finite and every node in it is locally acceptable. Sharing a target along
      two branches is not a cycle. */
  lemma AdmissionIsExact(root: Json)
    ensures Admits(root, root, {}) <==> exists n: nat :: Unfolds(root, root, n)
  {
    hide Admits, Unfolds;
    if Admits(root, root, {}) { AdmittedUnfolds(root, root, {}); }
    if exists n: nat :: Unfolds(root, root, n) {
      var n: nat :| Unfolds(root, root, n);
      UnfoldingAdmitted(root, root, {}, n);
    }
  }

  // -------------------------------------- what admission means, keyword by keyword

  predicate AdmitsIn(root: Json, c: Json, refs: set<string>) {
    RefStrings(c) <= RefStrings(root) && Admits(root, c, refs)
  }

  /** The name is an item of the object's list of required names. */
  predicate Requires(f: map<string, Json>, name: string) {
    "required" in f && f["required"].Arr? && Str(name) in f["required"].items
  }

  /** The required names are absent, null, or a list of strings. */
  predicate NamesStrings(f: map<string, Json>) {
    "required" in f && f["required"] != Null ==>
      f["required"].Arr? && forall e <- f["required"].items :: e.Str?
  }

  /** The reference is a string naming a value inside the root that is not being
      unfolded already, and that value is admitted. */
  predicate ReferenceAdmitted(root: Json, f: map<string, Json>, refs: set<string>) {
    "$ref" in f ==>
      && f["$ref"].Str?
      && var ref := f["$ref"].s;
         && ref !in refs && Pointer.Resolve(root, ref).Some?
         && AdmitsIn(root, Pointer.Resolve(root, ref).value, refs + {ref})
  }

  predicate PropertiesAdmitted(root: Json, f: map<string, Json>, refs: set<string>) {
    "properties" in f ==>
      && f["properties"].Obj? && NamesStrings(f)
      && forall name <- f["properties"].fields ::
           Requires(f, name) && AdmitsIn(root, f["properties"].fields[name], refs)
  }

  predicate OneAdmitted(root: Json, f: map<string, Json>, key: string, refs: set<string>) {
    key in f ==> AdmitsIn(root, f[key], refs)
  }

  predicate ItemsAdmitted(root: Json, f: map<string, Json>, refs: set<string>) {
    "items" in f ==>
      if f["items"].Arr? then forall c <- f["items"].items :: AdmitsIn(root, c, refs) else AdmitsIn(root, f["items"], refs)
  }

  /** A value that is no object is passed over. */
  predicate MapAdmitted(root: Json, f: map<string, Json>, key: string, refs: set<string>) {
    key in f && f[key].Obj? ==> forall name <- f[key].fields :: AdmitsIn(root, f[key].fields[name], refs)
  }

  predicate ListAdmitted(root: Json, f: map<string, Json>, key: string, refs: set<string>) {
    key in f ==> f[key].Arr? && forall c <- f[key].items :: AdmitsIn(root, c, refs)
  }

  /** A dependency that is a list names properties and holds no schema. */
  predicate DependenciesAdmitted(root: Json, f: map<string, Json>, refs: set<string>) {
    "dependencies" in f ==>
      && f["dependencies"].Obj?
      && forall name <- f["dependencies"].fields ::
           f["dependencies"].fields[name].Arr? || AdmitsIn(root, f["dependencies"].fields[name], refs)
  }

  /** Every keyword that holds subschemas, by its name. */
  predicate KeywordsAdmitted(root: Json, f: map<string, Json>, refs: set<string>) {
    && PropertiesAdmitted(root, f, refs) && ItemsAdmitted(root, f, refs) && DependenciesAdmitted(root, f, refs)
    && OneAdmitted(root, f, "additionalProperties", refs) && OneAdmitted(root, f, "unevaluatedProperties", refs)
    && OneAdmitted(root, f, "propertyNames", refs) && OneAdmitted(root, f, "additionalItems", refs)
    && OneAdmitted(root, f, "contains", refs) && OneAdmitted(root, f, "unevaluatedItems", refs)
    && OneAdmitted(root, f, "not", refs) && OneAdmitted(root, f, "if", refs) && OneAdmitted(root, f, "then", refs)
    && OneAdmitted(root, f, "else", refs) && OneAdmitted(root, f, "contentSchema", refs)
    && MapAdmitted(root, f, "patternProperties", refs) && MapAdmitted(root, f, "dependentSchemas", refs)
    && MapAdmitted(root, f, "$defs", refs) && MapAdmitted(root, f, "definitions", refs)
    && ListAdmitted(root, f, "allOf", refs) && ListAdmitted(root, f, "anyOf", refs)
    && ListAdmitted(root, f, "oneOf", refs) && ListAdmitted(root, f, "prefixItems", refs)
  }

  lemma ValueAmong(f: map<string, Json>, key: string, name: string)
    requires key in f && f[key].Obj? && name in f[key].fields
    ensures f[key].fields[name] in Values(At(f, key))
  {
  }

  lemma ElementAmong(f: map<string, Json>, key: string, c: Json)
    requires key in f && f[key].Arr? && c in f[key].items
    ensures c in Elements(At(f, key))
  {
  }

  predicate MapKey(key: string) {
    key == "properties" || key == "patternProperties" || key == "dependentSchemas" || key == "$defs" || key == "definitions"
  }

  predicate ListKey(key: string) { key == "allOf" || key == "anyOf" || key == "oneOf" || key == "prefixItems" }

  /** What each kind of keyword contributes to the children. */
  lemma AreChildren(f: map<string, Json>)
    ensures forall key, c :: MapKey(key) && c in Values(At(f, key)) ==> c in Children(f)
    ensures forall key, c :: ListKey(key) && c in Elements(At(f, key)) ==> c in Children(f)
    ensures forall key :: key in SINGLES && key in f ==> f[key] in Children(f)
    ensures forall c :: c in Items(f) ==> c in Children(f)
    ensures forall c :: c in Values(At(f, "dependencies")) && !c.Arr? ==> c in Children(f)
  {
    hide Values, Elements, Items;
  }

  lemma KeywordsOfChildren(root: Json, f: map<string, Json>, refs: set<string>)
    requires LocalOk(f) && forall c <- Children(f) :: AdmitsIn(root, c, refs)
    ensures KeywordsAdmitted(root, f, refs)
  {
    hide AdmitsIn, Children, OneAdmitted, MapAdmitted, ListAdmitted;
    AreChildren(f);
    forall key | MapKey(key) ensures MapAdmitted(root, f, key, refs) { MapOfChildren(root, f, key, refs); }
    forall key | ListKey(key) ensures ListAdmitted(root, f, key, refs) { ListOfChildren(root, f, key, refs); }
    forall key | key in SINGLES ensures OneAdmitted(root, f, key, refs) { OneOfChildren(root, f, key, refs); }
    PropertiesOfChildren(root, f, refs);
    ItemsOfChildren(root, f, refs);
    DependenciesOfChildren(root, f, refs);
  }

  lemma MapOfChildren(root: Json, f: map<string, Json>, key: string, refs: set<string>)
    requires MapKey(key) && forall c <- Children(f) :: AdmitsIn(root, c, refs)
    ensures MapAdmitted(root, f, key, refs)
  {
    hide AdmitsIn, Children;
    AreChildren(f);
    if key in f && f[key].Obj? {
      forall name <- f[key].fields ensures AdmitsIn(root, f[key].fields[name], refs) { ValueAmong(f, key, name); }
    }
  }

  lemma ListOfChildren(root: Json, f: map<string, Json>, key: string, refs: set<string>)
    requires ListKey(key) && LocalOk(f) && forall c <- Children(f) :: AdmitsIn(root, c, refs)
    ensures ListAdmitted(root, f, key, refs)
  {
    hide AdmitsIn, Children, PropertiesOk;
    AreChildren(f);
    if key in f {
      forall c <- f[key].items ensures AdmitsIn(root, c, refs) { ElementAmong(f, key, c); }
    }
  }

  lemma OneOfChildren(root: Json, f: map<string, Json>, key: string, refs: set<string>)
    requires key in SINGLES && forall c <- Children(f) :: AdmitsIn(root, c, refs)
    ensures OneAdmitted(root, f, key, refs)
  {
    hide AdmitsIn, Children;
    AreChildren(f);
  }

  lemma PropertiesOfChildren(root: Json, f: map<string, Json>, refs: set<string>)
    requires LocalOk(f) && forall c <- Children(f) :: AdmitsIn(root, c, refs)
    ensures PropertiesAdmitted(root, f, refs)
  {
    hide AdmitsIn, Children;
    AreChildren(f);
    if "properties" in f {
      forall name <- f["properties"].fields
        ensures Requires(f, name) && AdmitsIn(root, f["properties"].fields[name], refs)
      {
        ValueAmong(f, "properties", name);
        assert name in Required(At(f, "required"));
      }
    }
  }

  lemma ItemsOfChildren(root: Json, f: map<string, Json>, refs: set<string>)
    requires forall c <- Children(f) :: AdmitsIn(root, c, refs)
    ensures ItemsAdmitted(root, f, refs)
  {
    hide AdmitsIn, Children;
    AreChildren(f);
    if "items" in f && f["items"].Arr? {
      forall c <- f["items"].items ensures AdmitsIn(root, c, refs) { assert c in Items(f); }
    } else if "items" in f {
      assert f["items"] in Items(f);
    }
  }

  lemma DependenciesOfChildren(root: Json, f: map<string, Json>, refs: set<string>)
    requires LocalOk(f) && forall c <- Children(f) :: AdmitsIn(root, c, refs)
    ensures DependenciesAdmitted(root, f, refs)
  {
    hide AdmitsIn, Children, PropertiesOk;
    AreChildren(f);
    if "dependencies" in f {
      forall name <- f["dependencies"].fields | !f["dependencies"].fields[name].Arr?
        ensures AdmitsIn(root, f["dependencies"].fields[name], refs)
      {
        ValueAmong(f, "dependencies", name);
      }
    }
  }

  lemma KeywordsAreLocal(root: Json, f: map<string, Json>, refs: set<string>)
    requires KeywordsAdmitted(root, f, refs) && "$dynamicRef" !in f && "$vocabulary" !in f
    ensures LocalOk(f)
  {
    hide AdmitsIn;
    if "properties" in f {
      forall name <- f["properties"].fields.Keys ensures name in Required(At(f, "required")) { assert Requires(f, name); }
    }
  }

  lemma ChildCases(f: map<string, Json>, c: Json)
    requires c in Children(f)
    ensures || c in Singles(f) || c in Items(f) || (c in Values(At(f, "dependencies")) && !c.Arr?)
            || (exists key :: MapKey(key) && c in Values(At(f, key)))
            || (exists key :: ListKey(key) && c in Elements(At(f, key)))
  {
    hide Values, Elements, Singles, Items, At;
  }

  lemma ByItsKeyword(root: Json, f: map<string, Json>, key: string, refs: set<string>)
    requires KeywordsAdmitted(root, f, refs)
    ensures MapKey(key) ==> MapAdmitted(root, f, key, refs)
    ensures ListKey(key) ==> ListAdmitted(root, f, key, refs)
    ensures key in SINGLES ==> OneAdmitted(root, f, key, refs)
    ensures ItemsAdmitted(root, f, refs) && DependenciesAdmitted(root, f, refs)
  {
    hide AdmitsIn, OneAdmitted, ListAdmitted, ItemsAdmitted, DependenciesAdmitted, NamesStrings, Requires;
  }

  lemma ChildOfKeywords(root: Json, f: map<string, Json>, refs: set<string>, c: Json)
    requires KeywordsAdmitted(root, f, refs) && c in Children(f)
    ensures AdmitsIn(root, c, refs)
  {
    hide AdmitsIn, KeywordsAdmitted, Children;
    ChildCases(f, c);
    ByItsKeyword(root, f, "items", refs);
    if c in Singles(f) {
      var key :| key in SINGLES && key in f && f[key] == c;
      ByItsKeyword(root, f, key, refs);
    } else if c in Items(f) {
    } else if c in Values(At(f, "dependencies")) && !c.Arr? {
      var name :| name in f["dependencies"].fields && f["dependencies"].fields[name] == c;
    } else if key :| MapKey(key) && c in Values(At(f, key)) {
      ByItsKeyword(root, f, key, refs);
      var name :| name in f[key].fields && f[key].fields[name] == c;
    } else {
      var key :| ListKey(key) && c in Elements(At(f, key));
      ByItsKeyword(root, f, key, refs);
    }
  }

  /** An object is admitted exactly when it has neither a dynamic reference nor a
      vocabulary, every declared property is one of its required names, its reference
      and every subschema under every keyword are admitted, and the keywords that must
      be lists or objects are. */
  lemma ObjectAdmitted(root: Json, f: map<string, Json>, refs: set<string>)
    requires RefStrings(Obj(f)) <= RefStrings(root)
    ensures Admits(root, Obj(f), refs) <==>
            && "$dynamicRef" !in f && "$vocabulary" !in f
            && ReferenceAdmitted(root, f, refs) && KeywordsAdmitted(root, f, refs)
  {
    hide Children, LocalOk, RefStrings, Target, KeywordsAdmitted;
    if Admits(root, Obj(f), refs) {
      NotForbidden(f);
      forall c <- Children(f) ensures AdmitsIn(root, c, refs) { ChildInside(f, c); }
      KeywordsOfChildren(root, f, refs);
      if "$ref" in f { TargetInside(root, f["$ref"].s); IsTarget(root, f["$ref"].s); }
    }
    if "$dynamicRef" !in f && "$vocabulary" !in f && ReferenceAdmitted(root, f, refs) && KeywordsAdmitted(root, f, refs) {
      KeywordsAreLocal(root, f, refs);
      forall c <- Children(f) ensures AdmitsIn(root, c, refs) { ChildOfKeywords(root, f, refs, c); }
      if "$ref" in f { TargetInside(root, f["$ref"].s); IsTarget(root, f["$ref"].s); }
    }
  }

  lemma NotForbidden(f: map<string, Json>)
    requires LocalOk(f)
    ensures "$dynamicRef" !in f && "$vocabulary" !in f
  {
  }

  /** Of the other values exactly the booleans are admitted. */
  lemma OthersAdmitted(root: Json, v: Json, refs: set<string>)
    requires RefStrings(v) <= RefStrings(root) && !v.Obj?
    ensures Admits(root, v, refs) <==> v == Bool(true) || v == Bool(false)
  {
  }

  // -------------------------------------------------------------- what is reported

  predicate StringRef(f: map<string, Json>) { "$ref" in f && f["$ref"].Str? }

  /** The value itself has the defect. */
  predicate Defect(root: Json, v: Json, refs: set<string>, kind: Kind) {
    if !v.Obj? then kind.InvalidSubschema? && !v.Bool?
    else
      var f := v.fields;
      match kind
      case InvalidSubschema => false
      case InvalidRef => "$ref" in f && !f["$ref"].Str?
      case ExternalRef => StringRef(f) && (f["$ref"].s == "" || f["$ref"].s[0] != '#')
      case CyclicRef => StringRef(f) && f["$ref"].s in refs
      case UnresolvableRef => StringRef(f) && Pointer.Resolve(root, f["$ref"].s).None?
      case UnsupportedDynamicRef => "$dynamicRef" in f
      case UnsupportedVocabulary => "$vocabulary" in f
      case InvalidProperties => "properties" in f && !f["properties"].Obj?
      case InvalidRequired => "properties" in f && f["properties"].Obj? && !NamesStrings(f)
      case OptionalProperty =>
        "properties" in f && f["properties"].Obj? && exists name <- f["properties"].fields :: !Requires(f, name)
      case InvalidSubschemas => exists key :: ListKey(key) && key in f && !f[key].Arr?
      case InvalidDependencies => "dependencies" in f && !f["dependencies"].Obj?
  }

  /** The value, or some value the walk reaches from it, has the defect. */
  predicate Reaches(root: Json, v: Json, refs: set<string>, kind: Kind)
    requires RefStrings(v) <= RefStrings(root)
    decreases |RefStrings(root) - refs|, v
  {
    || Defect(root, v, refs, kind)
    || (v.Obj? && StringRef(v.fields) && v.fields["$ref"].s !in refs && Pointer.Resolve(root, v.fields["$ref"].s).Some?
        && (var ref := v.fields["$ref"].s;
            TargetInside(root, ref); FewerRefs(root, refs, ref); Reaches(root, Target(root, ref), refs + {ref}, kind)))
    || (v.Obj? && exists c :: c in Children(v.fields) && (ChildInside(v.fields, c); Reaches(root, c, refs, kind)))
  }

  lemma DefectNotLocal(root: Json, f: map<string, Json>, refs: set<string>, kind: Kind)
    requires RefStrings(Obj(f)) <= RefStrings(root) && Defect(root, Obj(f), refs, kind)
    ensures !Admits(root, Obj(f), refs)
  {
    hide Admits, AdmitsIn, RefStrings;
    ObjectAdmitted(root, f, refs);
    if kind.ExternalRef? { NotLocal(root, f["$ref"].s); }
  }

  /** Whatever reaches a defect is not admitted. */
  lemma {:induction false} DefectsRefuse(root: Json, v: Json, refs: set<string>, kind: Kind)
    requires RefStrings(v) <= RefStrings(root) && Reaches(root, v, refs, kind)
    ensures !Admits(root, v, refs)
    decreases |RefStrings(root) - refs|, v
  {
    hide Children, LocalOk, RefStrings, Target, Defect;
    if Defect(root, v, refs, kind) {
      if v.Obj? { DefectNotLocal(root, v.fields, refs, kind); } else { DefectOfOther(root, v, refs, kind); }
    } else if v.Obj? && Admits(root, v, refs) {
      if c :| c in Children(v.fields) && (ChildInside(v.fields, c); Reaches(root, c, refs, kind)) {
        ChildInside(v.fields, c);
        DefectsRefuse(root, c, refs, kind);
      } else {
        var ref := v.fields["$ref"].s;
        TargetInside(root, ref);
        RefAmong(v.fields);
        FewerRefs(root, refs, ref);
        DefectsRefuse(root, Target(root, ref), refs + {ref}, kind);
      }
    }
  }

  lemma DefectOfOther(root: Json, v: Json, refs: set<string>, kind: Kind)
    requires RefStrings(v) <= RefStrings(root) && !v.Obj? && Defect(root, v, refs, kind)
    ensures !Admits(root, v, refs)
  {
  }

  // ------------------------------------------------------------------ the walk

  /** requiredSet */
  method RequiredSet(v: Json) returns (r: Result<set<string>, Kind>)
    ensures r.Success? <==> RequiredOk(v)
    ensures r.Success? ==> r.value == Required(v)
    ensures r.Failure? ==> r.error == InvalidRequired
  {
    if v.Null? { return Success({}); }
    if !v.Arr? { return Failure(InvalidRequired); }
    var names: set<string> := {};
    var i := 0;
    while i < |v.items|
      invariant 0 <= i <= |v.items|
      invariant forall j :: 0 <= j < i ==> v.items[j].Str?
      invariant names == set e | e in v.items[..i] && e.Str? :: e.s
    {
      if !v.items[i].Str? { return Failure(InvalidRequired); }
      names := names + {v.items[i].s};
      assert v.items[..i + 1] == v.items[..i] + [v.items[i]];
      i := i + 1;
    }
    assert v.items[..i] == v.items;
    return Success(names);
  }

  /** The checks on one object that need no recursion. The source interleaves them
      with the recursion below; that decides which of several errors is reported,
      not whether there is one. */
  method CheckLocal(ghost root: Json, f: map<string, Json>, ghost refs: set<string>) returns (error: Option<Kind>)
    ensures error.None? <==> LocalOk(f)
    ensures error.Some? ==> Defect(root, Obj(f), refs, error.value)
  {
    if "$dynamicRef" in f { return Some(UnsupportedDynamicRef); }
    if "$vocabulary" in f { return Some(UnsupportedVocabulary); }
    if "properties" in f {
      if !f["properties"].Obj? { return Some(InvalidProperties); }
      var required := RequiredSet(At(f, "required"));
      if required.Failure? { return Some(required.error); }
      var names := f["properties"].fields.Keys;
      while names != {}
        invariant names <= f["properties"].fields.Keys
        invariant forall n :: n in f["properties"].fields && n !in names ==> n in required.value
        decreases |names|
      {
        var name :| name in names;
        if name !in required.value { return Some(OptionalProperty); }
        names := names - {name};
      }
    }
    if "allOf" in f && !f["allOf"].Arr? { return Some(InvalidSubschemas); }
    if "anyOf" in f && !f["anyOf"].Arr? { return Some(InvalidSubschemas); }
    if "oneOf" in f && !f["oneOf"].Arr? { return Some(InvalidSubschemas); }
    if "prefixItems" in f && !f["prefixItems"].Arr? { return Some(InvalidSubschemas); }
    if "dependencies" in f && !f["dependencies"].Obj? { return Some(InvalidDependencies); }
    return None;
  }

  /** The walk. It visits subschemas in any order, so no order of map iteration
      changes whether it succeeds, and reports a defect it reached. */
  method Walk(root: Json, v: Json, refs: set<string>) returns (error: Option<Kind>)
    requires RefStrings(v) <= RefStrings(root)
    ensures error.None? <==> Admits(root, v, refs)
    ensures error.Some? ==> Reaches(root, v, refs, error.value)
    decreases |RefStrings(root) - refs|, v, 1
  {
    hide Children, LocalOk, RefStrings, Target;
    if v.Bool? { return None; }
    if !v.Obj? { return Some(InvalidSubschema); }
    var f := v.fields;
    if "$ref" in f {
      if !f["$ref"].Str? { return Some(InvalidRef); }
      var ref := f["$ref"].s;
      if ref == "" || ref[0] != '#' { NotLocal(root, ref); return Some(ExternalRef); }
      if ref in refs { return Some(CyclicRef); }
      var resolved := Pointer.ResolveLocalRef(root, ref);
      if resolved.None? { return Some(UnresolvableRef); }
      TargetInside(root, ref);
      RefAmong(f);
      FewerRefs(root, refs, ref);
      assert resolved.value == Target(root, ref) by { IsTarget(root, ref); }
      var failed := Walk(root, resolved.value, refs + {ref});
      if failed.Some? { return failed; }
    }
    error := CheckLocal(root, f, refs);
    if error.None? { error := WalkAll(root, f, Children(f), refs); }
  }

  lemma IsTarget(root: Json, ref: string)
    requires Pointer.Resolve(root, ref).Some?
    ensures Target(root, ref) == Pointer.Resolve(root, ref).value
  {
  }

  lemma NotLocal(root: Json, ref: string)
    requires ref == "" || ref[0] != '#'
    ensures Pointer.Resolve(root, ref).None?
  {
    if |ref| >= 2 { assert ref[..2][0] == ref[0]; }
  }

  method WalkAll(root: Json, f: map<string, Json>, children: set<Json>, refs: set<string>) returns (error: Option<Kind>)
    requires RefStrings(Obj(f)) <= RefStrings(root) && children <= Children(f)
    ensures forall c <- children :: RefStrings(c) <= RefStrings(root)
    ensures error.None? <==> forall c <- children :: Admits(root, c, refs)
    ensures error.Some? ==> exists c <- children :: Reaches(root, c, refs, error.value)
    decreases |RefStrings(root) - refs|, Obj(f), 0
  {
    hide Children, Admits, Reaches, RefStrings;
    forall c | c in children ensures c < Obj(f) && RefStrings(c) <= RefStrings(root) { ChildInside(f, c); }
    var todo := children;
    while todo != {}
      invariant todo <= children
      invariant forall c :: c in children && c !in todo ==> Admits(root, c, refs)
      decreases |todo|
    {
      var c :| c in todo;
      error := Walk(root, c, refs);
      if error.Some? { return; }
      todo := todo - {c};
    }
    return None;
  }
}
