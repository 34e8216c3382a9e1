/** The name resolver for generated definitions
    (codexsdk/internal/protocolgen/type_plan.go): two definitions share a Go name
    only when they are the same type. */
module Resolver {
  import opened Wrappers
  import opened StringOrder
  import opened Naming

  datatype Kind =
    | Unsupported | TaggedUnion | MixedUnion | UntaggedObjectUnion | Struct | ScalarAlias | ScalarUnion | StringEnum

  /** A planned type. `top` says that it becomes a generated top-level type, and
      `selected` names the definitions chosen for generation. */
  datatype TypePlan = TypePlan(typeName: string, schemaPath: string, top: bool, schema: Schema, selected: set<string>)

  datatype Source = Source(schema: Schema, kind: Kind, parent: string, path: string)

  datatype TopLevel = TopLevel(kind: Kind, shape: Schema)

  const MARK := "#/definitions/"

  function DefinitionPath(schemaPath: string, name: string): string { schemaPath + MARK + name }

  /** Is this definition of the i-th type a source of names? */
  predicate IsSource(plan: seq<TypePlan>, classify: Schema -> Kind, i: int, name: string) {
    && 0 <= i < |plan| && plan[i].schema.Node?
    && name in plan[i].schema.definitions && name in plan[i].selected
    && classify(plan[i].schema.definitions[name]) != Unsupported
  }

  function SourceAt(plan: seq<TypePlan>, classify: Schema -> Kind, i: int, name: string): Source
    requires IsSource(plan, classify, i, name)
  {
    var schema := plan[i].schema.definitions[name];
    Source(schema, classify(schema), plan[i].typeName, DefinitionPath(plan[i].schemaPath, name))
  }

  /** Every document is planned once, and file paths hold no fragment mark. */
  ghost predicate Documents(plan: seq<TypePlan>) {
    && (forall i, j :: 0 <= i < j < |plan| ==> plan[i].schemaPath != plan[j].schemaPath)
    && forall i :: 0 <= i < |plan| ==> '#' !in plan[i].schemaPath
  }

  lemma {:induction false} PathsDistinct(a: string, m: string, b: string, n: string)
    requires '#' !in a && '#' !in b && DefinitionPath(a, m) == DefinitionPath(b, n)
    ensures a == b && m == n
  {
    var p := DefinitionPath(a, m);
    assert p[|a|] == '#' && p[|b|] == '#';
    assert forall k :: 0 <= k < |a| ==> p[k] == a[k] && a[k] in a;
    assert forall k :: 0 <= k < |b| ==> p[k] == b[k] && b[k] in b;
    assert |a| == |b|;
    assert p[..|a|] == a && p[..|b|] == b;
    assert p[|a| + |MARK|..] == m && p[|b| + |MARK|..] == n;
  }

  // ------------------------------------------------------------ naming one base

  type Signature = (Kind, Schema)

  function Sig(s: Source): Signature { (s.kind, s.schema) }

  datatype State = State(used: set<string>, names: map<string, string>, reuses: set<string>)

  predicate Matches(s: Source, top: Option<TopLevel>) {
    top.Some? && s.kind == top.value.kind && Strip(s.schema) == top.value.shape
  }

  function Reuse(base: string, sources: seq<Source>, top: Option<TopLevel>, st: State): State {
    if sources == [] then st
    else
      var before := Reuse(base, sources[..|sources| - 1], top, st);
      var s := sources[|sources| - 1];
      if Matches(s, top) then State(before.used, before.names[s.path := base], before.reuses + {s.path}) else before
  }

  function Remaining(sources: seq<Source>, top: Option<TopLevel>): (r: seq<Source>)
    ensures forall s :: s in r <==> s in sources && !Matches(s, top)
  {
    if sources == [] then []
    else
      var before := Remaining(sources[..|sources| - 1], top);
      var s := sources[|sources| - 1];
      assert sources == sources[..|sources| - 1] + [s];
      if Matches(s, top) then before else before + [s]
  }

  /** The signatures present, in the order of their first source. */
  function Signatures(sources: seq<Source>): (r: seq<Signature>)
    ensures forall g :: g in r <==> exists s :: s in sources && Sig(s) == g
    ensures forall i, j :: 0 <= i < j < |r| ==> r[i] != r[j]
  {
    if sources == [] then []
    else
      var before := Signatures(sources[..|sources| - 1]);
      var s := sources[|sources| - 1];
      assert sources == sources[..|sources| - 1] + [s];
      if Sig(s) in before then before else before + [Sig(s)]
  }

  function Group(sources: seq<Source>, g: Signature): (r: seq<Source>)
    ensures forall s :: s in r <==> s in sources && Sig(s) == g
    ensures g in Signatures(sources) ==> r != []
  {
    if sources == [] then []
    else
      var before := Group(sources[..|sources| - 1], g);
      var s := sources[|sources| - 1];
      assert sources == sources[..|sources| - 1] + [s];
      if Sig(s) == g then before + [s] else before
  }

  function AssignAll(group: seq<Source>, name: string, names: map<string, string>): map<string, string> {
    if group == [] then names
    else AssignAll(group[..|group| - 1], name, names)[group[|group| - 1].path := name]
  }

  function ClaimFor(group: seq<Source>, preferred: string, st: State): State {
    var name := Fresh(preferred, st.used);
    State(st.used + {name}, AssignAll(group, name, st.names), st.reuses)
  }

  function ScopedName(parent: string, base: string): string { parent + base }

  function NameGroups(base: string, sources: seq<Source>, sigs: seq<Signature>, st: State): State
    requires forall g <- sigs :: g in Signatures(sources)
  {
    if sigs == [] then st
    else
      var before := NameGroups(base, sources, sigs[..|sigs| - 1], st);
      var group := Group(sources, sigs[|sigs| - 1]);
      assert sigs[|sigs| - 1] in sigs;
      ClaimFor(group, ScopedName(group[0].parent, base), before)
  }

  /** All definitions of one base name, sources in the order of their paths. */
  function Settle(base: string, sources: seq<Source>, top: Option<TopLevel>, st: State): State {
    var reused := Reuse(base, sources, top, st);
    var rest := Remaining(sources, top);
    if rest == [] then reused
    else if |Signatures(rest)| == 1 then ClaimFor(rest, base, reused)
    else NameGroups(base, rest, Signatures(rest), reused)
  }

  // ------------------------------------------------------------- what names mean

  /** Names given so far are genuine: a reused name is that of a top-level type of
      the same kind and shape; any other name is no top-level name; equal names
      have equal kind and like schemas. */
  ghost predicate Genuine(st: State, info: map<string, Source>, tops: map<string, TopLevel>, topNames: set<string>) {
    && st.names.Keys <= info.Keys && st.reuses <= st.names.Keys && topNames <= st.used && tops.Keys <= topNames
    && (forall p <- st.names :: st.names[p] in st.used)
    && (forall p <- st.reuses :: st.names[p] in tops && Matches(info[p], Some(tops[st.names[p]])))
    && (forall p <- st.names :: p !in st.reuses ==> st.names[p] !in topNames)
    && (forall p <- st.names, q <- st.names :: st.names[p] == st.names[q] ==> SameType(info[p], info[q]))
  }

  predicate SameType(s: Source, t: Source) { s.kind == t.kind && Strip(s.schema) == Strip(t.schema) }

  ghost function PathSet(sources: seq<Source>): set<string> { set s | s in sources :: s.path }

  ghost predicate Known(sources: seq<Source>, info: map<string, Source>) {
    forall s <- sources :: s.path in info && info[s.path] == s
  }

  /** The paths that take the top-level name over. */
  ghost function Matching(sources: seq<Source>, top: Option<TopLevel>): set<string> {
    set s | s in sources && Matches(s, top) :: s.path
  }

  lemma {:induction false} Assigned(group: seq<Source>, name: string, names: map<string, string>)
    ensures AssignAll(group, name, names).Keys == names.Keys + PathSet(group)
    ensures forall p <- AssignAll(group, name, names) ::
              AssignAll(group, name, names)[p] == if p in PathSet(group) then name else names[p]
    decreases |group|
  {
    if group == [] {
    } else {
      var init, last := group[..|group| - 1], group[|group| - 1];
      assert group == init + [last];
      Assigned(init, name, names);
      assert PathSet(group) == PathSet(init) + {last.path};
    }
  }

  /** r names the paths in `named` besides those st names, those in `reused` by the
      base name taken over. */
  ghost predicate Extends(st: State, r: State, base: string, named: set<string>, reused: set<string>) {
    && r.names.Keys == st.names.Keys + named && r.reuses == st.reuses + reused && reused <= named
    && (forall p <- st.names :: p in r.names && r.names[p] == st.names[p])
    && (forall p <- reused :: r.names[p] == base)
  }

  lemma ExtendsNone(st: State, base: string)
    ensures Extends(st, st, base, {}, {})
  {
  }

  lemma ExtendsJoin(a: State, b: State, c: State, base: string, n1: set<string>, r1: set<string>, n2: set<string>,
          r2: set<string>)
    requires Extends(a, b, base, n1, r1) && Extends(b, c, base, n2, r2)
    ensures Extends(a, c, base, n1 + n2, r1 + r2)
  {
  }

  lemma Unnamed(a: State, b: State, base: string, named: set<string>, reused: set<string>, p: string)
    requires Extends(a, b, base, named, reused) && p !in a.names && p !in named
    ensures p !in b.names
  {
  }

  lemma ClaimGenuine(group: seq<Source>, preferred: string, st: State, base: string, info: map<string, Source>,
          tops: map<string, TopLevel>, topNames: set<string>)
    requires Genuine(st, info, tops, topNames) && Known(group, info) && PathSet(group) !! st.names.Keys
    requires forall s <- group, t <- group :: Sig(s) == Sig(t)
    ensures var r := ClaimFor(group, preferred, st);
            Genuine(r, info, tops, topNames) && Extends(st, r, base, PathSet(group), {})
  {
    hide Strip, AssignAll, Fresh;
    var name := Fresh(preferred, st.used);
    Assigned(group, name, st.names);
    var r := ClaimFor(group, preferred, st);
    forall p <- r.names, q <- r.names | r.names[p] == r.names[q] ensures SameType(info[p], info[q]) {
      if p in PathSet(group) && q in PathSet(group) {
        assert info[p] in group && info[q] in group;
        assert Sig(info[p]) == Sig(info[q]);
      }
    }
  }

  lemma ReusedOne(s: Source, base: string, st: State, info: map<string, Source>, tops: map<string, TopLevel>,
          topNames: set<string>)
    requires Genuine(st, info, tops, topNames) && s.path in info && info[s.path] == s && s.path !in st.names
    requires base in tops && Matches(s, Some(tops[base]))
    ensures var r := State(st.used, st.names[s.path := base], st.reuses + {s.path});
            Genuine(r, info, tops, topNames) && Extends(st, r, base, {s.path}, {s.path})
  {
    hide Strip;
  }

  lemma Snoc(init: seq<Source>, s: Source, top: Option<TopLevel>, info: map<string, Source>)
    requires Known(init + [s], info)
    ensures Known(init, info) && s.path in info && info[s.path] == s
    ensures PathSet(init + [s]) == PathSet(init) + {s.path} && Matching(init, top) <= PathSet(init)
    ensures Matching(init + [s], top) == Matching(init, top) + if Matches(s, top) then {s.path} else {}
    ensures (forall i :: 0 <= i < |init| ==> init[i].path != s.path) ==> s.path !in PathSet(init)
  {
    hide Matches;
  }

  lemma {:induction false} ReuseGenuine(base: string, sources: seq<Source>, top: Option<TopLevel>, st: State,
          info: map<string, Source>, tops: map<string, TopLevel>, topNames: set<string>)
    requires Genuine(st, info, tops, topNames) && Known(sources, info) && PathSet(sources) !! st.names.Keys
    requires forall i, j :: 0 <= i < j < |sources| ==> sources[i].path != sources[j].path
    requires top == if base in tops then Some(tops[base]) else None
    ensures var r := Reuse(base, sources, top, st);
            && Genuine(r, info, tops, topNames) && Extends(st, r, base, Matching(sources, top), Matching(sources, top))
    decreases |sources|
  {
    hide Genuine, Extends, Known, PathSet, Matches;
    if sources == [] {
      ExtendsNone(st, base);
      assert Matching(sources, top) == {};
    } else {
      hide Matching;
      var init, s := sources[..|sources| - 1], sources[|sources| - 1];
      assert sources == init + [s];
      Snoc(init, s, top, info);
      ReuseGenuine(base, init, top, st, info, tops, topNames);
      var before := Reuse(base, init, top, st);
      if Matches(s, top) {
        TopPresent(s, top);
        Unnamed(st, before, base, Matching(init, top), Matching(init, top), s.path);
        ReusedOne(s, base, before, info, tops, topNames);
        ExtendsJoin(st, before, Reuse(base, sources, top, st), base, Matching(init, top), Matching(init, top),
            {s.path}, {s.path});
      } else {
        assert Matching(sources, top) == Matching(init, top);
      }
    }
  }

  lemma TopPresent(s: Source, top: Option<TopLevel>)
    requires Matches(s, top)
    ensures top.Some?
  {
  }

  /** The paths of the sources with one of these signatures. */
  ghost function Signed(sources: seq<Source>, sigs: seq<Signature>): set<string> {
    set s | s in sources && Sig(s) in sigs :: s.path
  }

  lemma GroupSplits(sources: seq<Source>, init: seq<Signature>, g: Signature, info: map<string, Source>)
    requires Known(sources, info) && g !in init
    ensures Known(Group(sources, g), info) && Signed(sources, init) !! PathSet(Group(sources, g))
    ensures Signed(sources, init + [g]) == Signed(sources, init) + PathSet(Group(sources, g))
    ensures PathSet(Group(sources, g)) <= PathSet(sources)
  {
    hide Group;
  }

  lemma {:induction false} GroupsGenuine(base: string, sources: seq<Source>, sigs: seq<Signature>, st: State,
          info: map<string, Source>, tops: map<string, TopLevel>, topNames: set<string>)
    requires Genuine(st, info, tops, topNames) && Known(sources, info) && PathSet(sources) !! st.names.Keys
    requires forall g <- sigs :: g in Signatures(sources)
    requires forall i, j :: 0 <= i < j < |sigs| ==> sigs[i] != sigs[j]
    ensures var r := NameGroups(base, sources, sigs, st);
            Genuine(r, info, tops, topNames) && Extends(st, r, base, Signed(sources, sigs), {})
    decreases |sigs|
  {
    hide Genuine, Extends, Known, Signatures, PathSet, Group, ClaimFor;
    if sigs == [] {
      ExtendsNone(st, base);
      assert Signed(sources, sigs) == {};
    } else {
      hide Signed;
      var init, g := sigs[..|sigs| - 1], sigs[|sigs| - 1];
      assert sigs == init + [g];
      assert g !in init;
      GroupsGenuine(base, sources, init, st, info, tops, topNames);
      var group := Group(sources, g);
      var before := NameGroups(base, sources, init, st);
      GroupSplits(sources, init, g, info);
      forall p | p in PathSet(group) ensures p !in before.names {
        Unnamed(st, before, base, Signed(sources, init), {}, p);
      }
      ClaimGenuine(group, ScopedName(group[0].parent, base), before, base, info, tops, topNames);
      ExtendsJoin(st, before, NameGroups(base, sources, sigs, st), base, Signed(sources, init), {}, PathSet(group), {});
      var none: set<string> := {};
      assert none + {} == none;
    }
  }

  lemma RestSplits(sources: seq<Source>, top: Option<TopLevel>, info: map<string, Source>)
    requires Known(sources, info)
    ensures var rest := Remaining(sources, top);
            && Known(rest, info) && PathSet(rest) !! Matching(sources, top) && PathSet(rest) <= PathSet(sources)
            && PathSet(sources) == Matching(sources, top) + PathSet(rest) && (rest == [] ==> PathSet(rest) == {})
  {
    hide Matches;
    var rest := Remaining(sources, top);
    forall p | p in PathSet(sources) ensures p in PathSet(rest) || p in Matching(sources, top) {
      var s :| s in sources && s.path == p;
      if !Matches(s, top) { assert s in rest; }
    }
  }

  lemma AllSigned(rest: seq<Source>)
    ensures Signed(rest, Signatures(rest)) == PathSet(rest)
    ensures |Signatures(rest)| == 1 ==> forall s <- rest, t <- rest :: Sig(s) == Sig(t)
  {
    var sigs := Signatures(rest);
    assert forall s <- rest :: Sig(s) in sigs;
    assert |sigs| == 1 ==> forall g <- sigs :: g == sigs[0];
  }

  /** Settling a base name keeps names genuine, names exactly its sources, and
      reuses the top-level name exactly for those of its kind and shape. */
  lemma SettleGenuine(base: string, sources: seq<Source>, top: Option<TopLevel>, st: State, info: map<string, Source>,
          tops: map<string, TopLevel>, topNames: set<string>)
    requires Genuine(st, info, tops, topNames) && Known(sources, info) && PathSet(sources) !! st.names.Keys
    requires forall i, j :: 0 <= i < j < |sources| ==> sources[i].path != sources[j].path
    requires top == if base in tops then Some(tops[base]) else None
    ensures var r := Settle(base, sources, top, st);
            Genuine(r, info, tops, topNames) && Extends(st, r, base, PathSet(sources), Matching(sources, top))
  {
    hide Genuine, Reuse, Matches, Remaining, PathSet, Matching, Known, Extends, Signatures, Signed, ClaimFor;
    hide NameGroups;
    ReuseGenuine(base, sources, top, st, info, tops, topNames);
    var reused, rest := Reuse(base, sources, top, st), Remaining(sources, top);
    RestSplits(sources, top, info);
    forall p | p in PathSet(rest) ensures p !in reused.names {
      Unnamed(st, reused, base, Matching(sources, top), Matching(sources, top), p);
    }
    if rest != [] {
      AllSigned(rest);
      if |Signatures(rest)| == 1 {
        ClaimGenuine(rest, base, reused, base, info, tops, topNames);
      } else {
        GroupsGenuine(base, rest, Signatures(rest), reused, info, tops, topNames);
      }
      var all, mine := PathSet(sources), Matching(sources, top);
      ExtendsJoin(st, reused, Settle(base, sources, top, st), base, mine, mine, PathSet(rest), {});
      assert mine + {} == mine;
    } else {
      assert PathSet(sources) == Matching(sources, top);
    }
  }

  // ------------------------------------------------------------- the whole plan

  function TopNames(plan: seq<TypePlan>): set<string> {
    set i | 0 <= i < |plan| && plan[i].top && plan[i].typeName != "" :: plan[i].typeName
  }

  /** The top-level types whose shape can be taken over; a later one wins. */
  function Tops(plan: seq<TypePlan>, classify: Schema -> Kind): (r: map<string, TopLevel>)
    ensures r.Keys <= TopNames(plan)
  {
    if plan == [] then map[]
    else
      var before := Tops(plan[..|plan| - 1], classify);
      var t := plan[|plan| - 1];
      assert forall x :: x in TopNames(plan[..|plan| - 1]) ==> x in TopNames(plan);
      if t.top && t.typeName != "" && classify(t.schema) != Unsupported
      then before[t.typeName := TopLevel(classify(t.schema), Strip(t.schema))]
      else before
  }

  function TopFor(tops: map<string, TopLevel>, base: string): Option<TopLevel> {
    if base in tops then Some(tops[base]) else None
  }

  function PathAt(plan: seq<TypePlan>, i: nat, name: string): string
    requires i < |plan|
  {
    DefinitionPath(plan[i].schemaPath, name)
  }

  ghost function Bases(plan: seq<TypePlan>, classify: Schema -> Kind): set<string> {
    set i, name | 0 <= i < |plan| && plan[i].schema.Node? && name in plan[i].schema.definitions
        && IsSource(plan, classify, i, name) :: name
  }

  /** The sources of one base name by path. */
  ghost function SourcesOf(plan: seq<TypePlan>, classify: Schema -> Kind, base: string): map<string, Source> {
    var paths := set i | 0 <= i < |plan| && IsSource(plan, classify, i, base) :: PathAt(plan, i, base);
    map p | p in paths :: (var i: nat :| i < |plan| && IsSource(plan, classify, i, base) && PathAt(plan, i, base) == p;
                           SourceAt(plan, classify, i, base))
  }

  /** The sources in the order of their paths. */
  ghost function Listed(sources: map<string, Source>): seq<Source> {
    var paths := Sorted(sources.Keys);
    seq(|paths|, k requires 0 <= k < |paths| => assert paths[k] in paths; sources[paths[k]])
  }

  ghost function SettleAll(plan: seq<TypePlan>, classify: Schema -> Kind, bases: seq<string>): State {
    if bases == [] then State(TopNames(plan), map[], {})
    else
      var base := bases[|bases| - 1];
      Settle(base, Listed(SourcesOf(plan, classify, base)), TopFor(Tops(plan, classify), base),
             SettleAll(plan, classify, bases[..|bases| - 1]))
  }

  ghost function Resolved(plan: seq<TypePlan>, classify: Schema -> Kind): State {
    SettleAll(plan, classify, Sorted(Bases(plan, classify)))
  }

  lemma SourceIsOne(plan: seq<TypePlan>, classify: Schema -> Kind, i: nat, m: string, j: nat, n: string)
    requires Documents(plan) && IsSource(plan, classify, i, m) && IsSource(plan, classify, j, n)
    requires PathAt(plan, i, m) == PathAt(plan, j, n)
    ensures i == j && m == n
  {
    PathsDistinct(plan[i].schemaPath, m, plan[j].schemaPath, n);
  }

  lemma SourceFound(plan: seq<TypePlan>, classify: Schema -> Kind, i: nat, base: string)
    requires Documents(plan) && IsSource(plan, classify, i, base)
    ensures PathAt(plan, i, base) in SourcesOf(plan, classify, base)
    ensures SourcesOf(plan, classify, base)[PathAt(plan, i, base)] == SourceAt(plan, classify, i, base)
  {
    var p := PathAt(plan, i, base);
    var sources := SourcesOf(plan, classify, base);
    var j: nat :| j < |plan| && IsSource(plan, classify, j, base) && PathAt(plan, j, base) == p
                  && sources[p] == SourceAt(plan, classify, j, base);
    SourceIsOne(plan, classify, i, base, j, base);
  }

  /** Every source of the plan by path. */
  ghost function Info(plan: seq<TypePlan>, classify: Schema -> Kind): map<string, Source> {
    var paths := set b, p | b in Bases(plan, classify) && p in SourcesOf(plan, classify, b) :: p;
    map p | p in paths :: (var b :| b in Bases(plan, classify) && p in SourcesOf(plan, classify, b);
                           SourcesOf(plan, classify, b)[p])
  }

  lemma InfoFound(plan: seq<TypePlan>, classify: Schema -> Kind, i: nat, base: string)
    requires Documents(plan) && IsSource(plan, classify, i, base)
    ensures base in Bases(plan, classify) && PathAt(plan, i, base) in Info(plan, classify)
    ensures Info(plan, classify)[PathAt(plan, i, base)] == SourceAt(plan, classify, i, base)
  {
    var p := PathAt(plan, i, base);
    SourceFound(plan, classify, i, base);
    var info := Info(plan, classify);
    assert p in info;
    var b :| b in Bases(plan, classify) && p in SourcesOf(plan, classify, b)
        && info[p] == SourcesOf(plan, classify, b)[p];
    var j: nat :| j < |plan| && IsSource(plan, classify, j, b) && PathAt(plan, j, b) == p;
    SourceIsOne(plan, classify, i, base, j, b);
  }

  lemma ListedFacts(sources: map<string, Source>)
    requires forall p <- sources :: sources[p].path == p
    ensures PathSet(Listed(sources)) == sources.Keys
    ensures forall s :: s in Listed(sources) <==> s.path in sources && sources[s.path] == s
    ensures forall i, j :: 0 <= i < j < |Listed(sources)| ==> Listed(sources)[i].path != Listed(sources)[j].path
  {
    var paths, list := Sorted(sources.Keys), Listed(sources);
    forall k | 0 <= k < |list| ensures paths[k] in sources && list[k] == sources[paths[k]] { assert paths[k] in paths; }
    forall p <- sources ensures sources[p] in list {
      assert p in paths;
      var k :| 0 <= k < |paths| && paths[k] == p;
      assert list[k] == sources[p];
    }
    forall i, j | 0 <= i < j < |list| ensures list[i].path != list[j].path { BelowTotal(paths[i], paths[j]); }
    forall p ensures p in PathSet(list) <==> p in sources {
      if p in sources { assert sources[p] in list && sources[p].path == p; }
    }
  }

  /** What holds of a source once these base names are settled. */
  ghost predicate SettledAt(plan: seq<TypePlan>, classify: Schema -> Kind, bases: seq<string>, st: State, i: nat,
          n: string)
    requires IsSource(plan, classify, i, n)
  {
    var p := PathAt(plan, i, n);
    && (p in st.names <==> n in bases)
    && (p in st.reuses <==> n in bases && Matches(SourceAt(plan, classify, i, n), TopFor(Tops(plan, classify), n)))
    && (p in st.reuses ==> p in st.names && st.names[p] == n)
  }

  lemma {:induction false} AllGenuine(plan: seq<TypePlan>, classify: Schema -> Kind, bases: seq<string>)
    requires Documents(plan) && forall i, j :: 0 <= i < j < |bases| ==> bases[i] != bases[j]
    requires forall b <- bases :: b in Bases(plan, classify)
    ensures var st := SettleAll(plan, classify, bases);
            && Genuine(st, Info(plan, classify), Tops(plan, classify), TopNames(plan))
            && forall i: nat, n: string :: IsSource(plan, classify, i, n) ==> SettledAt(plan, classify, bases, st, i, n)
    decreases |bases|
  {
    hide Documents, Info, Strip;
    if bases == [] {
    } else {
      hide Genuine, Extends, Matches, Settle, Bases, Tops, TopFor, PathAt, SourceAt;
      var init, base := bases[..|bases| - 1], bases[|bases| - 1];
      assert bases == init + [base];
      assert base !in init;
      AllGenuine(plan, classify, init);
      BaseGenuine(plan, classify, base, init, SettleAll(plan, classify, init));
    }
  }

  lemma BaseKnown(plan: seq<TypePlan>, classify: Schema -> Kind, base: string)
    requires Documents(plan) && base in Bases(plan, classify)
    ensures var list := Listed(SourcesOf(plan, classify, base));
            && Known(list, Info(plan, classify))
            && (forall i, j :: 0 <= i < j < |list| ==> list[i].path != list[j].path)
            && (forall p :: p in PathSet(list) <==>
                exists i: nat :: IsSource(plan, classify, i, base) && PathAt(plan, i, base) == p)
  {
    var sources := SourcesOf(plan, classify, base);
    forall p <- sources ensures p in Info(plan, classify) && Info(plan, classify)[p] == sources[p]
        && sources[p].path == p {
      var i: nat :| i < |plan| && IsSource(plan, classify, i, base) && PathAt(plan, i, base) == p;
      InfoFound(plan, classify, i, base);
      SourceFound(plan, classify, i, base);
    }
    ListedFacts(sources);
  }

  lemma BaseGenuine(plan: seq<TypePlan>, classify: Schema -> Kind, base: string, done: seq<string>, st: State)
    requires Documents(plan) && base in Bases(plan, classify) && base !in done
    requires Genuine(st, Info(plan, classify), Tops(plan, classify), TopNames(plan))
    requires forall i: nat, n: string :: IsSource(plan, classify, i, n) ==> SettledAt(plan, classify, done, st, i, n)
    ensures var r := Settle(base, Listed(SourcesOf(plan, classify, base)), TopFor(Tops(plan, classify), base), st);
            && Genuine(r, Info(plan, classify), Tops(plan, classify), TopNames(plan))
            && forall i: nat, n: string :: IsSource(plan, classify, i, n) ==>
                SettledAt(plan, classify, done + [base], r, i, n)
  {
    hide Genuine, Info, Listed, SourcesOf, Tops, Settle, SourceAt, PathAt, Matches, Documents, Bases;
    hide SettledAt, Known, PathSet, Matching, Extends;
    var info, list, top := Info(plan, classify), Listed(SourcesOf(plan, classify, base)),
        TopFor(Tops(plan, classify), base);
    BaseKnown(plan, classify, base);
    forall p | p in PathSet(list) ensures p !in st.names {
      var i: nat :| IsSource(plan, classify, i, base) && PathAt(plan, i, base) == p;
      NotYet(plan, classify, done, st, i, base);
    }
    SettleGenuine(base, list, top, st, info, Tops(plan, classify), TopNames(plan));
    var r := Settle(base, list, top, st);
    forall i: nat, n: string | IsSource(plan, classify, i, n)
        ensures SettledAt(plan, classify, done + [base], r, i, n) {
      InfoFound(plan, classify, i, n);
      if n == base {
        assert PathAt(plan, i, n) in PathSet(list);
      } else if PathAt(plan, i, n) in PathSet(list) {
        var j: nat :| IsSource(plan, classify, j, base) && PathAt(plan, j, base) == PathAt(plan, i, n);
        SourceIsOne(plan, classify, i, n, j, base);
      }
      StillSettled(plan, classify, base, done, st, r, list, info, i, n);
    }
  }

  lemma NotYet(plan: seq<TypePlan>, classify: Schema -> Kind, done: seq<string>, st: State, i: nat, n: string)
    requires IsSource(plan, classify, i, n) && SettledAt(plan, classify, done, st, i, n) && n !in done
    ensures PathAt(plan, i, n) !in st.names
  {
  }

  lemma StillSettled(plan: seq<TypePlan>, classify: Schema -> Kind, base: string, done: seq<string>, st: State,
          r: State, list: seq<Source>, info: map<string, Source>, i: nat, n: string)
    requires IsSource(plan, classify, i, n) && SettledAt(plan, classify, done, st, i, n) && base !in done
    requires Known(list, info)
    requires Extends(st, r, base, PathSet(list), Matching(list, TopFor(Tops(plan, classify), base)))
    requires PathAt(plan, i, n) in info && info[PathAt(plan, i, n)] == SourceAt(plan, classify, i, n)
    requires PathAt(plan, i, n) in PathSet(list) <==> n == base
    ensures SettledAt(plan, classify, done + [base], r, i, n)
  {
    hide SourceAt, PathAt, Matches, Tops, TopFor;
    var p, top := PathAt(plan, i, n), TopFor(Tops(plan, classify), base);
    if n == base {
      assert info[p] in list;
      assert p in Matching(list, top) <==> Matches(info[p], top);
    }
  }

  lemma SettledEverywhere(plan: seq<TypePlan>, classify: Schema -> Kind)
    requires Documents(plan)
    ensures var st := Resolved(plan, classify);
            && Genuine(st, Info(plan, classify), Tops(plan, classify), TopNames(plan))
            && forall i: nat, n: string :: IsSource(plan, classify, i, n)
                 ==> SettledAt(plan, classify, Sorted(Bases(plan, classify)), st, i, n)
  {
    hide Sorted, Genuine, SettledAt, Bases, SettleAll, Documents, Info, Tops;
    var bases := Sorted(Bases(plan, classify));
    forall a, b | 0 <= a < b < |bases| ensures bases[a] != bases[b] { BelowTotal(bases[a], bases[b]); }
    AllGenuine(plan, classify, bases);
  }

  lemma SourceSettled(plan: seq<TypePlan>, classify: Schema -> Kind, i: nat, n: string)
    requires Documents(plan) && IsSource(plan, classify, i, n)
    ensures var st, p := Resolved(plan, classify), PathAt(plan, i, n);
            && p in st.names && (p in st.reuses <==>
                Matches(SourceAt(plan, classify, i, n), TopFor(Tops(plan, classify), n)))
            && (p in st.reuses ==> st.names[p] == n)
  {
    hide Sorted, Bases, Genuine, Resolved, Documents, Info, Matches, Tops, TopFor, PathAt, SourceAt;
    SettledEverywhere(plan, classify);
    InfoFound(plan, classify, i, n);
    assert SettledAt(plan, classify, Sorted(Bases(plan, classify)), Resolved(plan, classify), i, n);
  }

  lemma GenuinePair(st: State, info: map<string, Source>, tops: map<string, TopLevel>, topNames: set<string>,
          p: string, q: string)
    requires Genuine(st, info, tops, topNames) && p in st.names
    ensures p in info && (p in st.reuses || st.names[p] !in topNames)
    ensures q in st.names && st.names[p] == st.names[q] ==> q in info && SameType(info[p], info[q])
  {
  }

  /** Names are injective up to shape: exactly the sources are named; two of them
      share a name only when they have one kind and like schemas; the name of a
      top-level type is taken over exactly by the definitions of that name, kind and
      shape, and no other definition is named like a top-level type. */
  lemma NamesAreFaithful(plan: seq<TypePlan>, classify: Schema -> Kind, i: nat, m: string, j: nat, n: string)
    requires Documents(plan) && IsSource(plan, classify, i, m) && IsSource(plan, classify, j, n)
    ensures var st, p, q := Resolved(plan, classify), PathAt(plan, i, m), PathAt(plan, j, n);
            && p in st.names && q in st.names
            && (st.names[p] == st.names[q] ==>
                  classify(plan[i].schema.definitions[m]) == classify(plan[j].schema.definitions[n])
                  && Alike(plan[i].schema.definitions[m], plan[j].schema.definitions[n]))
            && (p in st.reuses <==> Matches(SourceAt(plan, classify, i, m), TopFor(Tops(plan, classify), m)))
            && (if p in st.reuses then st.names[p] == m else st.names[p] !in TopNames(plan))
  {
    hide Info, Bases, SettledAt, Genuine, Strip, Alike, Documents, Resolved, Matches, Tops, TopFor, TopNames, PathAt;
    SourceSettled(plan, classify, i, m);
    SourceSettled(plan, classify, j, n);
    SettledEverywhere(plan, classify);
    InfoFound(plan, classify, i, m);
    InfoFound(plan, classify, j, n);
    StrippedIffAlike(plan[i].schema.definitions[m], plan[j].schema.definitions[n]);
    GenuinePair(Resolved(plan, classify), Info(plan, classify), Tops(plan, classify), TopNames(plan),
        PathAt(plan, i, m), PathAt(plan, j, n));
  }

  /** Nothing else is named. */
  lemma OnlySourcesNamed(plan: seq<TypePlan>, classify: Schema -> Kind, p: string)
    requires Documents(plan) && p in Resolved(plan, classify).names
    ensures exists i: nat, n: string :: IsSource(plan, classify, i, n) && PathAt(plan, i, n) == p
  {
    hide Info, Bases, SettledAt, Genuine, Documents, Resolved, Tops, TopNames;
    SettledEverywhere(plan, classify);
    GenuinePair(Resolved(plan, classify), Info(plan, classify), Tops(plan, classify), TopNames(plan), p, p);
    InfoIsSource(plan, classify, p);
  }

  lemma InfoIsSource(plan: seq<TypePlan>, classify: Schema -> Kind, p: string)
    requires p in Info(plan, classify)
    ensures exists i: nat, n: string :: IsSource(plan, classify, i, n) && PathAt(plan, i, n) == p
  {
    var b :| b in Bases(plan, classify) && p in SourcesOf(plan, classify, b);
    var i: nat :| i < |plan| && IsSource(plan, classify, i, b) && PathAt(plan, i, b) == p;
  }

  // ---------------------------------------------------------------- the builder

  class DefinitionNames {
    var namesByPath: map<string, string>
    var topLevelReuses: set<string>

    constructor ()
      ensures namesByPath == map[] && topLevelReuses == {}
    {
      namesByPath, topLevelReuses := map[], {};
    }

    ghost function Now(claims: UsedNames): State
      reads this, claims
    {
      State(claims.used, namesByPath, topLevelReuses)
    }

    /** Definitions shaped like the top-level type of their name take its name. */
    method ReuseTopLevel(base: string, sources: seq<Source>, top: TopLevel,
            claims: UsedNames) returns (remaining: seq<Source>)
      modifies this
      ensures Now(claims) == Reuse(base, sources, Some(top), old(Now(claims)))
      ensures remaining == Remaining(sources, Some(top))
    {
      hide Strip;
      remaining := [];
      var i := 0;
      while i < |sources|
        invariant 0 <= i <= |sources|
        invariant Now(claims) == Reuse(base, sources[..i], Some(top), old(Now(claims)))
        invariant remaining == Remaining(sources[..i], Some(top))
      {
        var source := sources[i];
        assert sources[..i + 1][..i] == sources[..i];
        if source.kind == top.kind && Strip(source.schema) == top.shape {
          namesByPath := namesByPath[source.path := base];
          topLevelReuses := topLevelReuses + {source.path};
        } else {
          remaining := remaining + [source];
        }
        i := i + 1;
      }
      assert sources[..i] == sources;
    }

    method Assign(group: seq<Source>, name: string)
      modifies this
      ensures namesByPath == AssignAll(group, name, old(namesByPath)) && topLevelReuses == old(topLevelReuses)
    {
      var i := 0;
      while i < |group|
        invariant 0 <= i <= |group| && namesByPath == AssignAll(group[..i], name, old(namesByPath))
        invariant topLevelReuses == old(topLevelReuses)
      {
        assert group[..i + 1][..i] == group[..i];
        namesByPath := namesByPath[group[i].path := name];
        i := i + 1;
      }
      assert group[..i] == group;
    }

    method SettleBase(base: string, sources: seq<Source>, top: Option<TopLevel>, claims: UsedNames)
      modifies this, claims
      ensures Now(claims) == Settle(base, sources, top, old(Now(claims)))
    {
      hide Fresh, Strip, Reuse, Remaining, Signatures, NameGroups, ClaimFor;
      var remaining := sources;
      if top.Some? {
        remaining := ReuseTopLevel(base, sources, top.value, claims);
      } else {
        NothingReused(base, sources, Now(claims));
      }
      if remaining != [] { NameRest(base, remaining, claims); }
    }

    /** The definitions that take no top-level name over. */
    method NameRest(base: string, remaining: seq<Source>, claims: UsedNames)
      requires remaining != []
      modifies this, claims
      ensures Now(claims) == if |Signatures(remaining)| == 1 then ClaimFor(remaining, base, old(Now(claims)))
                             else NameGroups(base, remaining, Signatures(remaining), old(Now(claims)))
    {
      hide Fresh, Signatures, NameGroups;
      if |remaining| == 1 {
        OneSignature(remaining);
        NameGroup(remaining, base, claims);
        return;
      }
      var sigs, bySignature := GroupSources(remaining);
      if |sigs| == 1 {
        NameGroup(remaining, base, claims);
        return;
      }
      NameEach(base, remaining, sigs, bySignature, claims);
    }

    method NameGroup(group: seq<Source>, preferred: string, claims: UsedNames)
      modifies this, claims
      ensures Now(claims) == ClaimFor(group, preferred, old(Now(claims)))
    {
      hide Fresh, AssignAll;
      var name := claims.Claim(preferred);
      Assign(group, name);
    }

    method NameEach(base: string, remaining: seq<Source>, sigs: seq<Signature>,
            bySignature: map<Signature, seq<Source>>, claims: UsedNames)
      requires sigs == Signatures(remaining)
      requires forall g <- sigs :: g in bySignature && bySignature[g] == Group(remaining, g) && bySignature[g] != []
      modifies this, claims
      ensures Now(claims) == NameGroups(base, remaining, sigs, old(Now(claims)))
    {
      hide Signatures, ClaimFor, Group;
      for i := 0 to |sigs|
        invariant forall k :: 0 <= k < i ==> sigs[k] in Signatures(remaining)
        invariant Now(claims) == NameGroups(base, remaining, sigs[..i], old(Now(claims)))
      {
        assert sigs[..i + 1][..i] == sigs[..i];
        assert sigs[i] in sigs;
        var group := bySignature[sigs[i]];
        NameGroup(group, ScopedName(group[0].parent, base), claims);
      }
      assert sigs[..|sigs|] == sigs;
    }
  }

  lemma {:induction false} NothingReused(base: string, sources: seq<Source>, st: State)
    ensures Reuse(base, sources, None, st) == st && Remaining(sources, None) == sources
    decreases |sources|
  {
    if sources == [] {
    } else {
      assert sources == sources[..|sources| - 1] + [sources[|sources| - 1]];
      NothingReused(base, sources[..|sources| - 1], st);
    }
  }

  lemma OneSignature(sources: seq<Source>)
    requires |sources| == 1
    ensures |Signatures(sources)| == 1
  {
    assert Signatures([]) == [];
    assert sources[..0] == [];
  }

  lemma GroupsSnoc(before: seq<Source>, s: Source)
    ensures Signatures(before + [s]) == Signatures(before) + if Sig(s) in Signatures(before) then [] else [Sig(s)]
    ensures forall g :: Group(before + [s], g) == Group(before, g) + if Sig(s) == g then [s] else []
    ensures Sig(s) !in Signatures(before) ==> Group(before, Sig(s)) == []
  {
    assert (before + [s])[..|before|] == before;
    if Group(before, Sig(s)) != [] {
      assert Group(before, Sig(s))[0] in Group(before, Sig(s));
    }
  }

  /** Sources of one signature, signatures in the order of their first source. */
  method GroupSources(sources: seq<Source>) returns (sigs: seq<Signature>, bySignature: map<Signature, seq<Source>>)
    ensures sigs == Signatures(sources)
    ensures forall g <- sigs :: g in bySignature && bySignature[g] == Group(sources, g) && bySignature[g] != []
  {
    hide Signatures, Group;
    sigs, bySignature := [], map[];
    var i := 0;
    NoSignatures();
    while i < |sources|
      invariant 0 <= i <= |sources| && sigs == Signatures(sources[..i])
      invariant forall g :: g in bySignature <==> g in sigs
      invariant forall g <- sigs :: bySignature[g] == Group(sources[..i], g) && bySignature[g] != []
    {
      assert sources[..i + 1] == sources[..i] + [sources[i]];
      GroupsSnoc(sources[..i], sources[i]);
      var g := Sig(sources[i]);
      if g in bySignature {
        bySignature := bySignature[g := bySignature[g] + [sources[i]]];
      } else {
        sigs := sigs + [g];
        bySignature := bySignature[g := [sources[i]]];
      }
      i := i + 1;
    }
    assert sources[..i] == sources;
  }

  lemma NoSignatures()
    ensures Signatures([]) == []
  {
  }

  function DefinitionNamesOf(t: TypePlan): set<string> { if t.schema.Node? then t.schema.definitions.Keys else {} }

  /** The sources collected from the plan, whatever the order of a map's keys. */
  method Collect(plan: seq<TypePlan>, classify: Schema -> Kind) returns (byBase: map<string, map<string, Source>>)
    requires Documents(plan)
    ensures byBase.Keys == Bases(plan, classify)
    ensures forall b <- byBase :: byBase[b] == SourcesOf(plan, classify, b)
  {
    hide Gathered, Documents, Bases, SourcesOf;
    byBase := map[];
    GatheredNone(plan, classify);
    var i := 0;
    while i < |plan|
      invariant 0 <= i <= |plan| && Gathered(plan, classify, byBase, i, {})
    {
      var todo := DefinitionNamesOf(plan[i]);
      GatheredNext(plan, classify, byBase, i);
      while todo != {}
        invariant todo <= DefinitionNamesOf(plan[i]) && Gathered(plan, classify, byBase, i + 1, todo)
        decreases |todo|
      {
        var name :| name in todo;
        ghost var before := byBase;
        if name in plan[i].selected && classify(plan[i].schema.definitions[name]) != Unsupported {
          var source := SourceAt(plan, classify, i, name);
          var known := if name in byBase then byBase[name] else map[];
          byBase := byBase[name := known[source.path := source]];
          GatheredOne(plan, classify, before, i, todo, name, byBase);
        } else {
          GatheredSkip(plan, classify, byBase, i, todo, name);
        }
        todo := todo - {name};
      }
      i := i + 1;
    }
    GatheredAll(plan, classify, byBase);
  }

  /** Is path p of base n collected from one of the first k types? */
  ghost predicate FromSource(plan: seq<TypePlan>, classify: Schema -> Kind, byBase: map<string, map<string, Source>>,
          k: nat, n: string, p: string)
    requires k <= |plan| && n in byBase && p in byBase[n]
  {
    exists i: nat :: IsSource(plan, classify, i, n) && i < k && PathAt(plan, i, n) == p
        && byBase[n][p] == SourceAt(plan, classify, i, n)
  }

  /** Exactly the sources of the first k types are collected, for the last of them
      perhaps without those in `todo`. */
  ghost predicate Gathered(plan: seq<TypePlan>, classify: Schema -> Kind, byBase: map<string, map<string, Source>>,
          k: nat, todo: set<string>)
    requires k <= |plan|
  {
    && (forall i: nat, n: string :: IsSource(plan, classify, i, n) && i < k && (i + 1 < k || n !in todo) ==>
          n in byBase && PathAt(plan, i, n) in byBase[n])
    && (forall n <- byBase :: byBase[n].Keys != {})
    && (forall n <- byBase, p <- byBase[n] :: FromSource(plan, classify, byBase, k, n, p))
  }

  lemma GatheredNone(plan: seq<TypePlan>, classify: Schema -> Kind)
    ensures Gathered(plan, classify, map[], 0, {})
  {
  }

  lemma GatheredNext(plan: seq<TypePlan>, classify: Schema -> Kind, byBase: map<string, map<string, Source>>, i: nat)
    requires i < |plan| && Gathered(plan, classify, byBase, i, {})
    ensures Gathered(plan, classify, byBase, i + 1, DefinitionNamesOf(plan[i]))
  {
    hide PathAt, SourceAt;
    forall n <- byBase, p <- byBase[n] ensures FromSource(plan, classify, byBase, i + 1, n, p) {
      assert FromSource(plan, classify, byBase, i, n, p);
    }
  }

  lemma GatheredSkip(plan: seq<TypePlan>, classify: Schema -> Kind, byBase: map<string, map<string, Source>>, i: nat,
          todo: set<string>, name: string)
    requires i < |plan| && Gathered(plan, classify, byBase, i + 1, todo) && !IsSource(plan, classify, i, name)
    ensures Gathered(plan, classify, byBase, i + 1, todo - {name})
  {
    hide IsSource, PathAt, SourceAt, FromSource;
  }

  lemma GatheredOne(plan: seq<TypePlan>, classify: Schema -> Kind, before: map<string, map<string, Source>>, i: nat,
          todo: set<string>, name: string, after: map<string, map<string, Source>>)
    requires i < |plan| && Gathered(plan, classify, before, i + 1, todo) && IsSource(plan, classify, i, name)
    requires var known := if name in before then before[name] else map[];
             after == before[name := known[PathAt(plan, i, name) := SourceAt(plan, classify, i, name)]]
    ensures Gathered(plan, classify, after, i + 1, todo - {name})
  {
    hide PathAt, SourceAt, FromSource;
    assert PathAt(plan, i, name) in after[name];
    forall n <- after, p <- after[n] ensures FromSource(plan, classify, after, i + 1, n, p) {
      if n == name && p == PathAt(plan, i, name) {
        NewSource(plan, classify, after, i, n);
      } else {
        assert n in before && p in before[n] && after[n][p] == before[n][p];
        OldSource(plan, classify, before, after, i + 1, n, p);
      }
    }
  }

  lemma NewSource(plan: seq<TypePlan>, classify: Schema -> Kind, byBase: map<string, map<string, Source>>, i: nat,
          n: string)
    requires i < |plan| && IsSource(plan, classify, i, n) && n in byBase && PathAt(plan, i, n) in byBase[n]
    requires byBase[n][PathAt(plan, i, n)] == SourceAt(plan, classify, i, n)
    ensures FromSource(plan, classify, byBase, i + 1, n, PathAt(plan, i, n))
  {
    hide IsSource, PathAt, SourceAt;
  }

  lemma OldSource(plan: seq<TypePlan>, classify: Schema -> Kind, before: map<string, map<string, Source>>,
          after: map<string, map<string, Source>>, k: nat, n: string, p: string)
    requires k <= |plan| && n in before && p in before[n] && n in after && p in after[n] && after[n][p] == before[n][p]
    requires FromSource(plan, classify, before, k, n, p)
    ensures FromSource(plan, classify, after, k, n, p)
  {
    hide PathAt, SourceAt;
  }

  lemma GatheredAll(plan: seq<TypePlan>, classify: Schema -> Kind, byBase: map<string, map<string, Source>>)
    requires Documents(plan) && Gathered(plan, classify, byBase, |plan|, {})
    ensures byBase.Keys == Bases(plan, classify)
    ensures forall b <- byBase :: byBase[b] == SourcesOf(plan, classify, b)
  {
    hide Documents, SourcesOf, PathAt, SourceAt;
    forall n ensures n in byBase <==> n in Bases(plan, classify) {
      if n in byBase {
        var p :| p in byBase[n];
        assert FromSource(plan, classify, byBase, |plan|, n, p);
      }
      if n in Bases(plan, classify) {
        var i: nat :| IsSource(plan, classify, i, n);
      }
    }
    forall b <- byBase ensures byBase[b] == SourcesOf(plan, classify, b) { GatheredBase(plan, classify, byBase, b); }
  }

  lemma GatheredBase(plan: seq<TypePlan>, classify: Schema -> Kind, byBase: map<string, map<string, Source>>, b: string)
    requires Documents(plan) && Gathered(plan, classify, byBase, |plan|, {}) && b in byBase
    ensures byBase[b] == SourcesOf(plan, classify, b)
  {
    hide Documents, SourceAt, SourcesOf;
    var found, sources := byBase[b], SourcesOf(plan, classify, b);
    forall p | p in found ensures p in sources && found[p] == sources[p] {
      assert FromSource(plan, classify, byBase, |plan|, b, p);
      var i: nat :| IsSource(plan, classify, i, b) && i < |plan| && PathAt(plan, i, b) == p
          && found[p] == SourceAt(plan, classify, i, b);
      SourceFound(plan, classify, i, b);
    }
    forall p | p in sources ensures p in found {
      SourceListed(plan, classify, b, p);
    }
  }

  lemma SourceListed(plan: seq<TypePlan>, classify: Schema -> Kind, base: string, p: string)
    requires p in SourcesOf(plan, classify, base)
    ensures exists i: nat :: IsSource(plan, classify, i, base) && PathAt(plan, i, base) == p
  {
  }

  /** newGeneratedDefinitionNameResolver: it fails exactly when a name is not a Go
      identifier. */
  method NewResolver(plan: seq<TypePlan>, classify: Schema -> Kind,
          isIdentifier: string -> bool) returns (r: Option<DefinitionNames>)
    requires Documents(plan)
    ensures r.Some? <==> forall p <- Resolved(plan, classify).names :: isIdentifier(Resolved(plan, classify).names[p])
    ensures r.Some? ==> fresh(r.value) && r.value.namesByPath == Resolved(plan, classify).names
    ensures r.Some? ==> r.value.topLevelReuses == Resolved(plan, classify).reuses
  {
    hide Documents, Bases, SourcesOf, SettleAll, Tops, TopNames, Sorted;
    var claims, tops := TopLevels(plan, classify);
    var byBase := Collect(plan, classify);
    var bases := SortStrings(byBase.Keys);
    var resolver := new DefinitionNames();
    SettleBases(plan, classify, byBase, bases, tops, resolver, claims);
    var ok := AllIdentifiers(resolver.namesByPath, isIdentifier);
    assert resolver.namesByPath == Resolved(plan, classify).names;
    return if ok then Some(resolver) else None;
  }

  method SettleBases(plan: seq<TypePlan>, ghost classify: Schema -> Kind, byBase: map<string, map<string, Source>>,
          bases: seq<string>,
                     tops: map<string, TopLevel>, resolver: DefinitionNames, claims: UsedNames)
    requires resolver.Now(claims) == State(TopNames(plan), map[], {}) && tops == Tops(plan, classify)
    requires forall b <- bases :: b in byBase && byBase[b] == SourcesOf(plan, classify, b)
    modifies resolver, claims
    ensures resolver.Now(claims) == SettleAll(plan, classify, bases)
  {
    hide SourcesOf, Settle, Tops, TopNames, Listed;
    var i := 0;
    while i < |bases|
      invariant 0 <= i <= |bases| && resolver.Now(claims) == SettleAll(plan, classify, bases[..i])
    {
      assert bases[i] in bases;
      assert bases[..i + 1][..i] == bases[..i];
      var sources := List(byBase[bases[i]]);
      resolver.SettleBase(bases[i], sources, TopFor(tops, bases[i]), claims);
      i := i + 1;
    }
    assert bases[..i] == bases;
  }

  method AllIdentifiers(names: map<string, string>, isIdentifier: string -> bool) returns (ok: bool)
    ensures ok <==> forall p <- names :: isIdentifier(names[p])
  {
    var paths := names.Keys;
    while paths != {}
      invariant paths <= names.Keys
      invariant forall p <- names :: p !in paths ==> isIdentifier(names[p])
      decreases |paths|
    {
      var path :| path in paths;
      if !isIdentifier(names[path]) { return false; }
      paths := paths - {path};
    }
    return true;
  }

  method TopLevels(plan: seq<TypePlan>, classify: Schema -> Kind) returns (claims: UsedNames,
          tops: map<string, TopLevel>)
    ensures fresh(claims) && claims.used == TopNames(plan) && tops == Tops(plan, classify)
  {
    var used: set<string> := {};
    tops := map[];
    var i := 0;
    while i < |plan|
      invariant 0 <= i <= |plan| && tops == Tops(plan[..i], classify) && used == TopNames(plan[..i])
    {
      assert plan[..i + 1][..i] == plan[..i];
      var t := plan[i];
      assert TopNames(plan[..i + 1]) == TopNames(plan[..i]) + if t.top && t.typeName != "" then {t.typeName}
          else {} by {
        assert plan[..i + 1][i] == t;
        TopNamesSnoc(plan[..i], t);
        assert plan[..i + 1] == plan[..i] + [t];
      }
      if t.typeName != "" && t.top {
        used := used + {t.typeName};
        var kind := classify(t.schema);
        if kind != Unsupported { tops := tops[t.typeName := TopLevel(kind, Strip(t.schema))]; }
      }
      i := i + 1;
    }
    assert plan[..i] == plan;
    claims := new UsedNames(used);
  }

  lemma TopNamesSnoc(plan: seq<TypePlan>, t: TypePlan)
    ensures TopNames(plan + [t]) == TopNames(plan) + if t.top && t.typeName != "" then {t.typeName} else {}
  {
    var all := plan + [t];
    forall x ensures x in TopNames(all) <==> x in TopNames(plan) || (t.top && t.typeName != "" && x == t.typeName) {
      if x in TopNames(plan) {
        var i :| 0 <= i < |plan| && plan[i].top && plan[i].typeName != "" && plan[i].typeName == x;
        assert all[i] == plan[i];
      }
      if t.top && t.typeName != "" && x == t.typeName { assert all[|plan|] == t; }
    }
  }

  method List(sources: map<string, Source>) returns (list: seq<Source>)
    ensures list == Listed(sources)
  {
    var paths := SortStrings(sources.Keys);
    list := [];
    var i := 0;
    while i < |paths|
      invariant 0 <= i <= |paths| && |list| == i && paths == Sorted(sources.Keys)
      invariant forall k :: 0 <= k < i ==> paths[k] in sources && list[k] == sources[paths[k]]
    {
      assert paths[i] in paths;
      list := list + [sources[paths[i]]];
      i := i + 1;
    }
  }
}
