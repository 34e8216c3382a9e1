/** Parsing and printing of explicit JSON values at the level of tokens
    (codexsdk/protocolv2/json_value.go). Tokenising and string quoting are the
    decoder's; commas and colons do not reach the parser. */
module JsonValue {
  import opened Wrappers
  import opened StringOrder

  datatype Value =
    | Invalid
    | Null
    | Bool(b: bool)
    | Str(s: string)
    | Number(number: string)
    | Array(items: seq<Value>)
    | Object(fields: map<string, Value>)

  datatype Token = OpenBrace | CloseBrace | OpenBracket | CloseBracket | TNull | TBool(tb: bool) | TStr(ts: string) | TNumber(tn: string)

  function DigitsIn(s: string): (n: nat)
    ensures n <= |s|
  {
    if s != "" && '0' <= s[0] <= '9' then 1 + DigitsIn(s[1..]) else 0
  }

  /** The rest of a number after its integer part: an optional fraction, then an
      optional exponent. */
  predicate IsExponent(s: string) {
    s == "" || ((s[0] == 'e' || s[0] == 'E')
                && var d := if |s| >= 2 && (s[1] == '+' || s[1] == '-') then s[2..] else s[1..];
                   d != "" && DigitsIn(d) == |d|)
  }

  predicate IsFraction(s: string) {
    if s != "" && s[0] == '.' then DigitsIn(s[1..]) > 0 && IsExponent(s[1..][DigitsIn(s[1..])..]) else IsExponent(s)
  }

  /** A JSON number token (section 6 of RFC 8259). */
  predicate IsNumber(s: string) {
    var d := if s != "" && s[0] == '-' then s[1..] else s;
    d != "" && (if d[0] == '0' then IsFraction(d[1..]) else DigitsIn(d) > 0 && IsFraction(d[DigitsIn(d)..]))
  }

  // ------------------------------------------------------------------ parsing

  function Scalar(t: Token): Option<Value> {
    match t
    case TNull => Some(Null)
    case TBool(b) => Some(Bool(b))
    case TStr(s) => Some(Str(s))
    case TNumber(n) => if IsNumber(n) then Some(Number(n)) else None
    case _ => None
  }

  /** A value and the tokens after it. */
  function ParseValue(ts: seq<Token>): (r: Option<(Value, seq<Token>)>)
    ensures r.Some? ==> |r.value.1| < |ts|
    decreases |ts|, 0
  {
    if ts == [] then None
    else match ts[0]
      case OpenBrace => ParseMembers(ts[1..], NOTHING)
      case OpenBracket => ParseItems(ts[1..], [])
      case _ => if Scalar(ts[0]).Some? then Some((Scalar(ts[0]).value, ts[1..])) else None
  }

  /** The members of an object up to its closing brace; a key may not repeat. */
  function ParseMembers(ts: seq<Token>, values: map<string, Value>): (r: Option<(Value, seq<Token>)>)
    ensures r.Some? ==> |r.value.1| < |ts|
    decreases |ts|, 1
  {
    if ts == [] then None
    else if ts[0].CloseBrace? then Some((Object(values), ts[1..]))
    else if !ts[0].TStr? || ts[0].ts in values then None
    else
      var v := ParseValue(ts[1..]);
      if v.None? then None else ParseMembers(v.value.1, values[ts[0].ts := v.value.0])
  }

  function ParseItems(ts: seq<Token>, values: seq<Value>): (r: Option<(Value, seq<Token>)>)
    ensures r.Some? ==> |r.value.1| < |ts|
    decreases |ts|, 1
  {
    if ts == [] then None
    else if ts[0].CloseBracket? then Some((Array(values), ts[1..]))
    else
      var v := ParseValue(ts);
      if v.None? then None else ParseItems(v.value.1, values + [v.value.0])
  }

  /** ParseJSONValue: nothing may trail. */
  function Parse(ts: seq<Token>): Option<Value> {
    var r := ParseValue(ts);
    if r.Some? && r.value.1 == [] then Some(r.value.0) else None
  }

  // --------------------------------------------- what the parser should accept

  /** A JSON text as a tree, members in order. */
  datatype Tree = Leaf(t: Token) | List(items: seq<Tree>) | Members(members: seq<Member>)

  datatype Member = Member(key: string, value: Tree)

  function Flatten(t: Tree): seq<Token> {
    match t
    case Leaf(x) => [x]
    case List(items) => [OpenBracket] + FlattenItems(items) + [CloseBracket]
    case Members(members) => [OpenBrace] + FlattenMembers(members) + [CloseBrace]
  }

  function FlattenItems(items: seq<Tree>): seq<Token> {
    if items == [] then [] else Flatten(items[0]) + FlattenItems(items[1..])
  }

  function FlattenMembers(members: seq<Member>): seq<Token> {
    if members == [] then []
    else [TStr(members[0].key)] + Flatten(members[0].value) + FlattenMembers(members[1..])
  }

  const NOTHING: map<string, Value> := map[]

  /** Scalars are well formed and no object repeats a key, at any depth. */
  predicate Proper(t: Tree) {
    match t
    case Leaf(x) => Scalar(x).Some?
    case List(items) => ProperItems(items)
    case Members(members) => ProperMembers(members, NOTHING.Keys)
  }

  predicate ProperItems(items: seq<Tree>) { items == [] || (Proper(items[0]) && ProperItems(items[1..])) }

  /** No key is among those seen before it. */
  predicate ProperMembers(members: seq<Member>, seen: set<string>) {
    members == []
    || (Proper(members[0].value) && members[0].key !in seen && ProperMembers(members[1..], seen + {members[0].key}))
  }

  function ValueOf(t: Tree): Value
    requires Proper(t)
  {
    match t
    case Leaf(x) => Scalar(x).value
    case List(items) => Array(ItemsOf(items))
    case Members(members) => Object(AddAll(NOTHING, members))
  }

  function ItemsOf(items: seq<Tree>): seq<Value>
    requires ProperItems(items)
  {
    if items == [] then [] else [ValueOf(items[0])] + ItemsOf(items[1..])
  }

  function AddAll(acc: map<string, Value>, members: seq<Member>): map<string, Value>
    requires ProperMembers(members, acc.Keys)
    decreases members
  {
    if members == [] then acc
    else
      var acc' := acc[members[0].key := ValueOf(members[0].value)];
      assert acc'.Keys == acc.Keys + {members[0].key};
      AddAll(acc', members[1..])
  }

  lemma LeafFlat(x: Token, rest: seq<Token>)
    requires Scalar(x).Some?
    ensures ParseValue([x] + rest) == Some((Scalar(x).value, rest))
  {
    assert ([x] + rest)[1..] == rest;
  }

  /** The parser reads back every proper text. */
  lemma {:induction false} ParsesTree(t: Tree, rest: seq<Token>)
    requires Proper(t)
    ensures ParseValue(Flatten(t) + rest) == Some((ValueOf(t), rest))
    decreases t
  {
    match t
    case Leaf(x) => LeafFlat(x, rest);
    case List(items) =>
      ParsesItems(items, [], rest);
      var ts := Flatten(t) + rest;
      assert ts[1..] == FlattenItems(items) + [CloseBracket] + rest;
      assert [] + ItemsOf(items) == ItemsOf(items);
    case Members(members) =>
      ParsesMembers(members, NOTHING, rest);
      var ts := Flatten(t) + rest;
      assert ts[1..] == FlattenMembers(members) + [CloseBrace] + rest;
  }

  /** A text does not begin like the end of something. */
  lemma Begins(t: Tree)
    requires Proper(t)
    ensures Flatten(t) != [] && !Flatten(t)[0].CloseBracket? && !Flatten(t)[0].CloseBrace?
  {
  }

  lemma {:induction false} ParsesItems(items: seq<Tree>, acc: seq<Value>, rest: seq<Token>)
    requires ProperItems(items)
    ensures ParseItems(FlattenItems(items) + [CloseBracket] + rest, acc) == Some((Array(acc + ItemsOf(items)), rest))
    decreases items
  {
    var ts := FlattenItems(items) + [CloseBracket] + rest;
    if items == [] {
      assert ts == [CloseBracket] + rest;
      assert ts[1..] == rest;
      assert acc + ItemsOf(items) == acc;
    } else {
      hide ParseValue, Flatten, ValueOf;
      var after := FlattenItems(items[1..]) + [CloseBracket] + rest;
      assert ts == Flatten(items[0]) + after;
      Begins(items[0]);
      ParsesTree(items[0], after);
      ParsesItems(items[1..], acc + [ValueOf(items[0])], rest);
      assert acc + [ValueOf(items[0])] + ItemsOf(items[1..]) == acc + ItemsOf(items);
    }
  }

  /** One member is parsed. */
  lemma MemberParses(key: string, ts: seq<Token>, acc: map<string, Value>)
    requires key !in acc && ParseValue(ts).Some?
    ensures ParseMembers([TStr(key)] + ts, acc) == ParseMembers(ParseValue(ts).value.1,
              acc[key := ParseValue(ts).value.0])
  {
    hide ParseValue;
    assert ([TStr(key)] + ts)[1..] == ts;
  }

  lemma ObjectCloses(rest: seq<Token>, acc: map<string, Value>)
    ensures ParseMembers([CloseBrace] + rest, acc) == Some((Object(acc), rest))
  {
    assert ([CloseBrace] + rest)[1..] == rest;
  }

  lemma {:induction false} ParsesMembers(members: seq<Member>, acc: map<string, Value>, rest: seq<Token>)
    requires ProperMembers(members, acc.Keys)
    ensures ParseMembers(FlattenMembers(members) + [CloseBrace] + rest,
              acc) == Some((Object(AddAll(acc, members)), rest))
    decreases members
  {
    hide ParseValue, ParseMembers, Flatten, ValueOf, Proper;
    var ts := FlattenMembers(members) + [CloseBrace] + rest;
    if members == [] {
      assert ts == [CloseBrace] + rest;
      ObjectCloses(rest, acc);
    } else {
      var m := members[0];
      var after := FlattenMembers(members[1..]) + [CloseBrace] + rest;
      assert ts == [TStr(m.key)] + (Flatten(m.value) + after);
      ParsesTree(m.value, after);
      MemberParses(m.key, Flatten(m.value) + after, acc);
      assert acc[m.key := ValueOf(m.value)].Keys == acc.Keys + {m.key};
      ParsesMembers(members[1..], acc[m.key := ValueOf(m.value)], rest);
    }
  }

  /** Whatever the parser accepts is a proper text of its value. */
  lemma {:induction false} ParsedIsTree(ts: seq<Token>) returns (t: Tree)
    requires ParseValue(ts).Some?
    ensures Proper(t) && ValueOf(t) == ParseValue(ts).value.0 && ts == Flatten(t) + ParseValue(ts).value.1
    decreases |ts|, 0
  {
    hide ParseMembers, ParseItems, FlattenItems, FlattenMembers, AddAll, ItemsOf, ProperItems, ProperMembers;
    if ts[0].OpenBrace? {
      var members := ParsedIsMembers(ts[1..], NOTHING);
      t := Members(members);
      assert ts == [OpenBrace] + ts[1..];
    } else if ts[0].OpenBracket? {
      var items := ParsedIsItems(ts[1..], []);
      t := List(items);
      assert [] + ItemsOf(items) == ItemsOf(items);
      assert ts == [OpenBracket] + ts[1..];
    } else {
      t := Leaf(ts[0]);
      assert ts == [ts[0]] + ts[1..];
    }
  }

  lemma {:induction false} ParsedIsItems(ts: seq<Token>, acc: seq<Value>) returns (items: seq<Tree>)
    requires ParseItems(ts, acc).Some?
    ensures ProperItems(items) && ParseItems(ts, acc).value.0 == Array(acc + ItemsOf(items))
    ensures ts == FlattenItems(items) + [CloseBracket] + ParseItems(ts, acc).value.1
    decreases |ts|, 1
  {
    hide ParseValue, Flatten, ValueOf, Proper;
    if ts[0].CloseBracket? {
      items := [];
      assert acc + ItemsOf(items) == acc;
      assert ts == [CloseBracket] + ts[1..];
    } else {
      var v := ParseValue(ts).value;
      var t := ParsedIsTree(ts);
      var more := ParsedIsItems(v.1, acc + [v.0]);
      items := [t] + more;
      assert items[1..] == more;
      assert acc + [v.0] + ItemsOf(more) == acc + ItemsOf(items);
    }
  }

  /** A member in front of members. */
  lemma MemberJoins(t: Tree, key: string, more: seq<Member>, acc: map<string, Value>)
    requires Proper(t) && key !in acc && ProperMembers(more, acc[key := ValueOf(t)].Keys)
    ensures var members := [Member(key, t)] + more;
            && ProperMembers(members, acc.Keys) && AddAll(acc, members) == AddAll(acc[key := ValueOf(t)], more)
            && FlattenMembers(members) == [TStr(key)] + Flatten(t) + FlattenMembers(more)
  {
    hide Flatten, ValueOf, Proper;
    var members := [Member(key, t)] + more;
    assert members[1..] == more;
    assert acc[key := ValueOf(t)].Keys == acc.Keys + {key};
  }

  lemma Splices(key: seq<Token>, value: seq<Token>, more: seq<Token>, rest: seq<Token>, ts: seq<Token>,
          after: seq<Token>)
    requires ts == key + (value + after) && after == more + rest
    ensures ts == (key + value + more) + rest
  {
  }

  lemma {:induction false} ParsedIsMembers(ts: seq<Token>, acc: map<string, Value>) returns (members: seq<Member>)
    requires ParseMembers(ts, acc).Some?
    ensures ProperMembers(members, acc.Keys) && ParseMembers(ts, acc).value.0 == Object(AddAll(acc, members))
    ensures ts == FlattenMembers(members) + ([CloseBrace] + ParseMembers(ts, acc).value.1)
    decreases |ts|, 1
  {
    if ts[0].CloseBrace? {
      members := [];
      assert ts == [CloseBrace] + ts[1..];
    } else {
      hide ParseValue, Flatten, ValueOf, Proper, FlattenMembers, AddAll, ProperMembers;
      var key := ts[0].ts;
      var v := ParseValue(ts[1..]).value;
      var t := ParsedIsTree(ts[1..]);
      MemberParses(key, ts[1..], acc);
      assert ts == [TStr(key)] + ts[1..];
      hide ParseMembers;
      var more := ParsedIsMembers(v.1, acc[key := v.0]);
      members := [Member(key, t)] + more;
      MemberJoins(t, key, more, acc);
      var rest := [CloseBrace] + ParseMembers(v.1, acc[key := v.0]).value.1;
      Splices([TStr(key)], Flatten(t), FlattenMembers(more), rest, ts, v.1);
    }
  }

  /** Parsing is exact: a token stream parses to a value exactly when it is a proper
      text of it; in particular a repeated key at any depth is refused. */
  lemma ParsingIsExact(ts: seq<Token>, v: Value)
    ensures Parse(ts) == Some(v) <==> exists t :: Proper(t) && Flatten(t) == ts && ValueOf(t) == v
  {
    if Parse(ts) == Some(v) {
      var t := ParsedIsTree(ts);
      assert Flatten(t) + [] == Flatten(t);
    }
    if exists t :: Proper(t) && Flatten(t) == ts && ValueOf(t) == v {
      var t :| Proper(t) && Flatten(t) == ts && ValueOf(t) == v;
      ParsesTree(t, []);
      assert Flatten(t) + [] == Flatten(t);
    }
  }

  // ----------------------------------------------------------------- printing

  /** Every number is a number token and nothing inside is the zero value. */
  predicate Printable(v: Value) {
    match v
    case Invalid => false
    case Number(n) => IsNumber(n)
    case Array(items) => forall i :: 0 <= i < |items| ==> Printable(items[i])
    case Object(fields) => forall k :: k in fields ==> Printable(fields[k])
    case _ => true
  }

  /** The canonical text of a value: members in the order of their keys. */
  ghost function TreeOf(v: Value): Tree
    requires Printable(v)
  {
    match v
    case Null => Leaf(TNull)
    case Bool(b) => Leaf(TBool(b))
    case Str(s) => Leaf(TStr(s))
    case Number(n) => Leaf(TNumber(n))
    case Array(items) => List(seq(|items|, i requires 0 <= i < |items| => TreeOf(items[i])))
    case Object(fields) =>
      var keys := Sorted(fields.Keys);
      Members(seq(|keys|, i requires 0 <= i < |keys| => assert keys[i] in keys; Member(keys[i],
          TreeOf(fields[keys[i]]))))
  }

  ghost function Print(v: Value): Option<seq<Token>> {
    if Printable(v) then Some(Flatten(TreeOf(v))) else None
  }

  lemma {:induction false} ProperByIndex(items: seq<Tree>, values: seq<Value>)
    requires |values| == |items| && forall i :: 0 <= i < |items| ==> Proper(items[i]) && ValueOf(items[i]) == values[i]
    ensures ProperItems(items) && ItemsOf(items) == values
  {
    if items == [] {
    } else {
      ProperByIndex(items[1..], values[1..]);
      assert values == [values[0]] + values[1..];
    }
  }

  lemma {:induction false} AddedByIndex(members: seq<Member>, acc: map<string, Value>, fields: map<string, Value>)
    requires forall i :: 0 <= i < |members| ==>
               Proper(members[i].value) && members[i].key in fields
                   && ValueOf(members[i].value) == fields[members[i].key]
    requires forall i, j :: 0 <= i < j < |members| ==> members[i].key != members[j].key
    requires forall i :: 0 <= i < |members| ==> members[i].key !in acc
    requires forall k <- acc :: k in fields && acc[k] == fields[k]
    requires forall k <- fields :: k in acc || exists i :: 0 <= i < |members| && members[i].key == k
    ensures ProperMembers(members, acc.Keys) && AddAll(acc, members) == fields
    decreases |members|
  {
    hide Proper, ValueOf;
    if members == [] {
      assert acc == fields;
    } else {
      var m := members[0];
      var acc' := acc[m.key := ValueOf(m.value)];
      assert acc'.Keys == acc.Keys + {m.key};
      forall k <- fields ensures k in acc' || exists i :: 0 <= i < |members[1..]| && members[1..][i].key == k {
        if k !in acc' {
          var i :| 0 <= i < |members| && members[i].key == k;
          assert members[1..][i - 1].key == k;
        }
      }
      AddedByIndex(members[1..], acc', fields);
    }
  }

  /** The canonical text is proper and is a text of the value. */
  lemma {:induction false} TreeOfValue(v: Value)
    requires Printable(v)
    ensures Proper(TreeOf(v)) && ValueOf(TreeOf(v)) == v
  {
    match v
    case Array(items) =>
      forall i | 0 <= i < |items| ensures Proper(TreeOf(items[i])) && ValueOf(TreeOf(items[i])) == items[i] {
        TreeOfValue(items[i]);
      }
      ProperByIndex(TreeOf(v).items, items);
    case Object(fields) =>
      forall k | k in fields ensures Proper(TreeOf(fields[k])) && ValueOf(TreeOf(fields[k])) == fields[k] {
        TreeOfValue(fields[k]);
      }
      ObjectTree(v);
    case _ =>
  }

  lemma ObjectTree(v: Value)
    requires Printable(v) && v.Object?
    requires forall k <- v.fields :: Proper(TreeOf(v.fields[k])) && ValueOf(TreeOf(v.fields[k])) == v.fields[k]
    ensures ProperMembers(TreeOf(v).members, NOTHING.Keys) && AddAll(NOTHING, TreeOf(v).members) == v.fields
  {
    hide Proper, ValueOf, AddAll, ProperMembers;
    var keys := Sorted(v.fields.Keys);
    var members := TreeOf(v).members;
    forall i | 0 <= i < |keys| ensures members[i] == Member(keys[i], TreeOf(v.fields[keys[i]])) && keys[i] in v.fields {
      assert keys[i] in keys;
    }
    forall i, j | 0 <= i < j < |keys| ensures keys[i] != keys[j] { BelowTotal(keys[i], keys[j]); }
    forall k <- v.fields ensures exists i :: 0 <= i < |members| && members[i].key == k {
      assert k in keys;
      var i :| 0 <= i < |keys| && keys[i] == k;
      assert members[i].key == k;
    }
    AddedByIndex(members, NOTHING, v.fields);
  }

  /** Parsing what was printed returns the value; number tokens survive unchanged. */
  lemma PrintThenParse(v: Value)
    requires Printable(v)
    ensures Parse(Print(v).value) == Some(v)
  {
    TreeOfValue(v);
    ParsingIsExact(Flatten(TreeOf(v)), v);
  }

  /** Every parsed value can be printed. */
  lemma {:induction false} TreesPrintable(t: Tree)
    requires Proper(t)
    ensures Printable(ValueOf(t))
  {
    match t
    case Leaf(_) =>
    case List(items) => ItemsPrintable(items);
    case Members(members) => MembersPrintable(members, NOTHING);
  }

  lemma {:induction false} ItemsPrintable(items: seq<Tree>)
    requires ProperItems(items)
    ensures forall v <- ItemsOf(items) :: Printable(v)
    decreases items
  {
    if items == [] {
    } else {
      TreesPrintable(items[0]);
      ItemsPrintable(items[1..]);
    }
  }

  lemma {:induction false} MembersPrintable(members: seq<Member>, acc: map<string, Value>)
    requires ProperMembers(members, acc.Keys) && forall k <- acc :: Printable(acc[k])
    ensures forall k <- AddAll(acc, members) :: Printable(AddAll(acc, members)[k])
    decreases members
  {
    if members == [] {
    } else {
      TreesPrintable(members[0].value);
      assert acc[members[0].key := ValueOf(members[0].value)].Keys == acc.Keys + {members[0].key};
      MembersPrintable(members[1..], acc[members[0].key := ValueOf(members[0].value)]);
    }
  }

  lemma ParsedIsPrintable(ts: seq<Token>)
    requires Parse(ts).Some?
    ensures Printable(Parse(ts).value) && Parse(Print(Parse(ts).value).value) == Parse(ts)
  {
    var t := ParsedIsTree(ts);
    TreesPrintable(t);
    PrintThenParse(Parse(ts).value);
  }

  // ----------------------------------------------------------- canonical form

  /** The keys of every object stand in ascending order. */
  ghost predicate SortedTree(t: Tree) {
    match t
    case Leaf(_) => true
    case List(items) => forall i :: 0 <= i < |items| ==> SortedTree(items[i])
    case Members(members) =>
      && (forall i :: 0 <= i < |members| ==> SortedTree(members[i].value))
      && (forall i, j :: 0 <= i < j < |members| ==> Below(members[i].key, members[j].key))
  }

  lemma {:induction false} TreeOfSorted(v: Value)
    requires Printable(v)
    ensures SortedTree(TreeOf(v))
  {
    match v
    case Array(items) => forall i | 0 <= i < |items| ensures SortedTree(TreeOf(items[i])) { TreeOfSorted(items[i]); }
    case Object(fields) =>
      forall k | k in fields ensures SortedTree(TreeOf(fields[k])) { TreeOfSorted(fields[k]); }
      var keys := Sorted(fields.Keys);
      forall i | 0 <= i < |keys| ensures keys[i] in fields { assert keys[i] in keys; }
    case _ =>
  }

  lemma {:induction false} ItemAt(items: seq<Tree>, i: nat)
    requires ProperItems(items) && i < |items|
    ensures Proper(items[i]) && |ItemsOf(items)| == |items| && ItemsOf(items)[i] == ValueOf(items[i])
  {
    if i == 0 {
      if |items| > 1 { ItemAt(items[1..], 0); }
    } else {
      ItemAt(items[1..], i - 1);
    }
  }

  lemma {:induction false} MemberAt(members: seq<Member>, acc: map<string, Value>, i: nat)
    requires ProperMembers(members, acc.Keys) && i < |members|
    ensures Proper(members[i].value) && members[i].key in AddAll(acc, members)
    ensures AddAll(acc, members)[members[i].key] == ValueOf(members[i].value)
    decreases |members|
  {
    var acc' := acc[members[0].key := ValueOf(members[0].value)];
    assert acc'.Keys == acc.Keys + {members[0].key};
    if i == 0 {
      AddedKeeps(members[1..], acc', members[0].key);
    } else {
      MemberAt(members[1..], acc', i - 1);
    }
  }

  lemma {:induction false} AddedKeeps(members: seq<Member>, acc: map<string, Value>, key: string)
    requires ProperMembers(members, acc.Keys) && key in acc
    ensures key in AddAll(acc, members) && AddAll(acc, members)[key] == acc[key]
    decreases |members|
  {
    if members == [] {
    } else {
      var acc' := acc[members[0].key := ValueOf(members[0].value)];
      assert acc'.Keys == acc.Keys + {members[0].key};
      AddedKeeps(members[1..], acc', key);
    }
  }

  lemma {:induction false} AddedOnly(members: seq<Member>, acc: map<string, Value>, key: string)
    requires ProperMembers(members, acc.Keys) && key in AddAll(acc, members)
    ensures key in acc || exists i :: 0 <= i < |members| && members[i].key == key
    decreases |members|
  {
    if members == [] {
    } else {
      var acc' := acc[members[0].key := ValueOf(members[0].value)];
      assert acc'.Keys == acc.Keys + {members[0].key};
      AddedOnly(members[1..], acc', key);
      if key !in acc' {
        var i :| 0 <= i < |members[1..]| && members[1..][i].key == key;
        assert members[i + 1].key == key;
      }
    }
  }

  /** A sorted text is the canonical text of its value: values equal as maps have
      one sorted text, and printing finds it. */
  lemma {:induction false} CanonicalUnique(t: Tree)
    requires Proper(t) && SortedTree(t)
    ensures Printable(ValueOf(t)) && TreeOf(ValueOf(t)) == t
  {
    TreesPrintable(t);
    match t
    case Leaf(_) =>
    case List(items) =>
      var v := ValueOf(t);
      forall i | 0 <= i < |items|
          ensures |v.items| == |items| && Printable(v.items[i]) && TreeOf(v.items[i]) == items[i] {
        ItemAt(items, i);
        CanonicalUnique(items[i]);
      }
      if items == [] { assert v.items == []; }
      assert TreeOf(v).items == items;
    case Members(members) =>
      var fields := ValueOf(t).fields;
      forall i | 0 <= i < |members|
        ensures members[i].key in fields && Printable(fields[members[i].key])
        ensures TreeOf(fields[members[i].key]) == members[i].value
      {
        MemberAt(members, NOTHING, i);
        CanonicalUnique(members[i].value);
      }
      CanonicalMembers(t, fields);
  }

  lemma CanonicalMembers(t: Tree, fields: map<string, Value>)
    requires t.Members? && Proper(t) && SortedTree(t) && fields == ValueOf(t).fields && Printable(ValueOf(t))
    requires forall i :: 0 <= i < |t.members| ==>
               t.members[i].key in fields && Printable(fields[t.members[i].key])
               && TreeOf(fields[t.members[i].key]) == t.members[i].value
    ensures TreeOf(ValueOf(t)) == t
  {
    var members := t.members;
    var listed := seq(|members|, i requires 0 <= i < |members| => members[i].key);
    forall k ensures k in listed <==> k in fields.Keys {
      if k in fields.Keys {
        AddedOnly(members, NOTHING, k);
        var i :| 0 <= i < |members| && members[i].key == k;
        assert listed[i] == k;
      }
      if k in listed {
        var i :| 0 <= i < |listed| && listed[i] == k;
        assert members[i].key == k;
      }
    }
    AscendingUnique(listed, Sorted(fields.Keys));
    hide Sorted, Ascending, AddAll, Proper, SortedTree;
    var printed := TreeOf(ValueOf(t)).members;
    assert |printed| == |members|;
    forall i | 0 <= i < |members| ensures printed[i] == members[i] {
      assert listed[i] == members[i].key;
    }
    assert printed == members;
  }

  /** Texts of one value print identically, and printing is idempotent through
      parsing. */
  lemma PrintsCanonically(ts: seq<Token>)
    requires Parse(ts).Some?
    ensures Printable(Parse(ts).value)
    ensures Parse(Print(Parse(ts).value).value) == Parse(ts)
    ensures forall t :: Proper(t) && SortedTree(t) && Parse(Flatten(t)) == Parse(ts)
              ==> Flatten(t) == Print(Parse(ts).value).value
  {
    ParsedIsPrintable(ts);
    forall t | Proper(t) && SortedTree(t) && Parse(Flatten(t)) == Parse(ts)
        ensures Flatten(t) == Print(Parse(ts).value).value {
      ParsesTree(t, []);
      assert Flatten(t) + [] == Flatten(t);
      CanonicalUnique(t);
    }
  }

  // ------------------------------------------------- the decoder and the buffer

  /** The token side of json.Decoder. */
  class Decoder {
    var rest: seq<Token>

    constructor (tokens: seq<Token>)
      ensures rest == tokens
    {
      rest := tokens;
    }

    /** Is there another element before the closing delimiter? */
    method More() returns (more: bool)
      ensures more == (rest != [] && !rest[0].CloseBrace? && !rest[0].CloseBracket?)
    {
      more := rest != [] && !rest[0].CloseBrace? && !rest[0].CloseBracket?;
    }

    method Token() returns (t: Option<Token>)
      modifies this
      ensures old(rest) == [] ==> t == None && rest == []
      ensures old(rest) != [] ==> t == Some(old(rest)[0]) && rest == old(rest)[1..]
    {
      if rest == [] { return None; }
      t := Some(rest[0]);
      rest := rest[1..];
    }
  }

  method ParseJSONValue(d: Decoder) returns (v: Option<Value>)
    modifies d
    ensures v == (if ParseValue(old(d.rest)).Some? then Some(ParseValue(old(d.rest)).value.0) else None)
    ensures v.Some? ==> d.rest == ParseValue(old(d.rest)).value.1
    decreases |d.rest|, 0
  {
    var t := d.Token();
    if t.None? { return None; }
    match t.value
    case OpenBrace => v := ParseJSONObject(d);
    case OpenBracket => v := ParseJSONArray(d);
    case _ => v := Scalar(t.value);
  }

  method ParseJSONObject(d: Decoder) returns (v: Option<Value>)
    modifies d
    ensures v == (if ParseMembers(old(d.rest), NOTHING).Some? then Some(ParseMembers(old(d.rest), NOTHING).value.0)
              else None)
    ensures v.Some? ==> d.rest == ParseMembers(old(d.rest), NOTHING).value.1
    decreases |d.rest|, 1
  {
    ghost var all := d.rest;
    var values := NOTHING;
    var more := d.More();
    while more
      invariant ParseMembers(d.rest, values) == ParseMembers(all, NOTHING) && |d.rest| <= |all|
      invariant more == (d.rest != [] && !d.rest[0].CloseBrace? && !d.rest[0].CloseBracket?)
      decreases |d.rest|
    {
      ghost var before := d.rest;
      var key := d.Token();
      if !key.value.TStr? || key.value.ts in values { return None; }
      var member := ParseJSONValue(d);
      if member.None? { return None; }
      values := values[key.value.ts := member.value];
      more := d.More();
    }
    var close := d.Token();
    if close != Some(CloseBrace) { return None; }
    return Some(Object(values));
  }

  method ParseJSONArray(d: Decoder) returns (v: Option<Value>)
    modifies d
    ensures v == (if ParseItems(old(d.rest), []).Some? then Some(ParseItems(old(d.rest), []).value.0) else None)
    ensures v.Some? ==> d.rest == ParseItems(old(d.rest), []).value.1
    decreases |d.rest|, 1
  {
    ghost var all := d.rest;
    var values: seq<Value> := [];
    var more := d.More();
    while more
      invariant ParseItems(d.rest, values) == ParseItems(all, []) && |d.rest| <= |all|
      invariant more == (d.rest != [] && !d.rest[0].CloseBrace? && !d.rest[0].CloseBracket?)
      decreases |d.rest|
    {
      var item := ParseJSONValue(d);
      if item.None? { return None; }
      values := values + [item.value];
      more := d.More();
    }
    var close := d.Token();
    if close != Some(CloseBracket) { return None; }
    return Some(Array(values));
  }

  /** writeJSON: the map's iteration order does not matter, because keys are sorted. */
  method WriteJSON(v: Value, buffer: seq<Token>) returns (ok: bool, out: seq<Token>)
    ensures ok <==> Printable(v)
    ensures ok ==> out == buffer + Flatten(TreeOf(v))
    decreases v, 1
  {
    hide FlattenItems, FlattenMembers, Sorted;
    match v
    case Invalid => return false, buffer;
    case Null => return true, buffer + [TNull];
    case Bool(b) => return true, buffer + [TBool(b)];
    case Str(s) => return true, buffer + [TStr(s)];
    case Number(n) => return IsNumber(n), buffer + [TNumber(n)];
    case Array(items) =>
      ok, out := WriteItems(v, buffer + [OpenBracket]);
      out := out + [CloseBracket];
    case Object(fields) =>
      ok, out := WriteMembers(v, buffer + [OpenBrace]);
      out := out + [CloseBrace];
  }

  method WriteItems(v: Value, buffer: seq<Token>) returns (ok: bool, out: seq<Token>)
    requires v.Array?
    ensures ok <==> Printable(v)
    ensures ok ==> out == buffer + FlattenItems(TreeOf(v).items)
    decreases v, 0
  {
    hide Flatten;
    var items := v.items;
    out := buffer;
    var i := 0;
    assert FlattenItems([]) == [];
    while i < |items|
      invariant 0 <= i <= |items| && forall j :: 0 <= j < i ==> Printable(items[j])
      invariant out == buffer + FlattenItems(seq(i, j requires 0 <= j < i => TreeOf(items[j])))
    {
      ok, out := WriteJSON(items[i], out);
      if !ok { return; }
      ItemWritten(items, i);
      i := i + 1;
    }
    ok := true;
    assert seq(i, j requires 0 <= j < i => TreeOf(items[j])) == TreeOf(v).items;
  }

  method WriteMembers(v: Value, buffer: seq<Token>) returns (ok: bool, out: seq<Token>)
    requires v.Object?
    ensures ok <==> Printable(v)
    ensures ok ==> out == buffer + FlattenMembers(TreeOf(v).members)
    decreases v, 0
  {
    hide Flatten, FlattenMembers, Ascending, Sorted, TreeOf, Printable, Below;
    var fields := v.fields;
    var keys := SortStrings(fields.Keys);
    AllWritten(v, keys);
    out := buffer;
    var i := 0;
    while i < |keys|
      invariant 0 <= i <= |keys| && forall j :: 0 <= j < i ==> keys[j] in fields && Printable(fields[keys[j]])
      invariant out == buffer + FlattenMembers(Written(fields, keys[..i]))
    {
      var field := fields[keys[i]];
      assert field < v;
      ok, out := WriteJSON(field, out + [TStr(keys[i])]);
      if !ok { return; }
      MemberWritten(fields, keys, i, buffer);
      i := i + 1;
    }
    assert keys[..i] == keys;
    ok := true;
  }

  lemma AllWritten(v: Value, keys: seq<string>)
    requires v.Object? && keys == Sorted(v.fields.Keys)
    ensures forall i :: 0 <= i < |keys| ==> keys[i] in v.fields
    ensures Printable(v) <==> forall i :: 0 <= i < |keys| ==> Printable(v.fields[keys[i]])
    ensures Printable(v) ==> TreeOf(v).members == Written(v.fields, keys)
    ensures Written(v.fields, []) == [] && FlattenMembers([]) == []
  {
    forall i | 0 <= i < |keys| ensures keys[i] in v.fields { assert keys[i] in keys; }
    if forall i :: 0 <= i < |keys| ==> Printable(v.fields[keys[i]]) {
      forall k | k in v.fields ensures Printable(v.fields[k]) {
        assert k in keys;
        var j :| 0 <= j < |keys| && keys[j] == k;
      }
    }
  }

  lemma {:induction false} FlattenItemsSnoc(items: seq<Tree>, t: Tree)
    ensures FlattenItems(items + [t]) == FlattenItems(items) + Flatten(t)
  {
    if items == [] {
      assert FlattenItems([t]) == Flatten(t) + FlattenItems([]);
    } else {
      assert (items + [t])[1..] == items[1..] + [t];
      FlattenItemsSnoc(items[1..], t);
    }
  }

  lemma {:induction false} FlattenMembersSnoc(members: seq<Member>, m: Member)
    ensures FlattenMembers(members + [m]) == FlattenMembers(members) + [TStr(m.key)] + Flatten(m.value)
  {
    if members == [] {
      assert FlattenMembers([m]) == [TStr(m.key)] + Flatten(m.value) + FlattenMembers([]);
    } else {
      assert (members + [m])[1..] == members[1..] + [m];
      FlattenMembersSnoc(members[1..], m);
    }
  }

  lemma ItemWritten(items: seq<Value>, i: nat)
    requires i < |items| && forall j :: 0 <= j <= i ==> Printable(items[j])
    ensures FlattenItems(seq(i + 1, j requires 0 <= j < i + 1 => TreeOf(items[j])))
         == FlattenItems(seq(i, j requires 0 <= j < i => TreeOf(items[j]))) + Flatten(TreeOf(items[i]))
  {
    var done := seq(i, j requires 0 <= j < i => TreeOf(items[j]));
    FlattenItemsSnoc(done, TreeOf(items[i]));
    assert seq(i + 1, j requires 0 <= j < i + 1 => TreeOf(items[j])) == done + [TreeOf(items[i])];
  }

  /** The members written for a list of keys. */
  ghost function Written(fields: map<string, Value>, keys: seq<string>): seq<Member>
    requires forall k <- keys :: k in fields && Printable(fields[k])
  {
    seq(|keys|, j requires 0 <= j < |keys| => assert keys[j] in keys; Member(keys[j], TreeOf(fields[keys[j]])))
  }

  lemma MemberWritten(fields: map<string, Value>, keys: seq<string>, i: nat, buffer: seq<Token>)
    requires i < |keys| && forall j :: 0 <= j <= i ==> keys[j] in fields && Printable(fields[keys[j]])
    ensures buffer + FlattenMembers(Written(fields, keys[..i + 1]))
         == buffer + FlattenMembers(Written(fields, keys[..i])) + [TStr(keys[i])] + Flatten(TreeOf(fields[keys[i]]))
  {
    hide Flatten, FlattenMembers, TreeOf, Printable;
    FlattenMembersSnoc(Written(fields, keys[..i]), Member(keys[i], TreeOf(fields[keys[i]])));
    assert Written(fields, keys[..i + 1]) == Written(fields, keys[..i]) + [Member(keys[i], TreeOf(fields[keys[i]]))];
  }
}
