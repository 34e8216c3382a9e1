/** The byte stream hashed for a candidate directory
    (codexsdk/internal/protocolsync/candidate.go). A Go string is a string of
    characters below 256. */
module Digest {
  import opened Wrappers
  import opened StringOrder

  /** What the walk of a directory meets, paths relative to its root. */
  datatype Node = Directory(path: string) | Regular(path: string, content: string) | Special(path: string)

  const NUL: char := '\0'

  /** What the digest covers of a node. */
  datatype Fact = Dir(path: string) | File(path: string, sum: string)

  function FactOf(n: Node, hash: string -> string): Fact
    requires !n.Special?
  {
    if n.Directory? then Dir(n.path) else File(n.path, hash(n.content))
  }

  function Encode(f: Fact): string {
    match f
    case Dir(path) => "d" + [NUL] + path
    case File(path, sum) => "f" + [NUL] + path + [NUL] + sum
  }

  /** Paths never hold a NUL, so the entry tells kind, path and sum apart. */
  lemma EncodeInjective(f: Fact, g: Fact)
    requires NUL !in f.path && NUL !in g.path && Encode(f) == Encode(g)
    ensures f == g
  {
    var e := Encode(f);
    assert e[0] == (if f.Dir? then 'd' else 'f') && e[0] == (if g.Dir? then 'd' else 'f');
    if f.Dir? {
      assert e[2..] == f.path && e[2..] == g.path;
    } else {
      assert e[2..] == f.path + [NUL] + f.sum && e[2..] == g.path + [NUL] + g.sum;
      CutOnce(f.path, f.sum, g.path, g.sum);
    }
  }

  lemma CutOnce(a: string, x: string, b: string, y: string)
    requires NUL !in a && NUL !in b && a + [NUL] + x == b + [NUL] + y
    ensures a == b && x == y
  {
    var s, t := a + [NUL] + x, b + [NUL] + y;
    assert s[|a|] == NUL && t[|b|] == NUL;
    assert forall i :: 0 <= i < |a| ==> s[i] == a[i] && a[i] in a;
    assert forall i :: 0 <= i < |b| ==> t[i] == b[i] && b[i] in b;
    assert |a| == |b|;
    assert s[..|a|] == a && t[..|b|] == b && s[|a| + 1..] == x && t[|b| + 1..] == y;
  }

  // -------------------------------------------------------- length-prefixed framing

  function Power(k: nat): nat { if k == 0 then 1 else 256 * Power(k - 1) }

  /** The k low bytes of n, the most significant first. */
  function BigEndian(n: nat, k: nat): (s: string)
    ensures |s| == k
  {
    if k == 0 then "" else BigEndian(n / 256, k - 1) + [(n % 256) as char]
  }

  /** The number that bytes, the most significant first, stand for. */
  function Number(s: string): nat {
    if s == "" then 0 else 256 * Number(s[..|s| - 1]) + s[|s| - 1] as nat
  }

  /** The bytes of a number stand for it. */
  lemma {:induction false} BigEndianIsNumber(n: nat, k: nat)
    requires n < Power(k)
    ensures Number(BigEndian(n, k)) == n && forall c <- BigEndian(n, k) :: c as nat < 256
    decreases k
  {
    if k > 0 {
      var s := BigEndian(n, k);
      BigEndianIsNumber(n / 256, k - 1);
      assert s[..k - 1] == BigEndian(n / 256, k - 1);
    }
  }

  lemma {:induction false} BigEndianInjective(m: nat, n: nat, k: nat)
    requires m < Power(k) && n < Power(k) && BigEndian(m, k) == BigEndian(n, k)
    ensures m == n
    decreases k
  {
    if k == 0 {
    } else {
      var a, b := BigEndian(m, k), BigEndian(n, k);
      assert a[k - 1] == (m % 256) as char && b[k - 1] == (n % 256) as char;
      assert a[..k - 1] == BigEndian(m / 256, k - 1) && b[..k - 1] == BigEndian(n / 256, k - 1);
      BigEndianInjective(m / 256, n / 256, k - 1);
    }
  }

  /** A length is a 64-bit number. */
  predicate Short(e: string) { |e| < Power(8) }

  function Frame(entries: seq<string>): string {
    if entries == [] then ""
    else Frame(entries[..|entries| - 1]) + BigEndian(|entries[|entries| - 1]|, 8) + entries[|entries| - 1]
  }

  lemma Regroup(x: string, y: string, z: string, b: string, l: string)
    ensures (x + y + z) + b + l == x + y + (z + b + l)
  {
  }

  lemma {:induction false} FrameCons(entries: seq<string>)
    requires entries != []
    ensures Frame(entries) == BigEndian(|entries[0]|, 8) + entries[0] + Frame(entries[1..])
  {
    hide BigEndian;
    if |entries| == 1 {
      assert Frame(entries[..0]) == "" && Frame(entries[1..]) == "";
    } else {
      var init, last, rest := entries[..|entries| - 1], entries[|entries| - 1], entries[1..];
      FrameCons(init);
      assert init[1..] == rest[..|rest| - 1] && rest[|rest| - 1] == last && init[0] == entries[0];
      Regroup(BigEndian(|init[0]|, 8), init[0], Frame(init[1..]), BigEndian(|last|, 8), last);
    }
  }

  /** The framed stream tells the entries and their order. */
  lemma {:induction false} FrameInjective(a: seq<string>, b: seq<string>)
    requires (forall e <- a :: Short(e)) && (forall e <- b :: Short(e)) && Frame(a) == Frame(b)
    ensures a == b
    decreases |a|
  {
    if a == [] {
      if b != [] { FrameCons(b); }
    } else {
      FrameCons(a);
      if b != [] {
        FrameCons(b);
        FrameHead(a[0], Frame(a[1..]), b[0], Frame(b[1..]));
        FrameInjective(a[1..], b[1..]);
        assert a == [a[0]] + a[1..] && b == [b[0]] + b[1..];
      }
    }
  }

  lemma FrameHead(x: string, s: string, y: string, t: string)
    requires Short(x) && Short(y) && BigEndian(|x|, 8) + x + s == BigEndian(|y|, 8) + y + t
    ensures x == y && s == t
  {
    hide Power, BigEndian;
    var m, n := BigEndian(|x|, 8), BigEndian(|y|, 8);
    var l, r := m + x + s, n + y + t;
    assert l[..8] == m && r[..8] == n;
    BigEndianInjective(|x|, |y|, 8);
    assert l[8..][..|x|] == x && r[8..][..|y|] == y;
    assert l[8..][|x|..] == s && r[8..][|y|..] == t;
  }

  // ----------------------------------------------------------------- the digest

  /** A walk of a tree: every path once, without NUL, entries of ordinary length. */
  ghost predicate Walk(nodes: seq<Node>, hash: string -> string) {
    && (forall n <- nodes :: NUL !in n.path && (!n.Special? ==> Short(Encode(FactOf(n, hash)))))
    && (forall i, j :: 0 <= i < j < |nodes| ==> nodes[i].path != nodes[j].path)
  }

  predicate Ordinary(nodes: seq<Node>) { forall n <- nodes :: !n.Special? }

  ghost function Facts(nodes: seq<Node>, hash: string -> string): set<Fact>
    requires Ordinary(nodes)
  {
    set n | n in nodes :: FactOf(n, hash)
  }

  ghost function Entries(nodes: seq<Node>, hash: string -> string): set<string>
    requires Ordinary(nodes)
  {
    set n | n in nodes :: Encode(FactOf(n, hash))
  }

  /** The stream fed to the hash. */
  ghost function Stream(nodes: seq<Node>, hash: string -> string): string
    requires Ordinary(nodes)
  {
    Frame(Sorted(Entries(nodes, hash)))
  }

  /** Two trees have one stream, in whatever order they were walked, exactly when
      they have the same directories and the same files with the same sums. */
  lemma SameStreamIffSameTree(a: seq<Node>, b: seq<Node>, hash: string -> string)
    requires Ordinary(a) && Ordinary(b) && Walk(a, hash) && Walk(b, hash)
    ensures Stream(a, hash) == Stream(b, hash) <==> Facts(a, hash) == Facts(b, hash)
  {
    if Facts(a, hash) == Facts(b, hash) {
      FactsGiveEntries(a, b, hash);
      FactsGiveEntries(b, a, hash);
      assert Entries(a, hash) == Entries(b, hash);
    }
    if Stream(a, hash) == Stream(b, hash) {
      FrameInjective(Sorted(Entries(a, hash)), Sorted(Entries(b, hash)));
      SortedEntries(a, b, hash);
      EntriesGiveFacts(a, b, hash);
      EntriesGiveFacts(b, a, hash);
    }
  }

  lemma SortedEntries(a: seq<Node>, b: seq<Node>, hash: string -> string)
    requires Ordinary(a) && Ordinary(b) && Sorted(Entries(a, hash)) == Sorted(Entries(b, hash))
    ensures Entries(a, hash) == Entries(b, hash)
  {
    forall e ensures e in Entries(a, hash) <==> e in Entries(b, hash) {
      assert e in Sorted(Entries(a, hash)) <==> e in Entries(a, hash);
      assert e in Sorted(Entries(b, hash)) <==> e in Entries(b, hash);
    }
  }

  lemma FactsGiveEntries(a: seq<Node>, b: seq<Node>, hash: string -> string)
    requires Ordinary(a) && Ordinary(b) && Facts(a, hash) <= Facts(b, hash)
    ensures Entries(a, hash) <= Entries(b, hash)
  {
    forall n | n in a ensures Encode(FactOf(n, hash)) in Entries(b, hash) {
      assert FactOf(n, hash) in Facts(a, hash);
      var m :| m in b && FactOf(m, hash) == FactOf(n, hash);
    }
  }

  lemma EntriesGiveFacts(a: seq<Node>, b: seq<Node>, hash: string -> string)
    requires Ordinary(a) && Ordinary(b) && Walk(a, hash) && Walk(b, hash) && Entries(a, hash) <= Entries(b, hash)
    ensures Facts(a, hash) <= Facts(b, hash)
  {
    forall n | n in a ensures FactOf(n, hash) in Facts(b, hash) {
      assert Encode(FactOf(n, hash)) in Entries(a, hash);
      var m :| m in b && Encode(FactOf(m, hash)) == Encode(FactOf(n, hash));
      EncodeInjective(FactOf(n, hash), FactOf(m, hash));
    }
  }

  const REQUIRED: seq<Node> := [Directory("schema"), Directory("stable-schema"), Directory("reports"),
                                Regular("common.rs", ""), Regular("common.rs.source_sha", "")]

  predicate SameKind(a: Node, b: Node) { a.path == b.path && a.Directory? == b.Directory? && a.Regular? == b.Regular? }

  ghost predicate HasRequired(nodes: seq<Node>) { forall r <- REQUIRED :: exists n :: n in nodes && SameKind(n, r) }

  /** The entries a candidate directory must have: three directories and two regular
      files. */
  lemma RequiredByName(nodes: seq<Node>)
    ensures HasRequired(nodes) <==>
            && Directory("schema") in nodes && Directory("stable-schema") in nodes && Directory("reports") in nodes
            && (exists content :: Regular("common.rs", content) in nodes)
            && (exists content :: Regular("common.rs.source_sha", content) in nodes)
  {
    assert REQUIRED[0] in REQUIRED && REQUIRED[1] in REQUIRED && REQUIRED[2] in REQUIRED;
    assert REQUIRED[3] in REQUIRED && REQUIRED[4] in REQUIRED;
    forall content, path | Regular(path, content) in nodes ensures SameKind(Regular(path, content), Regular(path, "")) {}
    forall n, path | n in nodes && SameKind(n, Directory(path)) ensures Directory(path) in nodes {
      assert n == Directory(path);
    }
    forall n, path | n in nodes && SameKind(n, Regular(path, "")) ensures Regular(path, n.content) in nodes {
      assert n == Regular(path, n.content);
    }
  }

  /** candidateDigest up to the final hash: None is an error. */
  method CandidateStream(nodes: seq<Node>, hash: string -> string) returns (r: Option<string>)
    requires Walk(nodes, hash)
    ensures r.Some? <==> HasRequired(nodes) && Ordinary(nodes)
    ensures r.Some? ==> r.value == Stream(nodes, hash)
  {
    hide Ascending, Encode, SameKind, BigEndian, Walk;
    for i := 0 to |REQUIRED|
      invariant forall j :: 0 <= j < i ==> exists n :: n in nodes && SameKind(n, REQUIRED[j])
    {
      var found := Lstat(nodes, REQUIRED[i]);
      if !found {
        assert REQUIRED[i] in REQUIRED;
        return None;
      }
    }
    var entries := Collect(nodes, hash);
    if entries.None? { return None; }
    var sorted := SortDistinct(entries.value);
    SortedOnce(nodes, hash, entries.value, sorted);
    var stream := "";
    for i := 0 to |sorted|
      invariant stream == Frame(sorted[..i])
    {
      assert sorted[..i + 1][..i] == sorted[..i];
      stream := stream + BigEndian(|sorted[i]|, 8);
      stream := stream + sorted[i];
    }
    assert sorted[..|sorted|] == sorted;
    return Some(stream);
  }

  method Lstat(nodes: seq<Node>, wanted: Node) returns (found: bool)
    ensures found <==> exists n :: n in nodes && SameKind(n, wanted)
  {
    for i := 0 to |nodes|
      invariant forall j :: 0 <= j < i ==> !SameKind(nodes[j], wanted)
    {
      if SameKind(nodes[i], wanted) { return true; }
    }
    return false;
  }

  /** The entries in the order of the walk. */
  method Collect(nodes: seq<Node>, hash: string -> string) returns (entries: Option<seq<string>>)
    requires Walk(nodes, hash)
    ensures entries.Some? <==> Ordinary(nodes)
    ensures entries.Some? ==> |entries.value| == |nodes|
    ensures entries.Some? ==> forall i :: 0 <= i < |nodes| ==> entries.value[i] == Encode(FactOf(nodes[i], hash))
    ensures entries.Some? ==> forall i, j :: 0 <= i < j < |nodes| ==> entries.value[i] != entries.value[j]
  {
    var list: seq<string> := [];
    for i := 0 to |nodes|
      invariant |list| == i
      invariant forall j :: 0 <= j < i ==> !nodes[j].Special? && list[j] == Encode(FactOf(nodes[j], hash))
    {
      match nodes[i] {
        case Directory(path) => list := list + ["d" + [NUL] + path];
        case Special(_) => return None;
        case Regular(path, content) => list := list + ["f" + [NUL] + path + [NUL] + hash(content)];
      }
    }
    forall i, j | 0 <= i < j < |nodes| ensures list[i] != list[j] {
      assert nodes[i] in nodes && nodes[j] in nodes;
      if list[i] == list[j] { EncodeInjective(FactOf(nodes[i], hash), FactOf(nodes[j], hash)); }
    }
    return Some(list);
  }

  /** sort.Strings over entries that all differ. */
  method SortDistinct(entries: seq<string>) returns (sorted: seq<string>)
    requires forall i, j :: 0 <= i < j < |entries| ==> entries[i] != entries[j]
    ensures Ascending(sorted) && forall e :: e in sorted <==> e in entries
  {
    sorted := [];
    for i := 0 to |entries|
      invariant Ascending(sorted) && forall e :: e in sorted <==> e in entries[..i]
    {
      assert entries[i] !in entries[..i];
      InsertAscends(sorted, entries[i]);
      sorted := Insert(sorted, entries[i]);
      assert entries[..i + 1] == entries[..i] + [entries[i]];
    }
    assert entries[..|entries|] == entries;
  }

  lemma SortedOnce(nodes: seq<Node>, hash: string -> string, entries: seq<string>, sorted: seq<string>)
    requires Ordinary(nodes) && Ascending(sorted) && forall e :: e in sorted <==> e in entries
    requires |entries| == |nodes| && forall i :: 0 <= i < |nodes| ==> entries[i] == Encode(FactOf(nodes[i], hash))
    ensures sorted == Sorted(Entries(nodes, hash))
  {
    hide Encode, FactOf;
    AscendingUnique(sorted, Sorted(Entries(nodes, hash)));
  }
}
