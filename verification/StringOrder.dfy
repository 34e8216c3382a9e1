/** The order of sort.Strings: by code points, a prefix first. */
module StringOrder {

  predicate Below(a: string, b: string) {
    if b == "" then false
    else if a == "" then true
    else if a[0] != b[0] then a[0] < b[0]
    else Below(a[1..], b[1..])
  }

  /** Where two strings first differ, the first has the smaller character. */
  predicate FirstSmaller(a: string, b: string, k: nat) {
    k < |a| && k < |b| && a[k] < b[k] && forall i :: 0 <= i < k ==> a[i] == b[i]
  }

  /** The order is lexicographic: a string is below another exactly when it is a proper
      prefix of it or has the smaller character where they first differ. */
  lemma {:induction false} BelowIsLexicographic(a: string, b: string)
    ensures Below(a, b) <==> a < b || exists k: nat :: FirstSmaller(a, b, k)
    decreases |a|
  {
    if a != "" && b != "" && a[0] == b[0] {
      var x, y := a[1..], b[1..];
      BelowIsLexicographic(x, y);
      assert a == [a[0]] + x && b == [b[0]] + y;
      assert a < b <==> x < y;
      if k: nat :| FirstSmaller(x, y, k) { assert FirstSmaller(a, b, k + 1); }
      if k: nat :| FirstSmaller(a, b, k) { assert FirstSmaller(x, y, k - 1); }
    } else if Below(a, b) && a != "" {
      assert FirstSmaller(a, b, 0);
    }
  }

  lemma {:induction false} BelowTotal(a: string, b: string)
    ensures Below(a, b) || a == b || Below(b, a)
    ensures !(Below(a, b) && Below(b, a)) && !Below(a, a)
    decreases |a|
  {
    if a != "" {
      BelowTotal(a[1..], if b == "" then a[1..] else b[1..]);
      BelowTotal(a[1..], a[1..]);
      if b != "" && a[0] == b[0] && a[1..] == b[1..] { assert a == [a[0]] + a[1..] && b == [b[0]] + b[1..]; }
    }
  }

  lemma {:induction false} BelowTransitive(a: string, b: string, c: string)
    requires Below(a, b) && Below(b, c)
    ensures Below(a, c)
    decreases |a|
  {
    if a != "" && a[0] == b[0] && b[0] == c[0] { BelowTransitive(a[1..], b[1..], c[1..]); }
  }

  ghost predicate Ascending(keys: seq<string>) { forall i, j :: 0 <= i < j < |keys| ==> Below(keys[i], keys[j]) }

  function Insert(keys: seq<string>, k: string): seq<string> {
    if keys == [] then [k]
    else if Below(k, keys[0]) then [k] + keys
    else [keys[0]] + Insert(keys[1..], k)
  }

  lemma {:induction false} InsertAscends(keys: seq<string>, k: string)
    requires Ascending(keys) && k !in keys
    ensures Ascending(Insert(keys, k)) && forall x :: x in Insert(keys, k) <==> x in keys || x == k
  {
    if keys == [] {
    } else {
      BelowTotal(k, keys[0]);
      assert keys == [keys[0]] + keys[1..];
      if Below(k, keys[0]) {
        forall j | 0 <= j < |keys| ensures Below(k, keys[j]) {
          if j > 0 { BelowTransitive(k, keys[0], keys[j]); }
        }
      } else {
        assert keys[0] in keys;
        InsertAscends(keys[1..], k);
        var r := Insert(keys[1..], k);
        forall j | 0 <= j < |r| ensures Below(keys[0], r[j]) {
          assert r[j] in r;
          if r[j] != k {
            var i :| 0 <= i < |keys[1..]| && keys[1..][i] == r[j];
            assert keys[i + 1] == r[j];
          }
        }
      }
    }
  }

  /** Ascending lists with the same elements are equal. */
  lemma {:induction false} AscendingUnique(a: seq<string>, b: seq<string>)
    requires Ascending(a) && Ascending(b) && forall x :: x in a <==> x in b
    ensures a == b
    decreases |a|
  {
    assert forall x :: x in a ==> x in b;
    assert |b| > 0 ==> b[0] in b;
    if a == [] {
    } else {
      assert a[0] in b;
      FirstIsLeast(a);
      FirstIsLeast(b);
      hide Ascending;
      BelowTotal(a[0], b[0]);
      assert a[0] == b[0];
      forall x ensures x in a[1..] <==> x in b[1..] {
        assert (x in a[1..] <==> x in a && x != a[0]) && (x in b[1..] <==> x in b && x != b[0]);
      }
      AscendingUnique(a[1..], b[1..]);
      assert a == [a[0]] + a[1..] && b == [b[0]] + b[1..];
    }
  }

  lemma FirstIsLeast(a: seq<string>)
    requires Ascending(a) && a != []
    ensures Ascending(a[1..]) && a[0] in a
    ensures forall x <- a :: x == a[0] || Below(a[0], x)
    ensures forall x :: x in a[1..] <==> x in a && x != a[0]
  {
    assert a == [a[0]] + a[1..];
    forall x | x in a[1..] ensures x != a[0] {
      var i :| 0 <= i < |a[1..]| && a[1..][i] == x;
      assert Below(a[0], a[i + 1]);
      BelowTotal(a[0], a[0]);
    }
  }

  /** The elements of a set in ascending order. */
  ghost function Sorted(s: set<string>): (r: seq<string>)
    ensures Ascending(r) && forall x :: x in r <==> x in s
  {
    if s == {} then []
    else
      var k :| k in s;
      InsertAscends(Sorted(s - {k}), k);
      Insert(Sorted(s - {k}), k)
  }

  /** Sorting keys collected in any order. */
  method SortStrings(s: set<string>) returns (r: seq<string>)
    ensures r == Sorted(s)
  {
    r := [];
    var todo := s;
    while todo != {}
      invariant todo <= s && Ascending(r)
      invariant forall x :: x in r <==> x in s && x !in todo
      decreases |todo|
    {
      var k :| k in todo;
      InsertAscends(r, k);
      r := Insert(r, k);
      todo := todo - {k};
    }
    AscendingUnique(r, Sorted(s));
  }
}
