/** Local references and JSON Pointer escaping (llmcaller/codex/schema.go; RFC 6901
    sections 3 and 4). */
module Pointer {
  import opened Wrappers
  import opened Json

  /** strings.ReplaceAll with a nonempty pattern. */
  function ReplaceAll(s: string, from: string, by_: string): string
    requires from != ""
  {
    if |s| < |from| then s
    else if s[..|from|] == from then by_ + ReplaceAll(s[|from|..], from, by_)
    else [s[0]] + ReplaceAll(s[1..], from, by_)
  }

  function Escape(token: string): string { ReplaceAll(ReplaceAll(token, "~", "~0"), "/", "~1") }

  function Unescape(token: string): string { ReplaceAll(ReplaceAll(token, "~1", "/"), "~0", "~") }

  /** strings.Split: never empty. */
  function Split(s: string, sep: char): (r: seq<string>)
    ensures |r| >= 1
  {
    if s == "" then [""]
    else
      var rest := Split(s[1..], sep);
      if s[0] == sep then [""] + rest else [[s[0]] + rest[0]] + rest[1..]
  }

  function Join(tokens: seq<string>, sep: char): string
    requires tokens != []
  {
    if |tokens| == 1 then tokens[0] else tokens[0] + [sep] + Join(tokens[1..], sep)
  }

  function UnescapeAll(tokens: seq<string>): seq<string> {
    if tokens == [] then [] else [Unescape(tokens[0])] + UnescapeAll(tokens[1..])
  }

  function EscapeAll(keys: seq<string>): (r: seq<string>)
    ensures |r| == |keys|
  {
    if keys == [] then [] else [Escape(keys[0])] + EscapeAll(keys[1..])
  }

  /** The keys a reference of the form "#/..." names. */
  function Tokens(ref: string): seq<string> {
    UnescapeAll(Split(if |ref| >= 2 then ref[2..] else "", '/'))
  }

  function Descend(v: Json, keys: seq<string>): Option<Json>
    decreases |keys|
  {
    if keys == [] then Some(v)
    else if v.Obj? && keys[0] in v.fields then Descend(v.fields[keys[0]], keys[1..])
    else None
  }

  predicate IsLocal(ref: string) { |ref| >= 2 && ref[..2] == "#/" }

  function Resolve(root: Json, ref: string): Option<Json> {
    if ref == "#" then Some(root)
    else if !IsLocal(ref) then None
    else Descend(root, Tokens(ref))
  }

  /** The loop of resolveLocalRef. */
  method ResolveLocalRef(root: Json, ref: string) returns (r: Option<Json>)
    ensures r == Resolve(root, ref)
  {
    if ref == "#" { return Some(root); }
    if !IsLocal(ref) { return None; }
    var tokens := Split(ref[2..], '/');
    var current := root;
    var i := 0;
    assert UnescapeAll(tokens) == Tokens(ref);
    while i < |tokens|
      invariant 0 <= i <= |tokens|
      invariant Descend(root, Tokens(ref)) == Descend(current, UnescapeAll(tokens[i..]))
    {
      assert tokens[i..][0] == tokens[i] && tokens[i..][1..] == tokens[i + 1..];
      var token := Unescape(tokens[i]);
      if !current.Obj? || token !in current.fields { return None; }
      current := current.fields[token];
      i := i + 1;
    }
    return Some(current);
  }

  // --------------------------------------------------------------- round trip

  /** The first pass of escaping, character by character. */
  lemma TildeStep(c: char, s: string)
    ensures ReplaceAll([c] + s, "~", "~0") == (if c == '~' then "~0" else [c]) + ReplaceAll(s, "~", "~0")
  {
    assert ([c] + s)[1..] == s && ([c] + s)[..1] == [c];
  }

  lemma SlashStep(c: char, s: string)
    ensures ReplaceAll([c] + s, "/", "~1") == (if c == '/' then "~1" else [c]) + ReplaceAll(s, "/", "~1")
  {
    assert ([c] + s)[1..] == s && ([c] + s)[..1] == [c];
  }

  function EscapeChar(c: char): string { if c == '~' then "~0" else if c == '/' then "~1" else [c] }

  lemma EscapeStep(c: char, s: string)
    ensures Escape([c] + s) == EscapeChar(c) + Escape(s)
  {
    TildeStep(c, s);
    var t := ReplaceAll(s, "~", "~0");
    if c == '~' {
      assert "~0" + t == ['~'] + (['0'] + t);
      SlashStep('~', ['0'] + t);
      SlashStep('0', t);
      assert ['~'] + (['0'] + ReplaceAll(t, "/", "~1")) == "~0" + ReplaceAll(t, "/", "~1");
    } else {
      SlashStep(c, t);
    }
  }

  /** An escaped token contains no slash. */
  lemma {:induction false} EscapeHasNoSlash(s: string)
    ensures '/' !in Escape(s)
  {
    if s == "" {
    } else {
      EscapeHasNoSlash(s[1..]);
      EscapeStep(s[0], s[1..]);
      assert s == [s[0]] + s[1..];
    }
  }

  /** One escaped character undone by the first pass. */
  lemma SlashUndone(c: char, e: string)
    ensures ReplaceAll(EscapeChar(c) + e, "~1", "/") == (if c == '~' then "~0" else [c]) + ReplaceAll(e, "~1", "/")
  {
    if c == '~' {
      KeptBySlash('~', "0" + e);
      KeptBySlash('0', e);
      assert "~0" + e == ['~'] + ("0" + e) && "0" + e == ['0'] + e;
    } else if c == '/' {
      var u := "~1" + e;
      assert u[..2] == "~1" && u[2..] == e;
    } else {
      KeptBySlash(c, e);
    }
  }

  /** A character that does not begin the pattern stays. */
  lemma KeptBySlash(c: char, e: string)
    requires c != '~' || (e != "" && e[0] != '1')
    ensures ReplaceAll([c] + e, "~1", "/") == [c] + ReplaceAll(e, "~1", "/")
  {
    var u := [c] + e;
    assert u[1..] == e && u[0] == c;
    if |e| == 0 {
      assert e == "";
    } else {
      assert u[1] == e[0];
      assert u[..2] != "~1" by { assert u[..2][0] == c && u[..2][1] == e[0]; }
    }
  }

  /** Undoing the slashes restores the token with only its tildes escaped. */
  lemma {:induction false} UnescapeSlashes(s: string)
    ensures ReplaceAll(Escape(s), "~1", "/") == ReplaceAll(s, "~", "~0")
  {
    hide ReplaceAll;
    if s == "" {
      assert Escape("") == "" && ReplaceAll("", "~1", "/") == ReplaceAll("", "~", "~0") by { EmptyKept(); }
    } else {
      UnescapeSlashes(s[1..]);
      EscapeStep(s[0], s[1..]);
      TildeStep(s[0], s[1..]);
      assert s == [s[0]] + s[1..];
      SlashUndone(s[0], Escape(s[1..]));
    }
  }

  lemma EmptyKept()
    ensures Escape("") == "" && ReplaceAll("", "~1", "/") == "" && ReplaceAll("", "~", "~0") == ""
  {
  }

  lemma {:induction false} UnescapeTildes(s: string)
    ensures ReplaceAll(ReplaceAll(s, "~", "~0"), "~0", "~") == s
  {
    if s == "" {
    } else {
      var t := ReplaceAll(s[1..], "~", "~0");
      UnescapeTildes(s[1..]);
      TildeStep(s[0], s[1..]);
      assert s == [s[0]] + s[1..];
      if s[0] == '~' {
        var u := "~0" + t;
        assert u[..2] == "~0" && u[2..] == t;
      } else {
        var u := [s[0]] + t;
        assert u[1..] == t;
        assert |u| >= 2 ==> u[..2] != "~0" by { assert u[0] == s[0]; }
        if |t| == 0 { assert t == ""; }
      }
    }
  }

  lemma UnescapeEscape(s: string)
    ensures Unescape(Escape(s)) == s
  {
    UnescapeSlashes(s);
    UnescapeTildes(s);
  }

  lemma {:induction false} SplitToken(token: string, s: string, sep: char)
    requires sep !in token
    ensures Split(token, sep) == [token]
    ensures Split(token + [sep] + s, sep) == [token] + Split(s, sep)
  {
    if token == "" {
      assert ("" + [sep] + s)[1..] == s;
    } else {
      SplitToken(token[1..], s, sep);
      var u := token + [sep] + s;
      assert u[1..] == token[1..] + [sep] + s && u[0] == token[0];
      assert [token[0]] + token[1..] == token;
    }
  }

  lemma {:induction false} SplitJoin(tokens: seq<string>, sep: char)
    requires tokens != [] && forall t <- tokens :: sep !in t
    ensures Split(Join(tokens, sep), sep) == tokens
  {
    if |tokens| == 1 {
      SplitToken(tokens[0], "", sep);
    } else {
      SplitJoin(tokens[1..], sep);
      SplitToken(tokens[0], Join(tokens[1..], sep), sep);
    }
  }

  lemma {:induction false} EscapedKeys(keys: seq<string>)
    ensures UnescapeAll(EscapeAll(keys)) == keys && forall t <- EscapeAll(keys) :: '/' !in t
  {
    if keys == [] {
    } else {
      EscapedKeys(keys[1..]);
      UnescapeEscape(keys[0]);
      EscapeHasNoSlash(keys[0]);
      assert EscapeAll(keys)[1..] == EscapeAll(keys[1..]);
    }
  }

  /** JSON Pointer round trip: resolving the escaped keys descends exactly them. */
  lemma PointerRoundTrip(root: Json, keys: seq<string>)
    requires keys != []
    ensures Resolve(root, "#/" + Join(EscapeAll(keys), '/')) == Descend(root, keys)
  {
    var ref := "#/" + Join(EscapeAll(keys), '/');
    assert ref[2..] == Join(EscapeAll(keys), '/');
    EscapedKeys(keys);
    SplitJoin(EscapeAll(keys), '/');
  }
}
