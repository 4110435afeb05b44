/** Variable expansion in configured paths (crate cs-config, path). */
module PathExpansion {
  import opened Prelude
  import Utf8

  /** `std::env::var`. */
  type Environment = string -> Option<string>

  datatype Token = Plain(c: char) | Variable(name: string) | Braced(name: string)

  predicate NameChar(c: char) {
    'a' <= c <= 'z' || 'A' <= c <= 'Z' || '0' <= c <= '9' || c == '_'
  }

  function NameLen(s: string): (n: nat)
    ensures n <= |s|
  {
    if s == "" || !NameChar(s[0]) then 0 else 1 + NameLen(s[1..])
  }

  function PositionOf(s: string, c: char): (r: Option<nat>)
    ensures r.Some? ==> r.value < |s|
  {
    if s == "" then None
    else if s[0] == c then Some(0)
    else match PositionOf(s[1..], c)
      case None => None
      case Some(k) => Some(k + 1)
  }

  /** The first token of a text, and how many characters it takes. */
  function First(s: string): (r: (Token, nat))
    requires s != ""
    ensures 1 <= r.1 <= |s|
  {
    if s[0] != '$' then (Plain(s[0]), 1)
    else if |s| > 1 && s[1] == '{' && PositionOf(s[2..], '}').Some? then
      var end := PositionOf(s[2..], '}').value;
      (Braced(s[2..2 + end]), end + 3)
    else
      var n := NameLen(s[1..]);
      if n > 0 then (Variable(s[1..1 + n]), 1 + n) else (Plain('$'), 1)
  }

  function Tokens(s: string): seq<Token> {
    if s == "" then [] else [First(s).0] + Tokens(s[First(s).1..])
  }

  function Text(t: Token): string {
    match t
    case Plain(c) => [c]
    case Variable(name) => "$" + name
    case Braced(name) => "${" + name + "}"
  }

  function TextOf(tokens: seq<Token>): string {
    if tokens == [] then "" else Text(tokens[0]) + TextOf(tokens[1..])
  }

  function ValueOf(env: Environment, name: string): string {
    if env(name).Some? then env(name).value else ""
  }

  function Value(env: Environment, t: Token): string {
    match t
    case Plain(c) => [c]
    case Variable(name) => ValueOf(env, name)
    case Braced(name) => ValueOf(env, name)
  }

  function Values(env: Environment, tokens: seq<Token>): string {
    if tokens == [] then "" else Value(env, tokens[0]) + Values(env, tokens[1..])
  }

  /** The expansion: the values of the tokens. */
  function Expanded(env: Environment, s: string): string {
    Values(env, Tokens(s))
  }

  lemma {:induction false} FirstBrace(s: string)
    requires PositionOf(s, '}').Some?
    ensures s[PositionOf(s, '}').value] == '}'
  {
    if s[0] != '}' { FirstBrace(s[1..]); }
  }

  lemma FirstSpells(s: string)
    requires s != ""
    ensures s[..First(s).1] == Text(First(s).0)
  {
    var (t, n) := First(s);
    if t.Braced? {
      FirstBrace(s[2..]);
      var end := n - 3;
      assert s[2..][end] == s[2 + end];
      hide PositionOf;
      assert s[..n] == [s[0], s[1]] + s[2..2 + end] + [s[2 + end]];
    } else if t.Variable? {
      assert s[..n] == [s[0]] + s[1..n];
    }
  }

  /** No character is dropped and none is looked at twice: the tokens spell the text. */
  lemma {:induction false} TokensSpellTheText(s: string)
    ensures TextOf(Tokens(s)) == s
  {
    hide First, Text, Tokens, TextOf;
    if s == "" {
      NoTokens();
    } else {
      var (t, n) := First(s);
      FirstSpells(s);
      TokensUnfold(s);
      TokensSpellTheText(s[n..]);
      TextOfUnfold(t, Tokens(s[n..]));
      assert s == s[..n] + s[n..];
    }
  }

  lemma NoTokens()
    ensures TextOf(Tokens("")) == ""
  {}

  lemma TokensUnfold(s: string)
    requires s != ""
    ensures Tokens(s) == [First(s).0] + Tokens(s[First(s).1..])
  {
    hide First;
  }

  lemma TextOfUnfold(t: Token, rest: seq<Token>)
    ensures TextOf([t] + rest) == Text(t) + TextOf(rest)
  {
    hide Text;
    assert ([t] + rest)[1..] == rest;
  }

  /** A text without a dollar sign is left alone. */
  lemma {:induction false} NothingToExpand(env: Environment, s: string)
    requires forall i | 0 <= i < |s| :: s[i] != '$'
    ensures Expanded(env, s) == s
  {
    if s != "" {
      NothingToExpand(env, s[1..]);
      TokensUnfold(s);
      assert Tokens(s)[1..] == Tokens(s[1..]);
      assert s == [s[0]] + s[1..];
    }
  }

  // ---- what the expansion means ----------------------------------------------------------------------

  predicate EndsName(t: string) {
    t == "" || !NameChar(t[0])
  }

  /** The variable's value, or nothing if it is not set. */
  function Substitute(env: Environment, name: string): string {
    match env(name)
    case Some(value) => value
    case None => ""
  }

  /**
   The laws of an expansion `f`, over texts alone: what a dollar sign stands for is replaced by its
   variable's value, and every other character stays.
   */
  ghost predicate Expands(env: Environment, f: string -> string) {
    && f("") == ""
    && (forall c: char, t: string | c != '$' :: f([c] + t) == [c] + f(t))
    && (forall n: string, t: string | '}' !in n :: f("${" + n + "}" + t) == Substitute(env, n) + f(t))
    && (forall t: string | '}' !in t :: f("${" + t) == "${" + f(t))
    && (forall n: string, t: string | IsName(n) && EndsName(t) :: f("$" + n + t) == Substitute(env, n) + f(t))
    && (forall t: string | EndsName(t) && (t == "" || t[0] != '{') :: f("$" + t) == "$" + f(t))
  }

  /** A letter, digit or underscore, and more of them. */
  predicate IsName(n: string) {
    n != "" && forall c | c in n :: 'a' <= c <= 'z' || 'A' <= c <= 'Z' || '0' <= c <= '9' || c == '_'
  }

  /** The first token, and the rest. */
  lemma ExpandedFirst(env: Environment, s: string, t: Token, rest: string)
    requires s != "" && First(s) == (t, |s| - |rest|) && |rest| <= |s| && s[|s| - |rest|..] == rest
    ensures Expanded(env, s) == Value(env, t) + Expanded(env, rest)
  {
    TokensUnfold(s);
    hide First, Value, Tokens;
    assert ([t] + Tokens(rest))[1..] == Tokens(rest);
  }

  lemma {:induction false} BraceAfter(n: string, t: string)
    requires '}' !in n
    ensures PositionOf(n + "}" + t, '}') == Some(|n|)
  {
    var s := n + "}" + t;
    if n != "" {
      assert s[1..] == n[1..] + "}" + t;
      BraceAfter(n[1..], t);
    }
  }

  lemma {:induction false} NoBrace(t: string)
    requires '}' !in t
    ensures PositionOf(t, '}').None?
  {
    if t != "" { NoBrace(t[1..]); }
  }

  lemma {:induction false} NameBefore(n: string, t: string)
    requires (n == "" || IsName(n)) && EndsName(t)
    ensures NameLen(n + t) == |n|
  {
    var s := n + t;
    if n == "" {
      assert s == t;
    } else {
      assert s[0] == n[0] && s[1..] == n[1..] + t;
      assert n[0] in n && forall c | c in n[1..] :: c in n;
      NameBefore(n[1..], t);
    }
  }

  lemma BracedExpands(env: Environment, n: string, t: string)
    requires '}' !in n
    ensures Expanded(env, "${" + n + "}" + t) == Substitute(env, n) + Expanded(env, t)
  {
    hide PositionOf, Expanded;
    var s := "${" + n + "}" + t;
    BraceAfter(n, t);
    assert s[2..] == n + "}" + t && s[2..2 + |n|] == n && s[|n| + 3..] == t;
    ExpandedFirst(env, s, Braced(n), t);
  }

  lemma VariableExpands(env: Environment, n: string, t: string)
    requires IsName(n) && EndsName(t)
    ensures Expanded(env, "$" + n + t) == Substitute(env, n) + Expanded(env, t)
  {
    hide PositionOf, Expanded, NameLen;
    var s := "$" + n + t;
    NameBefore(n, t);
    assert n[0] in n && s[1] == n[0];
    assert s[1..] == n + t && s[1..1 + |n|] == n && s[|n| + 1..] == t;
    ExpandedFirst(env, s, Variable(n), t);
  }

  lemma LoneDollarStays(env: Environment, t: string)
    requires EndsName(t) && (t == "" || t[0] != '{')
    ensures Expanded(env, "$" + t) == "$" + Expanded(env, t)
  {
    hide PositionOf, Expanded;
    var s := "$" + t;
    assert s[1..] == t;
    ExpandedFirst(env, s, Plain('$'), t);
  }

  lemma CharStays(env: Environment, c: char, t: string)
    requires c != '$'
    ensures Expanded(env, [c] + t) == [c] + Expanded(env, t)
  {
    hide Expanded;
    assert ([c] + t)[1..] == t;
    ExpandedFirst(env, [c] + t, Plain(c), t);
  }

  lemma UnclosedBraceStays(env: Environment, t: string)
    requires '}' !in t
    ensures Expanded(env, "${" + t) == "${" + Expanded(env, t)
  {
    hide PositionOf, Expanded;
    var s := "${" + t;
    NoBrace(t);
    assert s[2..] == t && s[1..] == "{" + t;
    ExpandedFirst(env, s, Plain('$'), "{" + t);
    CharStays(env, '{', t);
    assert "${" + Expanded(env, t) == "$" + ("{" + Expanded(env, t));
  }

  /** The expansion keeps the laws. */
  lemma ExpandedExpands(env: Environment)
    ensures Expands(env, s => Expanded(env, s))
  {
    hide Expanded, Substitute;
    assert Expanded(env, "") == "" by { ExpandedNothing(env); }
    forall c: char, t: string | c != '$' ensures Expanded(env, [c] + t) == [c] + Expanded(env, t) { CharStays(env, c, t); }
    forall n: string, t: string | '}' !in n
      ensures Expanded(env, "${" + n + "}" + t) == Substitute(env, n) + Expanded(env, t) { BracedExpands(env, n, t); }
    forall t: string | '}' !in t ensures Expanded(env, "${" + t) == "${" + Expanded(env, t) { UnclosedBraceStays(env, t); }
    forall n: string, t: string | IsName(n) && EndsName(t)
      ensures Expanded(env, "$" + n + t) == Substitute(env, n) + Expanded(env, t) { VariableExpands(env, n, t); }
    forall t: string | EndsName(t) && (t == "" || t[0] != '{')
      ensures Expanded(env, "$" + t) == "$" + Expanded(env, t) { LoneDollarStays(env, t); }
  }

  lemma ExpandedNothing(env: Environment)
    ensures Expanded(env, "") == ""
  {}

  /** How every text but the empty one begins. */
  lemma Begins(s: string) returns (n: string, t: string)
    requires s != ""
    ensures
      || (s[0] != '$' && s == [s[0]] + t)
      || ('}' !in n && s == "${" + n + "}" + t)
      || ('}' !in t && s == "${" + t)
      || (IsName(n) && EndsName(t) && s == "$" + n + t)
      || (EndsName(t) && (t == "" || t[0] != '{') && s == "$" + t)
    ensures |t| < |s|
  {
    n, t := "", s[1..];
    if s[0] != '$' { return; }
    if t != "" && t[0] == '{' {
      var rest := t[1..];
      if '}' in rest {
        n, t := SplitAtBrace(rest);
        assert s == "${" + n + "}" + t;
      } else {
        t := rest;
        assert s == "${" + t;
      }
    } else if !EndsName(t) {
      n, t := SplitName(t);
      assert s == "$" + n + t;
    } else {
      assert s == "$" + t;
    }
  }

  lemma {:induction false} SplitAtBrace(s: string) returns (n: string, t: string)
    requires '}' in s
    ensures '}' !in n && s == n + "}" + t && |t| < |s|
  {
    if s[0] == '}' {
      n, t := "", s[1..];
    } else {
      n, t := SplitAtBrace(s[1..]);
      n := [s[0]] + n;
    }
  }

  lemma {:induction false} SplitName(s: string) returns (n: string, t: string)
    requires !EndsName(s)
    ensures IsName(n) && EndsName(t) && s == n + t && |t| < |s|
  {
    if EndsName(s[1..]) {
      n, t := [s[0]], s[1..];
    } else {
      n, t := SplitName(s[1..]);
      n := [s[0]] + n;
    }
  }

  /** And nothing else keeps them: the laws say what every text expands to. */
  lemma {:induction false} ExpansionIsTheOnlyOne(env: Environment, f: string -> string, s: string)
    requires Expands(env, f)
    ensures f(s) == Expanded(env, s)
    decreases |s|
  {
    hide Expanded, Substitute;
    ExpandedNothing(env);
    if s != "" {
      var n, t := Begins(s);
      ExpansionIsTheOnlyOne(env, f, t);
      SameLaw(env, f, s, n, t);
    }
  }

  lemma SameLaw(env: Environment, f: string -> string, s: string, n: string, t: string)
    requires Expands(env, f) && s != "" && f(t) == Expanded(env, t)
    requires
      || (s[0] != '$' && s == [s[0]] + t)
      || ('}' !in n && s == "${" + n + "}" + t)
      || ('}' !in t && s == "${" + t)
      || (IsName(n) && EndsName(t) && s == "$" + n + t)
      || (EndsName(t) && (t == "" || t[0] != '{') && s == "$" + t)
    ensures f(s) == Expanded(env, s)
  {
    hide Expanded, Substitute, IsName, EndsName;
    if s[0] != '$' && s == [s[0]] + t { CharStays(env, s[0], t); }
    else if '}' !in n && s == "${" + n + "}" + t { BracedExpands(env, n, t); }
    else if '}' !in t && s == "${" + t { UnclosedBraceStays(env, t); }
    else if IsName(n) && EndsName(t) && s == "$" + n + t { VariableExpands(env, n, t); }
    else { LoneDollarStays(env, t); }
  }

  // ---- the scan over bytes ------------------------------------------------------------------------------

  /** The scan sits before the k-th character. */
  ghost predicate AtBoundary(s: string, bytes: Bytes, i: nat, k: nat) {
    && k <= |s| && i <= |bytes|
    && bytes[i..] == Utf8.Encode(s[k..])
  }

  /** Over `n` characters, which take `m` bytes. */
  lemma Skip(s: string, bytes: Bytes, i: nat, k: nat, n: nat, m: nat)
    requires AtBoundary(s, bytes, i, k) && k + n <= |s| && m == |Utf8.Encode(s[k..k + n])|
    ensures i + m <= |bytes| && bytes[i..i + m] == Utf8.Encode(s[k..k + n])
    ensures AtBoundary(s, bytes, i + m, k + n)
  {
    var t := s[k..];
    assert t == t[..n] + t[n..];
    assert t[..n] == s[k..k + n] && t[n..] == s[k + n..];
    Utf8.EncodeOfSum(t[..n], t[n..]);
    assert bytes[i + m..] == bytes[i..][m..];
    assert bytes[i..i + m] == bytes[i..][..m];
  }

  lemma SkipDecodes(s: string, bytes: Bytes, i: nat, k: nat, n: nat, m: nat)
    requires AtBoundary(s, bytes, i, k) && k + n <= |s| && m == |Utf8.Encode(s[k..k + n])|
    ensures i + m <= |bytes| && Utf8.Decode(bytes[i..i + m]) == Some(s[k..k + n])
    ensures AtBoundary(s, bytes, i + m, k + n)
  {
    hide Utf8.Encode, Utf8.Decode, AtBoundary;
    Skip(s, bytes, i, k, n, m);
    Utf8.DecodeInvertsEncode(s[k..k + n]);
  }

  lemma OneChar(c: char)
    ensures Utf8.Encode([c]) == Utf8.EncodeChar(c)
  {
    assert [c][1..] == [];
    assert Utf8.Encode([c]) == Utf8.EncodeChar(c) + Utf8.Encode([]);
  }

  /** An ASCII byte at a boundary is that character. */
  lemma AsciiAt(s: string, bytes: Bytes, i: nat, k: nat, a: char)
    requires AtBoundary(s, bytes, i, k) && a as int < 0x80
    ensures k < |s| <==> i < |bytes|
    ensures k < |s| ==> (bytes[i] == a as int <==> s[k] == a)
    ensures k < |s| && s[k] == a ==> AtBoundary(s, bytes, i + 1, k + 1)
  {
    if k < |s| {
      var c := s[k];
      assert s[k..][0] == c;
      Utf8.AsciiIsItself(c);
      OneChar(c);
      assert s[k..k + 1] == [c];
      assert bytes[i] == bytes[i..][0] == Utf8.EncodeChar(c)[0];
      hide Utf8.EncodeChar;
      if c == a { Skip(s, bytes, i, k, 1, 1); }
    } else {
      assert s[k..] == "";
      assert bytes[i..] == [];
    }
  }
  lemma CharFirst(s: string, bytes: Bytes, i: nat, k: nat)
    requires AtBoundary(s, bytes, i, k) && k < |s|
    ensures i <= |bytes| && bytes[i..] == Utf8.EncodeChar(s[k]) + Utf8.Encode(s[k + 1..])
  {
    hide Utf8.EncodeChar;
    assert s[k..][0] == s[k] && s[k..][1..] == s[k + 1..];
  }

  lemma CharAt(s: string, bytes: Bytes, i: nat, k: nat)
    requires AtBoundary(s, bytes, i, k) && k < |s|
    ensures i < |bytes| && i + Utf8.CharLen(bytes[i]) <= |bytes|
    ensures Utf8.Decode(bytes[i..i + Utf8.CharLen(bytes[i])]) == Some([s[k]])
    ensures AtBoundary(s, bytes, i + Utf8.CharLen(bytes[i]), k + 1)
  {
    hide Utf8.EncodeChar, Utf8.Encode, Utf8.Decode, Utf8.CharLen, AtBoundary;
    var c := s[k];
    OneChar(c);
    assert s[k..k + 1] == [c];
    Utf8.EncodedFirst(c, Utf8.Encode(s[k + 1..]));
    CharFirst(s, bytes, i, k);
    assert bytes[i] == bytes[i..][0] == Utf8.EncodeChar(c)[0];
    SkipDecodes(s, bytes, i, k, 1, |Utf8.EncodeChar(c)|);
  }

  // ---- searching bytes --------------------------------------------------------------------------------

  /** The first place of a byte. */
  function ByteAt(bs: Bytes, a: u8): (r: Option<nat>)
    ensures r.Some? ==> r.value < |bs|
  {
    if bs == [] then None
    else if bs[0] == a then Some(0)
    else match ByteAt(bs[1..], a)
      case None => None
      case Some(k) => Some(k + 1)
  }

  method FindByte(bytes: Bytes, from: nat, a: u8) returns (at: Option<nat>)
    requires from <= |bytes|
    ensures at == ByteAt(bytes[from..], a)
  {
    var i := from;
    while i < |bytes|
      invariant from <= i <= |bytes|
      invariant ByteAt(bytes[from..], a) == Further(i - from, ByteAt(bytes[i..], a))
    {
      assert bytes[i..][1..] == bytes[i + 1..];
      if bytes[i] == a { return Some(i - from); }
      i := i + 1;
    }
    return None;
  }

  function Further(n: nat, r: Option<nat>): Option<nat> {
    if r.Some? then Some(n + r.value) else None
  }

  lemma {:induction false} ByteBeyond(x: Bytes, y: Bytes, a: u8)
    requires forall i | 0 <= i < |x| :: x[i] != a
    ensures ByteAt(x + y, a) == Further(|x|, ByteAt(y, a))
  {
    if x == [] {
      assert x + y == y;
    } else {
      assert (x + y)[1..] == x[1..] + y;
      ByteBeyond(x[1..], y, a);
    }
  }

  /** An ASCII byte is found where its character is: no other character contains it. */
  lemma {:induction false} ByteIsCharacter(t: string, c: char)
    requires c as int < 0x80
    ensures ByteAt(Utf8.Encode(t), c as int) ==
      match PositionOf(t, c) case Some(e) => Some(|Utf8.Encode(t[..e])|) case None => None
  {
    if t != "" {
      var first, rest := t[0], t[1..];
      Utf8.AsciiIsItself(first);
      Utf8.AsciiIsItself(c);
      hide Utf8.EncodeChar, Utf8.Encode;
      EncodeUnfold(t);
      if first != c {
        ByteIsCharacter(rest, c);
        ByteBeyond(Utf8.EncodeChar(first), Utf8.Encode(rest), c as int);
        if PositionOf(rest, c).Some? {
          var e := PositionOf(rest, c).value;
          assert t[..e + 1][0] == first && t[..e + 1][1..] == rest[..e];
          EncodeUnfold(t[..e + 1]);
        }
      } else {
        assert t[..0] == "";
        EncodeNothing();
      }
    }
  }

  lemma EncodeUnfold(t: string)
    requires t != ""
    ensures Utf8.Encode(t) == Utf8.EncodeChar(t[0]) + Utf8.Encode(t[1..])
  {
    hide Utf8.EncodeChar;
  }

  lemma EncodeNothing()
    ensures Utf8.Encode("") == []
  {}

  predicate NameByte(b: u8) {
    0x61 <= b <= 0x7A || 0x41 <= b <= 0x5A || 0x30 <= b <= 0x39 || b == 0x5F
  }

  function NameBytes(bs: Bytes): (n: nat)
    ensures n <= |bs|
  {
    if bs == [] || !NameByte(bs[0]) then 0 else 1 + NameBytes(bs[1..])
  }

  method SkipName(bytes: Bytes, from: nat) returns (j: nat)
    requires from <= |bytes|
    ensures j == from + NameBytes(bytes[from..])
  {
    j := from;
    while j < |bytes| && NameByte(bytes[j])
      invariant from <= j <= |bytes|
      invariant NameBytes(bytes[from..]) == j - from + NameBytes(bytes[j..])
    {
      assert bytes[j..][1..] == bytes[j + 1..];
      j := j + 1;
    }
  }

  /** A name takes as many bytes as characters. */
  lemma {:induction false} NameIsAscii(t: string)
    ensures NameBytes(Utf8.Encode(t)) == NameLen(t)
    ensures |Utf8.Encode(t[..NameLen(t)])| == NameLen(t)
  {
    if t != "" {
      var first, rest := t[0], t[1..];
      Utf8.AsciiIsItself(first);
      assert Utf8.Encode(t)[0] == Utf8.EncodeChar(first)[0];
      hide Utf8.EncodeChar;
      if NameChar(first) {
        NameIsAscii(rest);
        var n := NameLen(rest);
        assert Utf8.Encode(t)[1..] == Utf8.Encode(rest);
        assert t[..n + 1][0] == first && t[..n + 1][1..] == rest[..n];
      } else {
        assert t[..0] == "";
      }
    }
  }

  // ---- the expansion ------------------------------------------------------------------------------------

  lemma NextToken(env: Environment, s: string, k: nat)
    requires k < |s|
    ensures k + First(s[k..]).1 <= |s|
    ensures Expanded(env, s[k..]) == Value(env, First(s[k..]).0) + Expanded(env, s[k + First(s[k..]).1..])
  {
    var n := First(s[k..]).1;
    TokensUnfold(s[k..]);
    hide First, Value, Tokens;
    assert s[k..][n..] == s[k + n..];
    assert Tokens(s[k..])[1..] == Tokens(s[k + n..]);
  }

  lemma BracedToken(s: string, k: nat, e: nat)
    requires k + 2 <= |s| && s[k] == '$' && s[k + 1] == '{' && PositionOf(s[k + 2..], '}') == Some(e)
    ensures k + e + 3 <= |s| && s[k + 2 + e] == '}'
    ensures First(s[k..]) == (Braced(s[k + 2..k + 2 + e]), e + 3)
  {
    var t := s[k + 2..];
    FirstBrace(t);
    hide PositionOf;
    assert s[k..][2..] == t;
    assert s[k..][2..2 + e] == s[k + 2..k + 2 + e];
  }

  /** What the byte search finds after `${`. */
  lemma ClosingBrace(s: string, bytes: Bytes, i: nat, k: nat, end: nat)
    requires AtBoundary(s, bytes, i, k) && ByteAt(bytes[i..], 0x7D) == Some(end)
    ensures var e := PositionOf(s[k..], '}');
      && e.Some? && k + e.value < |s| && end == |Utf8.Encode(s[k..k + e.value])|
  {
    ByteIsCharacter(s[k..], '}');
    var e := PositionOf(s[k..], '}');
    hide PositionOf, Utf8.Encode;
    assert s[k..][..e.value] == s[k..k + e.value];
  }

  /** `${NAME}` at a boundary: what the byte search finds is the token. */
  lemma BracedAt(s: string, bytes: Bytes, i: nat, k: nat, end: nat, e: nat)
    requires k + 2 <= |s| && s[k] == '$' && s[k + 1] == '{' && i + 2 <= |bytes|
    requires AtBoundary(s, bytes, i + 2, k + 2)
    requires PositionOf(s[k + 2..], '}') == Some(e) && end == |Utf8.Encode(s[k + 2..k + 2 + e])|
    ensures First(s[k..]) == (Braced(s[k + 2..k + 2 + e]), e + 3) && k + e + 3 <= |s|
    ensures i + 2 + end <= |bytes| && Utf8.Decode(bytes[i + 2..i + 2 + end]) == Some(s[k + 2..k + 2 + e])
    ensures AtBoundary(s, bytes, i + 2 + end + 1, k + 2 + e + 1)
  {
    hide PositionOf, Utf8.Encode, Utf8.Decode, First, AtBoundary;
    BracedToken(s, k, e);
    SkipDecodes(s, bytes, i + 2, k + 2, e, end);
    AsciiAt(s, bytes, i + 2 + end, k + 2 + e, '}');
  }

  /** Without a closing brace the text has none either. */
  lemma UnbracedAt(s: string, bytes: Bytes, i: nat, k: nat)
    requires AtBoundary(s, bytes, i, k) && ByteAt(bytes[i..], 0x7D).None?
    ensures PositionOf(s[k..], '}').None?
  {
    ByteIsCharacter(s[k..], '}');
  }

  lemma VariableToken(s: string, k: nat, n: nat)
    requires k < |s| && s[k] == '$' && n == NameLen(s[k + 1..])
    requires k + 1 < |s| && s[k + 1] == '{' ==> PositionOf(s[k + 2..], '}').None?
    ensures First(s[k..]) == (if n > 0 then Variable(s[k + 1..k + 1 + n]) else Plain('$'), 1 + n)
  {
    var t := s[k..];
    assert t[1..] == s[k + 1..];
    if |t| > 1 { assert t[1] == s[k + 1] && t[2..] == s[k + 2..]; }
    hide PositionOf, NameLen;
    assert t[1..1 + n] == s[k + 1..k + 1 + n];
  }

  /** `$NAME` at a boundary. */
  lemma VariableAt(s: string, bytes: Bytes, i: nat, k: nat, n: nat)
    requires k < |s| && i < |bytes| && AtBoundary(s, bytes, i + 1, k + 1) && n == NameBytes(bytes[i + 1..])
    ensures n == NameLen(s[k + 1..]) && k + 1 + n <= |s| && i + 1 + n <= |bytes|
    ensures Utf8.Decode(bytes[i + 1..i + 1 + n]) == Some(s[k + 1..k + 1 + n])
    ensures AtBoundary(s, bytes, i + 1 + n, k + 1 + n)
  {
    NameIsAscii(s[k + 1..]);
    hide Utf8.Encode, Utf8.Decode, NameBytes, NameLen;
    assert s[k + 1..][..n] == s[k + 1..k + 1 + n];
    SkipDecodes(s, bytes, i + 1, k + 1, n, n);
  }

  lemma PlainAt(s: string, k: nat)
    requires k < |s| && s[k] != '$'
    ensures First(s[k..]) == (Plain(s[k]), 1)
  {}

  /** `str::from_utf8(…).unwrap_or("")`. */
  function TextOrNothing(bytes: Bytes): string {
    if Utf8.Decode(bytes).Some? then Utf8.Decode(bytes).value else ""
  }

  /** The byte scan computes the token-level expansion, always sitting on a character boundary. */
  method ExpandUnixVars(env: Environment, s: string) returns (out: string)
    ensures out == Expanded(env, s)
  {
    hide First, Utf8.EncodeChar, Utf8.Encode, Utf8.Decode, Utf8.CharLen, AtBoundary, ByteAt, NameBytes, PositionOf, Expanded;
    var bytes := Utf8.Encode(s);
    out := "";
    var i: nat := 0;
    ghost var k := 0;
    Starts(s, bytes);
    while i < |bytes|
      invariant k <= |s| && i <= |bytes| && AtBoundary(s, bytes, i, k)
      invariant Expanded(env, s) == out + Expanded(env, s[k..])
      decreases |s| - k
    {
      ghost var n;
      var more;
      more, i, n := ExpandOne(env, bytes, i, s, k);
      out := out + more;
      k := k + n;
    }
    Ends(env, s, bytes, i, k);
  }

  lemma Starts(s: string, bytes: Bytes)
    requires bytes == Utf8.Encode(s)
    ensures s[0..] == s && AtBoundary(s, bytes, 0, 0)
  {
    assert s[0..] == s && bytes[0..] == bytes;
  }

  lemma Ends(env: Environment, s: string, bytes: Bytes, i: nat, k: nat)
    requires AtBoundary(s, bytes, i, k) && i == |bytes|
    ensures Expanded(env, s[k..]) == ""
  {
    AsciiAt(s, bytes, i, k, '$');
    assert s[k..] == "";
  }

  /** One turn of the scan: one token. */
  method ExpandOne(env: Environment, bytes: Bytes, i: nat, ghost s: string, ghost k: nat)
    returns (more: string, next: nat, ghost n: nat)
    requires AtBoundary(s, bytes, i, k) && i < |bytes|
    ensures n >= 1 && k + n <= |s| && next <= |bytes| && AtBoundary(s, bytes, next, k + n)
    ensures Expanded(env, s[k..]) == more + Expanded(env, s[k + n..])
  {
    hide First, Utf8.EncodeChar, Utf8.Encode, Utf8.Decode, Utf8.CharLen, ByteAt, NameBytes, PositionOf, Expanded, AtBoundary;
    AsciiAt(s, bytes, i, k, '$');
    NextToken(env, s, k);
    n := First(s[k..]).1;
    if bytes[i] == 0x24 {
      AsciiAt(s, bytes, i + 1, k + 1, '{');
      if i + 1 < |bytes| && bytes[i + 1] == 0x7B {
        var end := FindByte(bytes, i + 2, 0x7D);
        if end.Some? {
          ClosingBrace(s, bytes, i + 2, k + 2, end.value);
          BracedAt(s, bytes, i, k, end.value, PositionOf(s[k + 2..], '}').value);
          more := ValueOf(env, TextOrNothing(bytes[i + 2..i + 2 + end.value]));
          next := i + 2 + end.value + 1;
          return;
        }
        UnbracedAt(s, bytes, i + 2, k + 2);
      }
      var j := SkipName(bytes, i + 1);
      VariableAt(s, bytes, i, k, j - i - 1);
      VariableToken(s, k, j - i - 1);
      if j > i + 1 {
        more := ValueOf(env, TextOrNothing(bytes[i + 1..j]));
        next := j;
        return;
      }
      more := "$";
      next := i + 1;
    } else {
      CharAt(s, bytes, i, k);
      PlainAt(s, k);
      var len := Utf8.CharLen(bytes[i]);
      more := TextOrNothing(bytes[i..i + len]);
      next := i + len;
    }
  }

  /** `resolve` on a Unix platform: a leading tilde first, then the variables. */
  function Home(raw: string, home: string): string {
    if raw != "" && raw[0] == '~' then home + raw[1..] else raw
  }

  lemma {:induction false} TextStays(env: Environment, a: string, t: string)
    requires '$' !in a
    ensures Expanded(env, a + t) == a + Expanded(env, t)
  {
    hide Expanded;
    if a == "" {
      assert a + t == t;
    } else {
      TextStays(env, a[1..], t);
      CharStays(env, a[0], a[1..] + t);
      assert a == [a[0]] + a[1..];
      assert a + t == [a[0]] + (a[1..] + t);
    }
  }

  /** A leading tilde is the home directory, once; no other tilde means anything. */
  lemma TildeIsHome(env: Environment, t: string, home: string)
    requires '$' !in home
    ensures Expanded(env, Home("~" + t, home)) == home + Expanded(env, t)
    ensures t == "" || t[0] != '~' ==> Expanded(env, Home(t, home)) == Expanded(env, t)
  {
    hide Expanded;
    assert ("~" + t)[1..] == t;
    TextStays(env, home, t);
  }

  method ResolveUnix(env: Environment, raw: string, home: string) returns (path: string)
    ensures path == Expanded(env, Home(raw, home))
  {
    var s := Home(raw, home);
    path := ExpandUnixVars(env, s);
  }
}
