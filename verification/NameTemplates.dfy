/**
 The template language of artifact names: text with tokens such as `{{ date }}`.

 A token is two opening braces, white space, a word, white space, two closing braces. The leftmost
 token is taken first, and scanning goes on behind it.
 */
module NameTemplates {
  import opened Wrappers

  predicate IsBlank(c: char) { c == '\t' || c == '\n' || c == '\U{000C}' || c == '\r' || c == ' ' }

  predicate IsWord(c: char) { 'a' <= c <= 'z' || 'A' <= c <= 'Z' || '0' <= c <= '9' || c == '_' }

  datatype Piece = Literal(c: char) | Token(name: string)

  // How many white-space and word characters a text begins with.
  function Blanks(s: string): (n: nat)
    ensures n <= |s| && (n < |s| ==> !IsBlank(s[n]))
    ensures forall i :: 0 <= i < n ==> IsBlank(s[i])
  {
    if s != "" && IsBlank(s[0]) then 1 + Blanks(s[1..]) else 0
  }

  function WordLength(s: string): (n: nat)
    ensures n <= |s| && (n < |s| ==> !IsWord(s[n]))
    ensures forall i :: 0 <= i < n ==> IsWord(s[i])
  {
    if s != "" && IsWord(s[0]) then 1 + WordLength(s[1..]) else 0
  }

  predicate Opens(s: string) { |s| >= 2 && s[0] == '{' && s[1] == '{' }

  predicate Closes(s: string) { |s| >= 2 && s[0] == '}' && s[1] == '}' }

  // Where in `s` the parts of a token that starts it would begin.
  function WordAt(s: string): nat
    requires Opens(s)
    ensures WordAt(s) <= |s|
  {
    2 + Blanks(s[2..])
  }

  function WordEnd(s: string): nat
    requires Opens(s)
    ensures WordAt(s) <= WordEnd(s) <= |s|
  {
    WordAt(s) + WordLength(s[WordAt(s)..])
  }

  function ClosingAt(s: string): nat
    requires Opens(s)
    ensures WordEnd(s) <= ClosingAt(s) <= |s|
  {
    WordEnd(s) + Blanks(s[WordEnd(s)..])
  }

  predicate StartsToken(s: string) { Opens(s) && WordAt(s) < WordEnd(s) && Closes(s[ClosingAt(s)..]) }

  function Scan(s: string): seq<Piece> {
    if s == "" then []
    else if StartsToken(s) then [Token(s[WordAt(s)..WordEnd(s)])] + Scan(s[ClosingAt(s) + 2..])
    else [Literal(s[0])] + Scan(s[1..])
  }

  type Values = map<string, string>

  // A word without a value renders as nothing.
  function Text(p: Piece, values: Values): string {
    match p
    case Literal(c) => [c]
    case Token(name) => if name in values then values[name] else ""
  }

  function RenderPieces(pieces: seq<Piece>, values: Values): string {
    if pieces == [] then "" else Text(pieces[0], values) + RenderPieces(pieces[1..], values)
  }

  function RenderTemplate(template: string, values: Values): string { RenderPieces(Scan(template), values) }

  // The template without its tokens.
  function Stripped(template: string): string { RenderTemplate(template, map[]) }

  predicate HasPair(s: string, c: char) { exists i :: 0 <= i < |s| - 1 && s[i] == c && s[i + 1] == c }

  predicate HasBraces(s: string) { HasPair(s, '{') || HasPair(s, '}') }

  predicate HasControl(s: string) { exists i :: 0 <= i < |s| && (s[i] as int < 32 || s[i] as int == 127) }

  datatype TemplateError = Required | ControlCharacters | PathSeparators | UnsupportedVariable(name: string) | InvalidToken

  predicate HasSeparator(s: string) { '/' in s || '\\' in s }

  // ---- Facts about scanning ------------------------------------------------------------------

  // Tokens only begin where two braces open, and end where two close.
  lemma {:induction false} NoBracesNoTokens(s: string)
    requires !HasBraces(s)
    ensures forall i :: 0 <= i < |Scan(s)| ==> Scan(s)[i].Literal?
    ensures forall values :: RenderTemplate(s, values) == s
  {
    if s != "" {
      assert !Opens(s) by {
        if Opens(s) {
          assert HasPair(s, '{');
        }
      }
      assert !HasBraces(s[1..]) by {
        assert forall i :: 0 <= i < |s| - 1 ==> s[1..][i] == s[i + 1];
      }
      NoBracesNoTokens(s[1..]);
      assert [Literal(s[0])] + Scan(s[1..]) == Scan(s);
      forall values
        ensures RenderTemplate(s, values) == s
      {
        assert Scan(s)[1..] == Scan(s[1..]);
        assert RenderTemplate(s, values) == [s[0]] + RenderTemplate(s[1..], values);
      }
    }
  }

  predicate Without(s: string, c: char) { forall i :: 0 <= i < |s| ==> s[i] != c }

  predicate ValuesWithout(values: Values, c: char) { forall name :: name in values ==> Without(values[name], c) }

  // A character that no value holds can be first in the rendered text only if it is first in the
  // stripped one.
  lemma {:induction false} SameStart(pieces: seq<Piece>, values: Values, c: char)
    requires ValuesWithout(values, c)
    requires var r := RenderPieces(pieces, values); r != "" && r[0] == c
    ensures var s := RenderPieces(pieces, map[]); s != "" && s[0] == c
  {
    if pieces[0].Token? {
      SameStart(pieces[1..], values, c);
    }
  }

  lemma PairOfConcat(a: string, b: string, c: char)
    ensures HasPair(a + b, c) <==>
            HasPair(a, c) || HasPair(b, c) || (a != "" && b != "" && a[|a| - 1] == c && b[0] == c)
  {
    var s := a + b;
    assert forall i :: 0 <= i < |a| ==> s[i] == a[i];
    assert forall i :: 0 <= i < |b| ==> s[|a| + i] == b[i];
    if i :| 0 <= i < |b| - 1 && b[i] == c && b[i + 1] == c {
      assert s[|a| + i] == c && s[|a| + i + 1] == c;
    }
    if a != "" && b != "" && a[|a| - 1] == c && b[0] == c {
      assert s[|a| - 1] == c && s[|a| - 1 + 1] == c;
    }
    if i :| 0 <= i < |s| - 1 && s[i] == c && s[i + 1] == c {
      if i >= |a| {
        assert b[i - |a|] == c && b[i - |a| + 1] == c;
      }
    }
  }

  // Rendering joins no two characters that stripping keeps apart.
  lemma {:induction false} NoNewPair(pieces: seq<Piece>, values: Values, c: char)
    requires ValuesWithout(values, c)
    requires !HasPair(RenderPieces(pieces, map[]), c)
    ensures !HasPair(RenderPieces(pieces, values), c)
  {
    if pieces != [] {
      var rest, bareRest := RenderPieces(pieces[1..], values), RenderPieces(pieces[1..], map[]);
      PairOfConcat(Text(pieces[0], map[]), bareRest, c);
      PairOfConcat(Text(pieces[0], values), rest, c);
      NoNewPair(pieces[1..], values, c);
      if rest != "" && rest[0] == c {
        SameStart(pieces[1..], values, c);
      }
    }
  }

  function Count(s: string, c: char): nat {
    if s == "" then 0 else (if s[0] == c then 1 else 0) + Count(s[1..], c)
  }

  lemma {:induction false} CountSplits(a: string, b: string, c: char)
    ensures Count(a + b, c) == Count(a, c) + Count(b, c)
  {
    if a == "" {
      assert a + b == b;
    } else {
      CountSplits(a[1..], b, c);
      assert (a + b)[1..] == a[1..] + b;
    }
  }

  lemma {:induction false} CountOfWithout(s: string, c: char)
    requires Without(s, c)
    ensures Count(s, c) == 0
  {
    if s != "" {
      CountOfWithout(s[1..], c);
    }
  }

  // A character that is not part of any token.
  predicate Outside(c: char) { c != '{' && c != '}' && !IsBlank(c) && !IsWord(c) }

  lemma TokenIsWithout(s: string, c: char)
    requires StartsToken(s) && Outside(c)
    ensures Without(s[..ClosingAt(s) + 2], c)
  {
    var a, b, d := WordAt(s), WordEnd(s), ClosingAt(s);
    forall i | 0 <= i < d + 2
      ensures s[i] != c
    {
      if 2 <= i < a {
        assert s[i] == s[2..][i - 2];
      } else if a <= i < b {
        assert s[i] == s[a..][i - a];
      } else if b <= i < d {
        assert s[i] == s[b..][i - b];
      } else if d <= i {
        assert s[i] == s[d..][i - d];
      }
    }
  }

  // Rendering keeps the number of such a character, when no value holds it.
  lemma {:induction false} CountKept(s: string, values: Values, c: char)
    requires Outside(c) && ValuesWithout(values, c)
    ensures Count(RenderTemplate(s, values), c) == Count(s, c)
    decreases |s|
  {
    if s != "" {
      var k := FirstPiece(s, values);
      CountKept(s[k..], values, c);
      CountSplits(Text(Scan(s)[0], values), RenderTemplate(s[k..], values), c);
      CountSplits(s[..k], s[k..], c);
      FirstPieceCount(s, values, c);
    }
  }

  // The first piece of a template, and the rest of it.
  lemma FirstPiece(s: string, values: Values) returns (k: nat)
    requires s != ""
    ensures k == (if StartsToken(s) then ClosingAt(s) + 2 else 1) && 0 < k <= |s|
    ensures s == s[..k] + s[k..]
    ensures RenderTemplate(s, values) == Text(Scan(s)[0], values) + RenderTemplate(s[k..], values)
  {
    k := if StartsToken(s) then ClosingAt(s) + 2 else 1;
    assert Scan(s)[1..] == Scan(s[k..]);
  }

  lemma FirstPieceCount(s: string, values: Values, c: char)
    requires s != "" && Outside(c) && ValuesWithout(values, c)
    ensures var k := if StartsToken(s) then ClosingAt(s) + 2 else 1;
            Count(Text(Scan(s)[0], values), c) == Count(s[..k], c)
  {
    if StartsToken(s) {
      TokenIsWithout(s, c);
      CountOfWithout(s[..ClosingAt(s) + 2], c);
      CountOfWithout(Text(Scan(s)[0], values), c);
    } else {
      assert s[..1] == [s[0]];
    }
  }

  // Every character of the rendered text comes from the template or from a value.
  lemma {:induction false} RenderedWithout(s: string, values: Values, c: char)
    requires Without(s, c) && ValuesWithout(values, c)
    ensures Without(RenderTemplate(s, values), c)
    decreases |s|
  {
    if s != "" {
      var k := if StartsToken(s) then ClosingAt(s) + 2 else 1;
      assert Scan(s)[1..] == Scan(s[k..]);
      RenderedWithout(s[k..], values, c);
    }
  }

  // ---- What templates mean ---------------------------------------------------------------------

  lemma {:induction false} BlanksAre(s: string, n: nat)
    requires n <= |s| && (forall i :: 0 <= i < n ==> IsBlank(s[i])) && (n < |s| ==> !IsBlank(s[n]))
    ensures Blanks(s) == n
  {
    if n > 0 {
      BlanksAre(s[1..], n - 1);
    }
  }

  lemma {:induction false} WordLengthIs(s: string, n: nat)
    requires n <= |s| && (forall i :: 0 <= i < n ==> IsWord(s[i])) && (n < |s| ==> !IsWord(s[n]))
    ensures WordLength(s) == n
  {
    if n > 0 {
      WordLengthIs(s[1..], n - 1);
    }
  }

  // Tabs, line feeds, form feeds, carriage returns and spaces.
  predicate AllBlank(s: string) {
    forall i :: 0 <= i < |s| ==> var u := s[i] as int; u == 9 || u == 10 || u == 12 || u == 13 || u == 32
  }

  // ASCII digits, letters and underscores, at least one of them.
  predicate Word(s: string) {
    s != "" && forall i :: 0 <= i < |s| ==> var u := s[i] as int; 48 <= u <= 57 || 65 <= u <= 90 || u == 95 || 97 <= u <= 122
  }

  // The text of a token for `name`, with white space around the name.
  function TokenText(l: string, name: string, r: string): string { "{{" + l + name + r + "}}" }

  lemma TokenParts(l: string, name: string, r: string, rest: string)
    requires AllBlank(l) && Word(name) && AllBlank(r)
    ensures var s := TokenText(l, name, r) + rest;
            && StartsToken(s) && s[WordAt(s)..WordEnd(s)] == name && s[ClosingAt(s) + 2..] == rest
  {
    var s := TokenText(l, name, r) + rest;
    TokenWord(s, l, name, r + "}}" + rest);
    TokenClose(s, WordEnd(s), r, rest);
  }

  lemma TokenClose(s: string, end: nat, r: string, rest: string)
    requires end <= |s| && s[end..] == r + "}}" + rest && AllBlank(r)
    ensures Blanks(s[end..]) == |r| && end + |r| + 2 <= |s| && Closes(s[end + |r|..]) && s[end + |r| + 2..] == rest
  {
    BlanksAre(s[end..], |r|);
    assert s[end + |r|..] == "}}" + rest;
  }

  lemma TokenWord(s: string, l: string, name: string, rest: string)
    requires AllBlank(l) && Word(name) && s == "{{" + l + name + rest && rest != "" && !IsWord(rest[0])
    ensures Opens(s) && WordAt(s) == 2 + |l| && WordEnd(s) == 2 + |l| + |name|
    ensures s[WordAt(s)..WordEnd(s)] == name && s[WordEnd(s)..] == rest
  {
    assert s[2..] == l + (name + rest);
    BlanksAre(s[2..], |l|);
    assert s[2 + |l|..] == name + rest;
    WordLengthIs(s[2 + |l|..], |name|);
  }

  // A text begins with a token exactly when it begins with the text of one.
  lemma StartsTokenIff(s: string)
    ensures StartsToken(s) <==>
            exists l, name, r, rest :: AllBlank(l) && Word(name) && AllBlank(r) && s == TokenText(l, name, r) + rest
  {
    if StartsToken(s) {
      var l, name, r := s[2..WordAt(s)], s[WordAt(s)..WordEnd(s)], s[WordEnd(s)..ClosingAt(s)];
      TokenPartsAre(s);
      assert s == TokenText(l, name, r) + s[ClosingAt(s) + 2..];
    }
    forall l, name, r, rest | AllBlank(l) && Word(name) && AllBlank(r) && s == TokenText(l, name, r) + rest
      ensures StartsToken(s)
    {
      TokenParts(l, name, r, rest);
    }
  }

  lemma TokenPartsAre(s: string)
    requires StartsToken(s)
    ensures AllBlank(s[2..WordAt(s)]) && Word(s[WordAt(s)..WordEnd(s)]) && AllBlank(s[WordEnd(s)..ClosingAt(s)])
  {
    assert s[2..WordAt(s)] == s[2..][..Blanks(s[2..])];
    assert s[WordAt(s)..WordEnd(s)] == s[WordAt(s)..][..WordLength(s[WordAt(s)..])];
    assert s[WordEnd(s)..ClosingAt(s)] == s[WordEnd(s)..][..Blanks(s[WordEnd(s)..])];
  }

  // A token stands for the value of its name, and for nothing when there is none.
  lemma RenderToken(l: string, name: string, r: string, rest: string, values: Values)
    requires AllBlank(l) && Word(name) && AllBlank(r)
    ensures Scan(TokenText(l, name, r) + rest) == [Token(name)] + Scan(rest)
    ensures RenderTemplate(TokenText(l, name, r) + rest, values) == (if name in values then values[name] else "") + RenderTemplate(rest, values)
  {
    TokenParts(l, name, r, rest);
    var pieces := [Token(name)] + Scan(rest);
    assert pieces[1..] == Scan(rest);
  }

  function Literals(s: string): seq<Piece> { seq(|s|, i requires 0 <= i < |s| => Literal(s[i])) }

  lemma RenderOne(c: char, rest: string, values: Values)
    requires c != '{'
    ensures Scan([c] + rest) == [Literal(c)] + Scan(rest)
    ensures RenderTemplate([c] + rest, values) == [c] + RenderTemplate(rest, values)
  {
    assert ([c] + rest)[1..] == rest;
    var pieces := [Literal(c)] + Scan(rest);
    assert pieces[1..] == Scan(rest);
  }

  // Text without an opening brace stands for itself.
  lemma {:induction false} RenderText(text: string, rest: string, values: Values)
    requires Without(text, '{')
    ensures Scan(text + rest) == Literals(text) + Scan(rest)
    ensures RenderTemplate(text + rest, values) == text + RenderTemplate(rest, values)
    decreases |text|
  {
    if text == "" {
      assert text + rest == rest && Literals(text) == [];
    } else {
      var tail := text[1..];
      RenderText(tail, rest, values);
      RenderOne(text[0], tail + rest, values);
      HeadAndTail(text, rest, Scan(rest), RenderTemplate(rest, values));
    }
  }

  lemma HeadAndTail(text: string, rest: string, pieces: seq<Piece>, rendered: string)
    requires text != ""
    ensures text + rest == [text[0]] + (text[1..] + rest)
    ensures Literals(text) + pieces == [Literal(text[0])] + (Literals(text[1..]) + pieces)
    ensures text + rendered == [text[0]] + (text[1..] + rendered)
  {
  }
}
