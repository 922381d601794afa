/** The pieces of string handling that several components share. */
module Text {
  // White space as `unicode.IsSpace` defines it.
  predicate IsSpace(c: char) {
    var u := c as int;
    || 0x09 <= u <= 0x0D || u == 0x20 || u == 0x85 || u == 0xA0 || u == 0x1680
    || 0x2000 <= u <= 0x200A || u == 0x2028 || u == 0x2029 || u == 0x202F || u == 0x205F || u == 0x3000
  }

  // Of ASCII, white space is the tab, the line feed, the two other feeds, the carriage return and the space.
  lemma AsciiSpaces(c: char)
    requires c as int < 128
    ensures IsSpace(c) <==> c in "\t\n\U{000B}\U{000C}\r "
  {
  }

  // How many white-space characters a text begins with.
  function LeadingSpaces(s: string): (n: nat)
    ensures n <= |s| && (n < |s| ==> !IsSpace(s[n]))
    ensures forall i :: 0 <= i < n ==> IsSpace(s[i])
  {
    if s != "" && IsSpace(s[0]) then 1 + LeadingSpaces(s[1..]) else 0
  }

  // How long a text is without the white space it ends with.
  function LengthWithoutTail(s: string): (n: nat)
    ensures n <= |s| && (n > 0 ==> !IsSpace(s[n - 1]))
    ensures forall i :: n <= i < |s| ==> IsSpace(s[i])
  {
    if s != "" && IsSpace(s[|s| - 1]) then LengthWithoutTail(s[..|s| - 1]) else |s|
  }

  function TrimLeft(s: string): string { s[LeadingSpaces(s)..] }

  function TrimRight(s: string): string { s[..LengthWithoutTail(s)] }

  // `strings.TrimSpace`.
  function Trim(s: string): string { TrimRight(TrimLeft(s)) }

  predicate Blank(s: string) { Trim(s) == "" }

  // ---- What trimming does ----------------------------------------------------------------------

  lemma {:induction false} LeadingSpacesAre(s: string, n: nat)
    requires n < |s| && !IsSpace(s[n]) && forall i :: 0 <= i < n ==> IsSpace(s[i])
    ensures LeadingSpaces(s) == n
  {
    if n > 0 {
      LeadingSpacesAre(s[1..], n - 1);
    }
  }

  lemma {:induction false} LengthWithoutTailIs(s: string, n: nat)
    requires 0 < n <= |s| && !IsSpace(s[n - 1]) && forall i :: n <= i < |s| ==> IsSpace(s[i])
    ensures LengthWithoutTail(s) == n
    decreases |s|
  {
    if n < |s| {
      LengthWithoutTailIs(s[..|s| - 1], n);
    }
  }

  predicate AllSpace(s: string) { forall i :: 0 <= i < |s| ==> IsSpace(s[i]) }

  // Trimming takes the white space off both ends, and nothing else.
  lemma TrimIs(s: string) returns (l: string, r: string)
    ensures s == l + Trim(s) + r && AllSpace(l) && AllSpace(r)
    ensures Trim(s) != "" ==> !IsSpace(Trim(s)[0]) && !IsSpace(Trim(s)[|Trim(s)| - 1])
  {
    var left := TrimLeft(s);
    l, r := s[..LeadingSpaces(s)], left[LengthWithoutTail(left)..];
    TwoParts(s, LeadingSpaces(s));
    TwoParts(left, LengthWithoutTail(left));
    ThreeParts(l, Trim(s), r);
  }

  lemma TwoParts(s: string, n: nat)
    requires n <= |s|
    ensures s[..n] + s[n..] == s
  {
  }

  lemma ThreeParts(a: string, b: string, c: string)
    ensures a + (b + c) == a + b + c
  {
  }

  // A text that neither begins nor ends with white space stays as it is.
  lemma TrimmedStays(s: string)
    requires s == "" || (!IsSpace(s[0]) && !IsSpace(s[|s| - 1]))
    ensures Trim(s) == s
  {
    if s != "" {
      LeadingSpacesAre(s, 0);
      LengthWithoutTailIs(s, |s|);
    }
  }

  lemma TrimTwice(s: string)
    ensures Trim(Trim(s)) == Trim(s)
  {
    var l, r := TrimIs(s);
    TrimmedStays(Trim(s));
  }

  // A text is blank when it has nothing but white space.
  lemma BlankIff(s: string)
    ensures Blank(s) <==> AllSpace(s)
  {
    var l, r := TrimIs(s);
    if Blank(s) {
      assert s == l + r;
    } else {
      assert s[|l|] == Trim(s)[0];
    }
  }
}
