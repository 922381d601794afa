/** Slash-separated paths: splitting, joining, cleaning, and the check of rendered paths. */
module ArtifactPaths {
  import opened NameTemplates
  import Text
  import opened Wrappers

  // `strings.Split(p, "/")`.
  function Split(p: string): (segments: seq<string>)
    ensures segments != []
  {
    if p == "" then [""] else Extend(Split(p[..|p| - 1]), p[|p| - 1])
  }

  // The segments of a path that goes on with one more character.
  function Extend(segments: seq<string>, c: char): (r: seq<string>)
    requires segments != []
    ensures r != []
  {
    var n := |segments| - 1;
    if c == '/' then segments + [""] else segments[..n] + [segments[n] + [c]]
  }

  function JoinSlash(segments: seq<string>): string {
    if segments == [] then ""
    else if |segments| == 1 then segments[0]
    else JoinSlash(segments[..|segments| - 1]) + "/" + segments[|segments| - 1]
  }

  // The stack of `filepath.Clean` after some segments of a path.
  function CleanSegments(segments: seq<string>, rooted: bool): seq<string> {
    if segments == [] then []
    else
      var stack, last := CleanSegments(segments[..|segments| - 1], rooted), segments[|segments| - 1];
      if last == "" || last == "." then stack
      else if last != ".." then stack + [last]
      else if stack != [] && stack[|stack| - 1] != ".." then stack[..|stack| - 1]
      else if rooted then stack
      else stack + [last]
  }

  // `filepath.Clean` where the separator is a slash.
  function Clean(p: string): string {
    var rooted := p != "" && p[0] == '/';
    var stack := CleanSegments(Split(p), rooted);
    if rooted then "/" + JoinSlash(stack) else if stack == [] then "." else JoinSlash(stack)
  }

  // `filepath.Join` of two elements.
  function Join(a: string, b: string): string {
    if a == "" then (if b == "" then "" else Clean(b))
    else if b == "" then Clean(a)
    else Clean(a + "/" + b)
  }

  predicate SafeSegment(s: string) { s != "" && s != "." && s != ".." }

  predicate Safe(segments: seq<string>) { forall i :: 0 <= i < |segments| ==> SafeSegment(segments[i]) }

  datatype PathError = EmptyPath | AbsolutePath | ControlInPath | UnsafeSegment

  predicate ValidPath(path: string) {
    var p := Text.Trim(path);
    p != "" && p[0] != '/' && !HasControl(p) && Safe(Split(p))
  }

  method ValidateRenderedPath(path: string) returns (r: Option<PathError>)
    ensures r.None? <==> ValidPath(path)
    ensures var p := Text.Trim(path);
            r == if p == "" then Some(EmptyPath)
                 else if p[0] == '/' then Some(AbsolutePath)
                 else if exists i :: 0 <= i < |p| && (p[i] as int < 32 || p[i] as int == 127) then Some(ControlInPath)
                 else if exists i :: 0 <= i < |Split(p)| && (Split(p)[i] == "" || Split(p)[i] == "." || Split(p)[i] == "..") then Some(UnsafeSegment)
                 else None
  {
    var p := Text.Trim(path);
    if p == "" {
      return Some(EmptyPath);
    }
    if p[0] == '/' {
      return Some(AbsolutePath);
    }
    if exists i :: 0 <= i < |p| && (p[i] as int < 32 || p[i] as int == 127) {
      return Some(ControlInPath);
    }
    var segments := Split(p);
    for i := 0 to |segments|
      invariant forall j :: 0 <= j < i ==> SafeSegment(segments[j])
    {
      if segments[i] == "" || segments[i] == "." || segments[i] == ".." {
        assert Split(p)[i] == "" || Split(p)[i] == "." || Split(p)[i] == "..";
        return Some(UnsafeSegment);
      }
    }
    r := None;
  }

  // ---- Splitting -----------------------------------------------------------------------------

  lemma ConcatLast(a: string, b: string)
    requires b != ""
    ensures a + b == a + b[..|b| - 1] + [b[|b| - 1]]
  {
  }

  lemma SplitSnoc(p: string, c: char)
    ensures Split(p + [c]) == Extend(Split(p), c)
  {
    assert (p + [c])[..|p|] == p;
  }

  lemma ExtendAfter(front: seq<string>, rest: seq<string>, c: char)
    requires rest != []
    ensures Extend(front + rest, c) == front + Extend(rest, c)
  {
    var all := front + rest;
    assert all[..|all| - 1] == front + rest[..|rest| - 1];
  }

  lemma {:induction false} SplitOfJoin(a: string, b: string)
    ensures Split(a + "/" + b) == Split(a) + Split(b)
    decreases |b|
  {
    if b == "" {
      SplitSnoc(a, '/');
      assert a + "/" + b == a + ['/'];
    } else {
      var n := |b| - 1;
      SplitOfJoin(a, b[..n]);
      SplitSnoc(a + "/" + b[..n], b[n]);
      ConcatLast(a + "/", b);
      ExtendAfter(Split(a), Split(b[..n]), b[n]);
    }
  }

  lemma {:induction false} JoinOfSplit(p: string)
    ensures JoinSlash(Split(p)) == p
  {
    if p == "" {
    } else {
      var n := |p| - 1;
      calc {
        JoinSlash(Split(p));
        JoinSlash(Extend(Split(p[..n]), p[n]));
        { JoinOfExtend(Split(p[..n]), p[n]); }
        JoinSlash(Split(p[..n])) + [p[n]];
        { JoinOfSplit(p[..n]); }
        p[..n] + [p[n]];
        p;
      }
    }
  }

  lemma JoinOfExtend(segments: seq<string>, c: char)
    requires segments != []
    ensures JoinSlash(Extend(segments, c)) == JoinSlash(segments) + [c]
  {
    var n := |segments| - 1;
    var r := Extend(segments, c);
    if c == '/' {
      assert r[..|segments|] == segments;
    } else {
      assert r[..n] == segments[..n];
      if n > 0 {
        assert JoinSlash(segments[..n]) + "/" + (segments[n] + [c]) == JoinSlash(segments[..n]) + "/" + segments[n] + [c];
      }
    }
  }

  // A path has one segment more than it has slashes.
  lemma {:induction false} SegmentsCount(p: string)
    ensures |Split(p)| == Count(p, '/') + 1
  {
    if p != "" {
      var n := |p| - 1;
      SegmentsCount(p[..n]);
      CountSplits(p[..n], [p[n]], '/');
      assert p == p[..n] + [p[n]];
      assert [p[n]][1..] == "";
    }
  }

  lemma {:induction false} SplitWithout(s: string)
    requires Without(s, '/')
    ensures Split(s) == [s]
  {
    if s != "" {
      var n := |s| - 1;
      SplitWithout(s[..n]);
      assert s[..n] + [s[n]] == s;
      assert Extend([s[..n]], s[n]) == [s[..n] + [s[n]]];
    }
  }

  // Text without slashes at either end goes into the first or the last segment.
  lemma {:induction false} SplitAppend(p: string, r: string)
    requires Without(r, '/')
    ensures var s := Split(p);
            Split(p + r) == s[..|s| - 1] + [s[|s| - 1] + r]
    decreases |r|
  {
    var s := Split(p);
    if r == "" {
      assert p + r == p && s[|s| - 1] + r == s[|s| - 1];
      assert s == s[..|s| - 1] + [s[|s| - 1]];
    } else {
      var n := |r| - 1;
      SplitAppend(p, r[..n]);
      SplitSnoc(p + r[..n], r[n]);
      ConcatLast(p, r);
      assert s[|s| - 1] + r == s[|s| - 1] + r[..n] + [r[n]];
    }
  }

  function Prefixed(l: string, segments: seq<string>): (r: seq<string>)
    requires segments != []
    ensures r != []
  {
    [l + segments[0]] + segments[1..]
  }

  lemma ExtendPrefixed(l: string, segments: seq<string>, c: char)
    requires segments != []
    ensures Extend(Prefixed(l, segments), c) == Prefixed(l, Extend(segments, c))
  {
    if |segments| == 1 {
      assert l + segments[0] + [c] == l + (segments[0] + [c]);
    }
  }

  lemma {:induction false} SplitPrepend(l: string, p: string)
    requires Without(l, '/')
    ensures Split(l + p) == Prefixed(l, Split(p))
    decreases |p|
  {
    if p == "" {
      SplitWithout(l);
      assert l + p == l && l + "" == l;
    } else {
      var n := |p| - 1;
      SplitPrepend(l, p[..n]);
      SplitSnoc(l + p[..n], p[n]);
      ConcatLast(l, p);
      ExtendPrefixed(l, Split(p[..n]), p[n]);
    }
  }

  // ---- Cleaning ------------------------------------------------------------------------------

  lemma {:induction false} SafeSegmentsStay(segments: seq<string>)
    requires Safe(segments)
    ensures CleanSegments(segments, false) == segments
  {
    if segments != [] {
      SafeSegmentsStay(segments[..|segments| - 1]);
      assert SafeSegment(segments[|segments| - 1]);
    }
  }

  // Empty segments and dots are dropped; two dots take back the segment before them, go above the root
  // of an absolute path in vain, and stay at the start of a relative one.
  lemma SegmentCleaned(front: seq<string>, name: string, rooted: bool)
    ensures CleanSegments(front + [""], rooted) == CleanSegments(front + ["."], rooted) == CleanSegments(front, rooted)
    ensures SafeSegment(name) ==> CleanSegments(front + [name] + [".."], rooted) == CleanSegments(front, rooted)
    ensures CleanSegments(front, rooted) == [] ==> CleanSegments(front + [".."], rooted) == if rooted then [] else [".."]
  {
    AllButLast(front, "");
    AllButLast(front, ".");
    AllButLast(front, "..");
    ParentCancels(front, name, rooted);
  }

  lemma AllButLast(front: seq<string>, last: string)
    ensures var s := front + [last]; s[..|s| - 1] == front
  {
  }

  lemma ParentCancels(front: seq<string>, name: string, rooted: bool)
    ensures SafeSegment(name) ==> CleanSegments(front + [name] + [".."], rooted) == CleanSegments(front, rooted)
  {
    AllButLast(front, name);
    AllButLast(front + [name], "..");
    AllButLast(CleanSegments(front, rooted), name);
  }

  // Cleaning leaves a relative path of safe segments as it is.
  lemma SafePathIsClean(p: string)
    requires p != "" && p[0] != '/' && Safe(Split(p))
    ensures Clean(p) == p
  {
    SafeSegmentsStay(Split(p));
    JoinOfSplit(p);
  }

  // ---- Trimming ------------------------------------------------------------------------------

  predicate Spaces(s: string) { forall i :: 0 <= i < |s| ==> Text.IsSpace(s[i]) }

  lemma TrimLeftOfConcat(a: string, b: string)
    requires !Spaces(a)
    ensures Text.TrimLeft(a + b) == Text.TrimLeft(a) + b
  {
    Text.LeadingSpacesAre(a + b, Text.LeadingSpaces(a));
  }

  lemma TrimRightOfConcat(a: string, b: string)
    requires !Spaces(b)
    ensures Text.TrimRight(a + b) == a + Text.TrimRight(b)
  {
    var n, s := Text.LengthWithoutTail(b), a + b;
    assert forall i :: 0 <= i < |b| ==> s[|a| + i] == b[i];
    assert forall i :: |a| + n <= i < |s| ==> s[i] == b[i - |a|];
    Text.LengthWithoutTailIs(s, |a| + n);
  }

  // A text that is not blank is white space, its trimmed form, and white space.
  lemma TrimParts(s: string) returns (l: string, r: string)
    requires Text.Trim(s) != ""
    ensures Spaces(l) && Spaces(r)
    ensures s == l + Text.Trim(s) + r
    ensures Text.TrimLeft(s) == Text.Trim(s) + r && Text.TrimRight(s) == l + Text.Trim(s)
  {
    var left := Text.TrimLeft(s);
    l := LeftPart(s);
    r := RightPart(left);
    NotSpaces(left);
    TrimRightOfConcat(l, left);
    Assoc(l, Text.Trim(s), r);
  }

  lemma Assoc(a: string, b: string, c: string)
    ensures a + (b + c) == a + b + c
  {
  }

  lemma LeftPart(s: string) returns (l: string)
    ensures s == l + Text.TrimLeft(s) && Spaces(l)
  {
    l := s[..Text.LeadingSpaces(s)];
  }

  lemma RightPart(s: string) returns (r: string)
    ensures s == Text.TrimRight(s) + r && Spaces(r)
  {
    r := s[Text.LengthWithoutTail(s)..];
  }

  lemma NotSpaces(s: string)
    requires Text.TrimRight(s) != ""
    ensures !Spaces(s)
  {
    assert !Text.IsSpace(s[Text.LengthWithoutTail(s) - 1]);
  }

  lemma SpacesWithoutSlash(s: string)
    requires Spaces(s)
    ensures Without(s, '/')
  {
  }

  lemma SpaceKeepsSafe(s: string, l: string, r: string)
    requires SafeSegment(s) && Spaces(l) && Spaces(r)
    ensures SafeSegment(l + s + r)
  {
    var t := l + s + r;
    if l != "" {
      assert Text.IsSpace(t[0]);
    } else if r != "" {
      assert Text.IsSpace(t[|t| - 1]);
    } else {
      assert t == s;
    }
  }

  // White space around a path whose segments are safe leaves them safe.
  lemma SafeWithSpace(p: string, l: string, r: string)
    requires Safe(Split(p)) && Spaces(l) && Spaces(r)
    ensures Safe(Split(l + p + r))
  {
    SpacesWithoutSlash(l);
    SpacesWithoutSlash(r);
    var s := Split(p);
    SplitPrepend(l, p);
    SplitAppend(l + p, r);
    FirstStaysSafe(s, l);
    LastStaysSafe(Prefixed(l, s), r);
  }

  lemma FirstStaysSafe(segments: seq<string>, l: string)
    requires segments != [] && Safe(segments) && Spaces(l)
    ensures Safe(Prefixed(l, segments))
  {
    SpaceKeepsSafe(segments[0], l, "");
    assert l + segments[0] + "" == l + segments[0];
  }

  lemma LastStaysSafe(segments: seq<string>, r: string)
    requires segments != [] && Safe(segments) && Spaces(r)
    ensures var n := |segments| - 1;
            Safe(segments[..n] + [segments[n] + r])
  {
    var last := segments[|segments| - 1];
    SpaceKeepsSafe(last, "", r);
    assert "" + last + r == last + r;
  }
}
