/** What artifacts are called: the values of tokens, and the names that the default templates give. */
module ArtifactDefaults {
  import opened ArtifactNaming
  import opened ArtifactPaths
  import opened NameTemplates
  import Text
  import opened Wrappers

  // ---- Sanitizing ------------------------------------------------------------------------------

  // The codes of ASCII digits, letters, dashes, dots and underscores.
  predicate Kept(u: int) { 48 <= u <= 57 || 65 <= u <= 90 || 97 <= u <= 122 || u == 45 || u == 46 || u == 95 }

  predicate Native(s: string) { forall i :: 0 <= i < |s| ==> Kept(s[i] as int) }

  predicate Foreign(s: string) { forall i :: 0 <= i < |s| ==> !Kept(s[i] as int) }

  predicate Marks(s: string) { forall i :: 0 <= i < |s| ==> s[i] == '.' || s[i] == '-' || s[i] == '_' }

  lemma NativeStays(s: string)
    requires Native(s)
    ensures Squeeze(s) == s
  {
    SqueezeIsPlain(s);
  }

  // Up to the first foreign characters a text stays; they become one underscore; and so on behind them.
  lemma {:induction false} SqueezeRun(a: string, f: string, b: string)
    requires Native(a) && f != "" && Foreign(f) && (b == "" || Kept(b[0] as int))
    ensures Squeeze(a + f + b) == a + "_" + Squeeze(b)
    decreases |b|
  {
    if b == "" {
      SqueezeForeign(a, f);
      assert a + f + b == a + f && a + "_" + "" == a + "_";
    } else {
      var n, s := |b| - 1, a + f + b;
      var m := |s| - 1;
      assert s[..m] == a + f + b[..n] && s[m] == b[n];
      SqueezeRun(a, f, b[..n]);
      if n > 0 {
        assert s[m - 1] == b[n - 1];
      }
      var front := Squeeze(b[..n]);
      assert a + "_" + front + [b[n]] == a + "_" + (front + [b[n]]);
      assert a + "_" + front + "_" == a + "_" + (front + "_");
    }
  }

  lemma {:induction false} SqueezeForeign(a: string, f: string)
    requires Native(a) && f != "" && Foreign(f)
    ensures Squeeze(a + f) == a + "_"
    decreases |f|
  {
    var s := a + f;
    var n := |s| - 1;
    SqueezeIsPlain(a);
    assert s[..n] == a + f[..|f| - 1];
    if |f| > 1 {
      SqueezeForeign(a, f[..|f| - 1]);
      assert s[n - 1] == f[|f| - 2];
    } else {
      assert s[..n] == a;
    }
  }

  // A sanitized value is the trimmed one with every run of foreign characters made one underscore, and
  // without the dots, dashes and underscores at its ends; when nothing is left it is `value`.
  lemma SanitizeIs(value: string) returns (l: string, r: string)
    ensures Text.Trim(value) == "" ==> Sanitize(value) == ""
    ensures Text.Trim(value) != "" ==>
              var squeezed := Squeeze(Text.Trim(value));
              && (Marks(squeezed) ==> Sanitize(value) == "value")
              && (!Marks(squeezed) ==>
                    squeezed == l + Sanitize(value) + r && Marks(l) && Marks(r) && IsClean(Sanitize(value)) && Sanitize(value) != "")
  {
    var squeezed := Squeeze(Text.Trim(value));
    SanitizeFixesExactlyClean(value);
    l, r := TrimMarksIs(squeezed);
    OnlyMarks(squeezed, l, TrimMarks(squeezed), r);
  }

  lemma OnlyMarks(s: string, l: string, core: string, r: string)
    requires s == l + core + r && Marks(l) && Marks(r) && (core != "" ==> !IsMark(core[0]))
    ensures Marks(s) <==> core == ""
  {
    assert core != "" ==> s[|l|] == core[0];
    assert core == "" ==> s == l + r;
  }

  lemma TrimMarksIs(s: string) returns (l: string, r: string)
    ensures s == l + TrimMarks(s) + r && Marks(l) && Marks(r)
    ensures TrimMarks(s) != "" ==> !IsMark(TrimMarks(s)[0])
  {
    LeadingMarksAre(s);
    var rest := s[LeadingMarks(s)..];
    LengthWithoutMarksIs(rest);
    l, r := s[..LeadingMarks(s)], rest[LengthWithoutMarks(rest)..];
    assert s == l + rest && rest == TrimMarks(s) + r;
  }

  lemma {:induction false} LeadingMarksAre(s: string)
    ensures Marks(s[..LeadingMarks(s)])
  {
    if s != "" && IsMark(s[0]) {
      LeadingMarksAre(s[1..]);
      assert s[..LeadingMarks(s)] == [s[0]] + s[1..][..LeadingMarks(s[1..])];
    }
  }

  lemma {:induction false} LengthWithoutMarksIs(s: string)
    ensures Marks(s[LengthWithoutMarks(s)..])
  {
    if s != "" && IsMark(s[|s| - 1]) {
      var n := |s| - 1;
      LengthWithoutMarksIs(s[..n]);
      assert s[LengthWithoutMarks(s)..] == s[..n][LengthWithoutMarks(s[..n])..] + [s[n]];
    }
  }

  // ---- The values of tokens --------------------------------------------------------------------

  // The first of two names that is not blank, trimmed, or a stand-in.
  function NameOr(a: string, b: string, standIn: string): string {
    if Text.Trim(a) != "" then Text.Trim(a) else if Text.Trim(b) != "" then Text.Trim(b) else standIn
  }

  lemma StandInIsTrimmed()
    ensures Text.Trim("agent") == "agent" && Text.Trim("backup") == "backup"
  {
    Text.TrimmedStays("agent");
    Text.TrimmedStays("backup");
  }

  // A token that does not show the clock.
  predicate Named(name: string) { name in VARIABLES && name != "date" && name != "time" && name != "datetime" }

  lemma NamedShows(c: Context, name: string)
    requires Named(name)
    ensures RenderVariables(c)[name] == Sanitize(RawValue(c, name))
  {
  }

  // What each token shows of a context: the clock as it is, and everything else sanitized.
  lemma ClockTokens(c: Context)
    ensures var v := RenderVariables(c);
            && v.Keys == VARIABLES && v["date"] == c.date && v["time"] == c.time && v["datetime"] == c.datetime
  {
  }

  lemma AgentTokens(c: Context)
    ensures var v := RenderVariables(c);
            v["agent_id"] == Sanitize(c.agentId) && v["agent_name"] == Sanitize(NameOr(c.agentName, c.agentId, "agent"))
  {
    StandInIsTrimmed();
  }

  lemma PolicyIdToken(c: Context)
    ensures RenderVariables(c)["policy_id"] == Sanitize(c.policyId)
  {
  }

  lemma PolicyNameToken(c: Context)
    ensures RenderVariables(c)["policy_name"] == Sanitize(c.policyName)
  {
  }

  lemma SourceTypeToken(c: Context)
    ensures RenderVariables(c)["source_type"] == Sanitize(c.sourceType)
  {
  }

  lemma ContextNameToken(c: Context)
    ensures RenderVariables(c)["context_name"] == Sanitize(NameOr(c.contextName, c.inferredName, "backup"))
  {
    StandInIsTrimmed();
  }

  lemma SiteNameToken(c: Context)
    ensures RenderVariables(c)["site_name"] == Sanitize(NameOr(c.contextName, c.inferredName, "backup"))
  {
    StandInIsTrimmed();
    SiteNameIsNamed();
    RawSiteName(c);
    NamedShows(c, "site_name");
  }

  lemma SiteNameIsNamed()
    ensures Named("site_name")
  {
  }

  lemma RawSiteName(c: Context)
    ensures RawValue(c, "site_name") == FirstNonEmpty(c.contextName, c.inferredName, "backup")
  {
  }

  lemma ContainerNameToken(c: Context)
    ensures RenderVariables(c)["container_name"] == Sanitize(c.containerName)
  {
  }

  lemma ComposeProjectToken(c: Context)
    ensures RenderVariables(c)["compose_project"] == Sanitize(c.composeProject)
  {
  }

  lemma ComposeServiceToken(c: Context)
    ensures RenderVariables(c)["compose_service"] == Sanitize(c.composeService)
  {
  }

  lemma DatabaseEngineToken(c: Context)
    ensures RenderVariables(c)["database_engine"] == Sanitize(c.databaseEngine)
  {
    EngineIsNamed();
    RawEngine(c);
    NamedShows(c, "database_engine");
  }

  lemma EngineIsNamed()
    ensures Named("database_engine")
  {
  }

  lemma RawEngine(c: Context)
    ensures RawValue(c, "database_engine") == c.databaseEngine
  {
  }

  lemma DatabaseNameToken(c: Context)
    ensures RenderVariables(c)["database_name"] == Sanitize(c.databaseName)
  {
  }

  lemma FormatTokens(c: Context)
    ensures var v := RenderVariables(c); v["format"] == v["ext"] == if c.format == Zip then "zip" else "tar.gz"
  {
    FormatIsClean(c.format);
  }

  lemma FormatIsClean(format: ArchiveFormat)
    ensures Sanitize(format.Name()) == if format == Zip then "zip" else "tar.gz"
  {
    ZipIsClean();
    TarIsClean();
    SanitizeFixesExactlyClean(format.Name());
  }

  lemma ZipIsClean()
    ensures IsClean("zip")
  {
  }

  lemma TarIsClean()
    ensures IsClean("tar.gz")
  {
  }

  // What the tokens stand for: the clock as it is, and everything else sanitized.
  predicate Show(v: Values, c: Context) {
    && v.Keys == VARIABLES
    && v["date"] == c.date && v["time"] == c.time && v["datetime"] == c.datetime
    && v["agent_id"] == Sanitize(c.agentId) && v["agent_name"] == Sanitize(NameOr(c.agentName, c.agentId, "agent"))
    && v["policy_id"] == Sanitize(c.policyId) && v["policy_name"] == Sanitize(c.policyName)
    && v["context_name"] == v["site_name"] == Sanitize(NameOr(c.contextName, c.inferredName, "backup"))
    && v["source_type"] == Sanitize(c.sourceType) && v["container_name"] == Sanitize(c.containerName)
    && v["compose_project"] == Sanitize(c.composeProject) && v["compose_service"] == Sanitize(c.composeService)
    && v["database_engine"] == Sanitize(c.databaseEngine) && v["database_name"] == Sanitize(c.databaseName)
    && v["format"] == v["ext"] == (if c.format == Zip then "zip" else "tar.gz")
  }

  lemma TokensShow(c: Context)
    ensures Show(RenderVariables(c), c)
  {
    ClockTokens(c);
    AgentTokens(c);
    PolicyIdToken(c);
    PolicyNameToken(c);
    ContextNameToken(c);
    SiteNameToken(c);
    SourceTypeToken(c);
    ContainerNameToken(c);
    ComposeProjectToken(c);
    ComposeServiceToken(c);
    DatabaseEngineToken(c);
    DatabaseNameToken(c);
    FormatTokens(c);
  }

  // ---- Templates put together ------------------------------------------------------------------

  // A piece of a template: text without braces, or a token.
  datatype Part = Words(text: string) | Name(name: string)

  function PartText(p: Part): string { if p.Words? then p.text else "{{" + (p.name + "}}") }

  function Compose(parts: seq<Part>): string {
    if parts == [] then "" else PartText(parts[0]) + Compose(parts[1..])
  }

  function PartValue(p: Part, values: Values): string {
    match p
    case Words(text) => text
    case Name(name) => if name in values then values[name] else ""
  }

  function Fill(parts: seq<Part>, values: Values): string {
    if parts == [] then "" else PartValue(parts[0], values) + Fill(parts[1..], values)
  }

  predicate Fit(p: Part) { if p.Words? then Without(p.text, '{') && Without(p.text, '}') && !HasControl(p.text) else p.name in VARIABLES && Word(p.name) }

  predicate AllFit(parts: seq<Part>) { forall i :: 0 <= i < |parts| ==> Fit(parts[i]) }

  lemma {:induction false} SupportedSplits(a: seq<Piece>, b: seq<Piece>)
    requires FirstUnsupported(a).None?
    ensures FirstUnsupported(a + b) == FirstUnsupported(b)
  {
    if a == [] {
      assert a + b == b;
    } else {
      SupportedSplits(a[1..], b);
      assert (a + b)[1..] == a[1..] + b;
    }
  }

  lemma FillOne(p: Part, rest: string, values: Values)
    requires Fit(p)
    ensures RenderTemplate(PartText(p) + rest, values) == PartValue(p, values) + RenderTemplate(rest, values)
    ensures FirstUnsupported(Scan(PartText(p) + rest)) == FirstUnsupported(Scan(rest))
  {
    if p.Words? {
      RenderText(p.text, rest, values);
      LiteralsAreSupported(Literals(p.text));
      SupportedSplits(Literals(p.text), Scan(rest));
    } else {
      FillName(p.name, rest, values);
    }
  }

  lemma NameText(name: string)
    ensures PartText(Name(name)) == TokenText("", name, "")
  {
  }

  lemma FillName(name: string, rest: string, values: Values)
    requires name in VARIABLES && Word(name)
    ensures RenderTemplate(PartText(Name(name)) + rest, values) == PartValue(Name(name), values) + RenderTemplate(rest, values)
    ensures FirstUnsupported(Scan(PartText(Name(name)) + rest)) == FirstUnsupported(Scan(rest))
  {
    NameText(name);
    RenderToken("", name, "", rest, values);
    SupportedSplits([Token(name)], Scan(rest));
  }

  // Such a template says what its pieces say, one after the other, and its tokens are all supported.
  lemma {:induction false} ComposedIsFilled(parts: seq<Part>, values: Values)
    requires AllFit(parts)
    ensures RenderTemplate(Compose(parts), values) == Fill(parts, values)
    ensures FirstUnsupported(Scan(Compose(parts))).None?
  {
    if parts != [] {
      ComposedIsFilled(parts[1..], values);
      FillOne(parts[0], Compose(parts[1..]), values);
    }
  }

  lemma {:induction false} StrippedHasNoBraces(parts: seq<Part>)
    requires AllFit(parts)
    ensures Without(Fill(parts, map[]), '{') && Without(Fill(parts, map[]), '}')
  {
    if parts != [] {
      StrippedHasNoBraces(parts[1..]);
    }
  }

  lemma {:induction false} ComposedHasNoControl(parts: seq<Part>)
    requires AllFit(parts)
    ensures !HasControl(Compose(parts))
  {
    if parts != [] {
      ComposedHasNoControl(parts[1..]);
      PartHasNoControl(parts[0]);
      ControlOfConcat(PartText(parts[0]), Compose(parts[1..]));
    }
  }

  lemma PartHasNoControl(p: Part)
    requires Fit(p)
    ensures !HasControl(PartText(p))
  {
    if p.Name? {
      ControlOfConcat(p.name, "}}");
      ControlOfConcat("{{", p.name + "}}");
    }
  }

  lemma ControlOfConcat(a: string, b: string)
    requires !HasControl(a) && !HasControl(b)
    ensures !HasControl(a + b)
  {
  }

  // It is accepted as the template of a directory, and without separators as that of a name.
  lemma ComposedIsAccepted(parts: seq<Part>, allow: bool)
    requires AllFit(parts) && !Text.Blank(Compose(parts)) && (allow || !HasSeparator(Compose(parts)))
    ensures ValidateTemplateSyntax(Compose(parts), allow).None?
  {
    ComposedIsFilled(parts, map[]);
    StrippedHasNoBraces(parts);
    NoPairs(Fill(parts, map[]));
    ComposedHasNoControl(parts);
  }

  lemma NoPairs(s: string)
    requires Without(s, '{') && Without(s, '}')
    ensures !HasBraces(s)
  {
  }

  // ---- The default templates -------------------------------------------------------------------

  lemma OneMorePart(p: Part, rest: seq<Part>, values: Values)
    ensures Compose([p] + rest) == PartText(p) + Compose(rest)
    ensures Fill([p] + rest, values) == PartValue(p, values) + Fill(rest, values)
    ensures Fit(p) && AllFit(rest) ==> AllFit([p] + rest)
  {
    assert ([p] + rest)[1..] == rest;
  }

  // The last part of a template, and one with two or more parts before others.
  lemma LastPart(p: Part, values: Values)
    requires Fit(p)
    ensures Compose([p]) == PartText(p) && Fill([p], values) == PartValue(p, values) && AllFit([p])
  {
    OneMorePart(p, [], values);
    assert [p] + [] == [p];
    assert PartText(p) + "" == PartText(p) && PartValue(p, values) + "" == PartValue(p, values);
  }

  lemma TwoMoreParts(p: Part, q: Part, rest: seq<Part>, values: Values)
    requires Fit(p) && Fit(q) && AllFit(rest)
    ensures Compose([p] + ([q] + rest)) == PartText(p) + (PartText(q) + Compose(rest))
    ensures Fill([p] + ([q] + rest), values) == PartValue(p, values) + (PartValue(q, values) + Fill(rest, values))
    ensures AllFit([p] + ([q] + rest))
  {
    OneMorePart(q, rest, values);
    OneMorePart(p, [q] + rest, values);
  }

  const DATE := [Name("date")]
  const CONTEXT_AND_DATE := [Name("context_name")] + ([Words("/")] + DATE)
  const AGENT_CONTEXT_AND_DATE := [Name("agent_name")] + ([Words("/")] + CONTEXT_AND_DATE)
  const DIR_PARTS := [Words("archives/")] + AGENT_CONTEXT_AND_DATE

  const EXT := [Name("ext")]
  const TIME_AND_EXT := [Name("datetime")] + ([Words(".")] + EXT)
  const AGENT_TIME_AND_EXT := [Name("agent_name")] + ([Words("_")] + TIME_AND_EXT)
  const NAME_PARTS := [Name("context_name")] + ([Words("_")] + AGENT_TIME_AND_EXT)
  const LEGACY_NAME_PARTS := [Words("backup-")] + TIME_AND_EXT

  lemma TokenTexts()
    ensures PartText(Name("date")) == "{{date}}" && PartText(Name("datetime")) == "{{datetime}}" && PartText(Name("ext")) == "{{ext}}"
  {
  }

  lemma NameTexts()
    ensures PartText(Name("agent_name")) == "{{agent_name}}" && PartText(Name("context_name")) == "{{context_name}}"
  {
  }

  lemma TokensFit()
    ensures Fit(Name("agent_name")) && Fit(Name("context_name")) && Fit(Name("date")) && Fit(Name("datetime")) && Fit(Name("ext"))
  {
  }

  lemma WordsFit()
    ensures Fit(Words("archives/")) && Fit(Words("/")) && Fit(Words("_")) && Fit(Words(".")) && Fit(Words("backup-"))
  {
  }

  lemma DirTemplate(values: Values)
    ensures RECOMMENDED_REMOTE_DIR == Compose(DIR_PARTS) && AllFit(DIR_PARTS)
    ensures Fill(DIR_PARTS, values)
         == "archives/" + (Of(values, "agent_name") + ("/" + (Of(values, "context_name") + ("/" + Of(values, "date")))))
  {
    TokenTexts();
    NameTexts();
    TokensFit();
    WordsFit();
    LastPart(Name("date"), values);
    TwoMoreParts(Name("context_name"), Words("/"), DATE, values);
    TwoMoreParts(Name("agent_name"), Words("/"), CONTEXT_AND_DATE, values);
    OneMorePart(Words("archives/"), AGENT_CONTEXT_AND_DATE, values);
  }

  lemma EndingTemplate(values: Values)
    ensures Compose(TIME_AND_EXT) == "{{datetime}}" + ("." + "{{ext}}") && AllFit(TIME_AND_EXT)
    ensures Fill(TIME_AND_EXT, values) == Of(values, "datetime") + ("." + Of(values, "ext"))
  {
    TokenTexts();
    NameTexts();
    TokensFit();
    WordsFit();
    LastPart(Name("ext"), values);
    TwoMoreParts(Name("datetime"), Words("."), EXT, values);
  }

  lemma NameTemplate(values: Values)
    ensures RECOMMENDED_NAME == Compose(NAME_PARTS) && AllFit(NAME_PARTS)
    ensures Fill(NAME_PARTS, values)
         == Of(values, "context_name") + ("_" + (Of(values, "agent_name") + ("_" + (Of(values, "datetime") + ("." + Of(values, "ext"))))))
  {
    TokenTexts();
    NameTexts();
    TokensFit();
    WordsFit();
    EndingTemplate(values);
    TwoMoreParts(Name("agent_name"), Words("_"), TIME_AND_EXT, values);
    TwoMoreParts(Name("context_name"), Words("_"), AGENT_TIME_AND_EXT, values);
  }

  lemma LegacyNameTemplate(values: Values)
    ensures LEGACY_NAME == Compose(LEGACY_NAME_PARTS) && AllFit(LEGACY_NAME_PARTS)
    ensures Fill(LEGACY_NAME_PARTS, values) == "backup-" + (Of(values, "datetime") + ("." + Of(values, "ext")))
  {
    TokensFit();
    WordsFit();
    EndingTemplate(values);
    OneMorePart(Words("backup-"), TIME_AND_EXT, values);
  }

  function Of(values: Values, name: string): string { if name in values then values[name] else "" }

  // ---- What they name --------------------------------------------------------------------------

  // Plain text that is not empty, neither a dot nor two, can be a segment of a path.
  predicate Segment(s: string) { s != "" && Plain(s) && s != "." && s != ".." }

  lemma CleanIsSegment(s: string)
    requires IsClean(s) && s != ""
    ensures Segment(s)
  {
  }

  lemma ClockIsSegment(s: ClockText)
    requires s != ""
    ensures Segment(s)
  {
    assert s[0] != '.' && "."[0] == '.' && ".."[0] == '.';
  }

  lemma SegmentIsSafe(s: string)
    requires Segment(s)
    ensures Safe(Split(s)) && !HasControl(s) && !HasSeparator(s)
  {
    PlainHasNoSlash(s);
    PlainHasNoControl(s);
    SplitWithout(s);
  }

  lemma PlainHasNoSlash(s: string)
    requires Plain(s)
    ensures Without(s, '/') && !HasSeparator(s)
  {
  }

  lemma PlainHasNoControl(s: string)
    requires Plain(s)
    ensures !HasControl(s)
  {
  }

  lemma SlashSafe(a: string, b: string)
    requires Safe(Split(a)) && !HasControl(a) && Segment(b)
    ensures Safe(Split(a + "/" + b)) && !HasControl(a + "/" + b)
  {
    SegmentIsSafe(b);
    SafeOfJoin(a, b);
    NoControlJoined(a, b);
  }

  lemma PlainIsNotSpace(s: string)
    requires Plain(s)
    ensures forall i :: 0 <= i < |s| ==> !Text.IsSpace(s[i])
  {
  }

  lemma DirIsValid(a: string, c: string, d: string)
    requires Segment(a) && Segment(c) && Segment(d)
    ensures ValidPath("archives/" + (a + ("/" + (c + ("/" + d)))))
  {
    var p := "archives" + "/" + a + "/" + c + "/" + d;
    assert p == "archives/" + (a + ("/" + (c + ("/" + d))));
    SegmentIsSafe("archives");
    SlashSafe("archives", a);
    SlashSafe("archives" + "/" + a, c);
    SlashSafe("archives" + "/" + a + "/" + c, d);
    PlainIsNotSpace(d);
    assert p[0] == 'a' && p[|p| - 1] == d[|d| - 1];
    Text.TrimmedStays(p);
  }

  lemma PlainIsFilename(s: string)
    requires Segment(s)
    ensures ValidFilename(s)
  {
    PlainIsNotSpace(s);
    Text.TrimmedStays(s);
    SegmentIsSafe(s);
  }

  lemma JoinedIsPlain(a: string, b: string)
    requires Plain(a) && Plain(b)
    ensures Plain(a + b)
  {
  }

  lemma LongIsSegment(a: string, b: string)
    requires Plain(a) && Plain(b) && |a| + |b| > 2
    ensures Segment(a + b)
  {
  }

  lemma AgentNameIsSegment(c: Context)
    ensures Segment(RenderVariables(c)["agent_name"])
  {
    AgentTokens(c);
    StandInIsTrimmed();
    NameIsSegment(c.agentName, c.agentId, "agent");
  }

  lemma ContextNameIsSegment(c: Context)
    ensures Segment(RenderVariables(c)["context_name"])
  {
    ContextNameToken(c);
    StandInIsTrimmed();
    NameIsSegment(c.contextName, c.inferredName, "backup");
  }

  lemma ClockTokensAreSegments(c: Context)
    requires c.date != "" && c.datetime != ""
    ensures Segment(RenderVariables(c)["date"]) && Segment(RenderVariables(c)["datetime"])
  {
    ClockTokens(c);
    ClockIsSegment(c.date);
    ClockIsSegment(c.datetime);
  }

  lemma ExtTokenIsPlain(c: Context)
    ensures Plain(RenderVariables(c)["ext"])
  {
    FormatTokens(c);
    ExtIsPlain(c.format);
  }

  lemma ExtIsPlain(format: ArchiveFormat)
    ensures Plain(if format == Zip then "zip" else "tar.gz")
  {
  }

  lemma NameIsSegment(a: string, b: string, standIn: string)
    requires standIn != "" && Text.Trim(standIn) == standIn
    ensures Segment(Sanitize(NameOr(a, b, standIn)))
  {
    var name := NameOr(a, b, standIn);
    Text.TrimTwice(a);
    Text.TrimTwice(b);
    SanitizeFixesExactlyClean(name);
    CleanIsSegment(Sanitize(name));
  }

  lemma DirIsAccepted(v: Values)
    requires v.Keys == VARIABLES && Segment(v["agent_name"]) && Segment(v["context_name"]) && Segment(v["date"])
    ensures ValidateTemplateSyntax(RECOMMENDED_REMOTE_DIR, true).None?
    ensures var dir := RenderTemplate(RECOMMENDED_REMOTE_DIR, v);
            dir == "archives/" + (v["agent_name"] + ("/" + (v["context_name"] + ("/" + v["date"])))) && ValidPath(dir)
  {
    DirTemplate(v);
    ConstantsAreFilledIn();
    ComposedIsAccepted(DIR_PARTS, true);
    ComposedIsFilled(DIR_PARTS, v);
    DirIsValid(v["agent_name"], v["context_name"], v["date"]);
  }

  lemma NameHasNoSeparator()
    ensures !HasSeparator(RECOMMENDED_NAME) && !HasSeparator(LEGACY_NAME)
  {
  }

  lemma NameSyntax(v: Values)
    ensures ValidateTemplateSyntax(RECOMMENDED_NAME, false).None?
  {
    NameTemplate(v);
    ConstantsAreFilledIn();
    NameHasNoSeparator();
    ComposedIsAccepted(NAME_PARTS, false);
  }

  lemma LegacySyntax(v: Values)
    ensures ValidateTemplateSyntax(LEGACY_NAME, false).None?
  {
    LegacyNameTemplate(v);
    ConstantsAreFilledIn();
    NameHasNoSeparator();
    ComposedIsAccepted(LEGACY_NAME_PARTS, false);
  }

  lemma EndingIsPlain(datetime: string, ext: string)
    requires Plain(datetime) && Plain(ext)
    ensures Plain(datetime + ("." + ext))
  {
  }

  lemma NameIsFilename(c: string, a: string, datetime: string, ext: string)
    requires Segment(c) && Segment(a) && Segment(datetime) && Plain(ext)
    ensures ValidFilename(c + ("_" + (a + ("_" + (datetime + ("." + ext))))))
  {
    EndingIsPlain(datetime, ext);
    var rest := "_" + (a + ("_" + (datetime + ("." + ext))));
    LongIsSegment(c, rest);
    PlainIsFilename(c + rest);
  }

  lemma NameIsAccepted(v: Values)
    requires v.Keys == VARIABLES && Segment(v["agent_name"]) && Segment(v["context_name"]) && Segment(v["datetime"]) && Plain(v["ext"])
    ensures var name := RenderTemplate(RECOMMENDED_NAME, v);
            && name == v["context_name"] + ("_" + (v["agent_name"] + ("_" + (v["datetime"] + ("." + v["ext"])))))
            && ValidFilename(name)
  {
    NameTemplate(v);
    ComposedIsFilled(NAME_PARTS, v);
    NameIsFilename(v["context_name"], v["agent_name"], v["datetime"], v["ext"]);
  }

  lemma LegacyIsAccepted(v: Values)
    requires v.Keys == VARIABLES && Segment(v["datetime"]) && Plain(v["ext"])
    ensures var name := RenderTemplate(LEGACY_NAME, v); name == "backup-" + (v["datetime"] + ("." + v["ext"])) && ValidFilename(name)
  {
    LegacyNameTemplate(v);
    ComposedIsFilled(LEGACY_NAME_PARTS, v);
    LegacyIsFilename(v["datetime"] + ("." + v["ext"]));
  }

  lemma LegacyIsFilename(ending: string)
    requires Plain(ending)
    ensures ValidFilename("backup-" + ending)
  {
    LongIsSegment("backup-", ending);
    PlainIsFilename("backup-" + ending);
  }

  lemma LegacyDirIsPlain()
    ensures Segment(LEGACY_REMOTE_DIR) && LEGACY_REMOTE_DIR == "artifacts"
  {
  }

  lemma LegacyDirIsAccepted(v: Values)
    ensures ValidateTemplateSyntax(LEGACY_REMOTE_DIR, true).None?
    ensures RenderTemplate(LEGACY_REMOTE_DIR, v) == LEGACY_REMOTE_DIR && ValidPath(LEGACY_REMOTE_DIR)
  {
    LegacyDirIsPlain();
    SegmentStands(LEGACY_REMOTE_DIR);
    NoBracesNoTokens(LEGACY_REMOTE_DIR);
  }

  lemma SegmentStands(s: string)
    requires Segment(s)
    ensures ValidateTemplateSyntax(s, true).None? && ValidPath(s) && !HasBraces(s)
  {
    PlainIsNotSpace(s);
    Text.TrimmedStays(s);
    SegmentIsSafe(s);
    assert !HasBraces(s);
    PlainTemplateIsAccepted(s, true);
  }

  // Which templates are used: those given, trimmed; the recommended ones for what is not given; and the
  // old ones when neither is given nor the recommended ones are asked for.
  lemma TemplatesUsed(remote: string, name: string, recommended: bool)
    ensures var (r, n, legacy) := EffectiveTemplates(remote, name, recommended);
            && (legacy <==> !recommended && Text.Trim(remote) == "" && Text.Trim(name) == "")
            && r == (if Text.Trim(remote) != "" then Text.Trim(remote) else if legacy then LEGACY_REMOTE_DIR else RECOMMENDED_REMOTE_DIR)
            && n == (if Text.Trim(name) != "" then Text.Trim(name) else if legacy then LEGACY_NAME else RECOMMENDED_NAME)
  {
  }

  // Without templates every context gives a name. Recommended ones put the artifact under the agent's name,
  // the name of what was backed up, and the date; the old ones put all into one directory.
  lemma DefaultsAlwaysRender(input: RenderInput)
    requires Text.Trim(input.remoteDirTemplate) == "" && Text.Trim(input.nameTemplate) == ""
    requires input.context.date != "" && input.context.datetime != ""
    ensures Render(input).Ok?
    ensures var m, v := Render(input).value, RenderVariables(input.context);
            && m.artifactPath == m.remoteDir + "/" + m.artifactName && m.legacy == !input.recommended
            && (if input.recommended then
                  && m.remoteDir == "archives/" + (v["agent_name"] + ("/" + (v["context_name"] + ("/" + v["date"]))))
                  && m.artifactName == v["context_name"] + ("_" + (v["agent_name"] + ("_" + (v["datetime"] + ("." + v["ext"])))))
                else m.remoteDir == "artifacts" && m.artifactName == "backup-" + (v["datetime"] + ("." + v["ext"])))
  {
    if input.recommended {
      RecommendedFit(input.context);
    } else {
      LegacyFit(input.context);
    }
    TemplatesUsed(input.remoteDirTemplate, input.nameTemplate, input.recommended);
    RenderSucceedsIff(input);
    RenderedArtifactIsSafe(input);
    RenderIs(input);
  }

  lemma RecommendedFit(c: Context)
    requires c.date != "" && c.datetime != ""
    ensures ValidateTemplateSyntax(RECOMMENDED_REMOTE_DIR, true).None? && ValidateTemplateSyntax(RECOMMENDED_NAME, false).None?
    ensures var v := RenderVariables(c);
            var dir, name := RenderTemplate(RECOMMENDED_REMOTE_DIR, v), RenderTemplate(RECOMMENDED_NAME, v);
            && ValidPath(dir) && ValidFilename(name)
            && dir == "archives/" + (v["agent_name"] + ("/" + (v["context_name"] + ("/" + v["date"]))))
            && name == v["context_name"] + ("_" + (v["agent_name"] + ("_" + (v["datetime"] + ("." + v["ext"])))))
  {
    var v := RenderVariables(c);
    ClockTokensAreSegments(c);
    ExtTokenIsPlain(c);
    AgentNameIsSegment(c);
    ContextNameIsSegment(c);
    DirIsAccepted(v);
    NameSyntax(v);
    NameIsAccepted(v);
  }

  lemma LegacyFit(c: Context)
    requires c.date != "" && c.datetime != ""
    ensures ValidateTemplateSyntax(LEGACY_REMOTE_DIR, true).None? && ValidateTemplateSyntax(LEGACY_NAME, false).None?
    ensures var v := RenderVariables(c);
            var dir, name := RenderTemplate(LEGACY_REMOTE_DIR, v), RenderTemplate(LEGACY_NAME, v);
            && ValidPath(dir) && ValidFilename(name)
            && dir == "artifacts" && name == "backup-" + (v["datetime"] + ("." + v["ext"]))
  {
    var v := RenderVariables(c);
    ClockTokensAreSegments(c);
    ExtTokenIsPlain(c);
    LegacyDirIsPlain();
    LegacyDirIsAccepted(v);
    LegacySyntax(v);
    LegacyIsAccepted(v);
  }

  lemma RenderIs(input: RenderInput)
    requires Render(input).Ok?
    ensures var (r, n, legacy) := EffectiveTemplates(input.remoteDirTemplate, input.nameTemplate, input.recommended);
            var m, v := Render(input).value, RenderVariables(input.context);
            m.remoteDir == RenderTemplate(r, v) && m.artifactName == RenderTemplate(n, v) && m.legacy == legacy && m.values == v
  {
    var (r, n, legacy) := EffectiveTemplates(input.remoteDirTemplate, input.nameTemplate, input.recommended);
    var v := RenderVariables(input.context);
    FinishedFrom(RenderTemplate(r, v), RenderTemplate(n, v), r, n, v, legacy);
  }

  // ---- Refusals --------------------------------------------------------------------------------

  predicate Controls(s: string) { exists i :: 0 <= i < |s| && (s[i] as int < 32 || s[i] as int == 127) }

  predicate Separates(s: string) { exists i :: 0 <= i < |s| && (s[i] == '/' || s[i] == '\\') }

  predicate TwoOf(s: string, c: char) { exists i :: 0 <= i < |s| - 1 && s[i] == s[i + 1] == c }

  // The first piece that is a token no value is known for.
  predicate IsUnknown(pieces: seq<Piece>, k: nat) {
    && k < |pieces| && pieces[k].Token? && pieces[k].name !in VARIABLES
    && forall j :: 0 <= j < k ==> pieces[j].Literal? || pieces[j].name in VARIABLES
  }

  lemma {:induction false} FirstUnsupportedIs(pieces: seq<Piece>) returns (k: nat)
    ensures FirstUnsupported(pieces).Some? ==> IsUnknown(pieces, k) && FirstUnsupported(pieces).value == pieces[k].name
    ensures FirstUnsupported(pieces).None? ==> forall j :: 0 <= j < |pieces| ==> pieces[j].Literal? || pieces[j].name in VARIABLES
  {
    k := 0;
    if pieces != [] && !(pieces[0].Token? && pieces[0].name !in VARIABLES) {
      k := FirstUnsupportedIs(pieces[1..]);
      k := k + 1;
      assert forall j :: 1 <= j < |pieces| ==> pieces[1..][j - 1] == pieces[j];
    }
  }

  // Why a template is refused, in the order of the checks: it is blank, has control characters, has
  // separators where a name is wanted, has a token that is not known, or leaves braces of a token behind.
  lemma SyntaxAnswer(template: string, allow: bool) returns (k: nat)
    ensures var r, pieces := ValidateTemplateSyntax(template, allow), Scan(template);
            if Text.Trim(template) == "" then r == Some(Required)
            else if Controls(template) then r == Some(ControlCharacters)
            else if !allow && Separates(template) then r == Some(PathSeparators)
            else if exists j :: 0 <= j < |pieces| && pieces[j].Token? && pieces[j].name !in VARIABLES then
              IsUnknown(pieces, k) && r == Some(UnsupportedVariable(pieces[k].name))
            else if (TwoOf(template, '{') || TwoOf(template, '}')) && (TwoOf(Stripped(template), '{') || TwoOf(Stripped(template), '}')) then
              r == Some(InvalidToken)
            else r == None
  {
    k := FirstUnsupportedIs(Scan(template));
    SeparatorsAre(template);
    PairsAre(template);
    PairsAre(Stripped(template));
  }

  lemma SeparatorsAre(s: string)
    ensures HasSeparator(s) <==> Separates(s)
    ensures HasControl(s) <==> Controls(s)
  {
  }

  lemma PairsAre(s: string)
    ensures HasBraces(s) <==> TwoOf(s, '{') || TwoOf(s, '}')
  {
    PairIs(s, '{');
    PairIs(s, '}');
  }

  lemma PairIs(s: string, c: char)
    ensures HasPair(s, c) <==> TwoOf(s, c)
  {
  }

  // A rendering is refused for the template of the directory first, then for that of the name, then for
  // what they render to: the name must not be empty, a dot or two, nor have controls or separators.
  lemma RenderRefusals(input: RenderInput)
    ensures var (remote, name, _) := EffectiveTemplates(input.remoteDirTemplate, input.nameTemplate, input.recommended);
            var values, r := RenderVariables(input.context), Render(input);
            var file := Text.Trim(RenderTemplate(name, values));
            if ValidateTemplateSyntax(remote, true).Some? then r == Err(BadTemplate(ValidateTemplateSyntax(remote, true).value))
            else if ValidateTemplateSyntax(name, false).Some? then r == Err(BadTemplate(ValidateTemplateSyntax(name, false).value))
            else if !ValidPath(RenderTemplate(remote, values)) then r == Err(BadRemoteDir)
            else if file == "" || file == "." || file == ".." || Controls(file) || Separates(file) then r == Err(BadFilename)
            else r.Ok?
  {
    var (remote, name, legacy) := EffectiveTemplates(input.remoteDirTemplate, input.nameTemplate, input.recommended);
    var values := RenderVariables(input.context);
    SeparatorsAre(Text.Trim(RenderTemplate(name, values)));
    RenderSucceedsIff(input);
    FinishRefuses(RenderTemplate(remote, values), RenderTemplate(name, values), remote, name, values, legacy);
  }

  lemma FinishRefuses(dir: string, name: string, remoteTemplate: string, nameTemplate: string, values: Values, legacy: bool)
    ensures var r := Finish(dir, name, remoteTemplate, nameTemplate, values, legacy);
            && (!ValidPath(dir) ==> r == Err(BadRemoteDir))
            && (ValidPath(dir) && !ValidFilename(name) ==> r == Err(BadFilename))
  {
  }
}
