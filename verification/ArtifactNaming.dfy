/** Names of artifacts: values made safe, templates rendered, and the path put together. */
module ArtifactNaming {
  import opened ArtifactPaths
  import opened NameTemplates
  import Text
  import opened Wrappers

  // ---- Values ---------------------------------------------------------------------------------

  predicate IsPlain(c: char) { 'a' <= c <= 'z' || 'A' <= c <= 'Z' || '0' <= c <= '9' || IsMark(c) }

  predicate IsMark(c: char) { c == '.' || c == '-' || c == '_' }

  predicate Plain(s: string) { forall i :: 0 <= i < |s| ==> IsPlain(s[i]) }

  // Plain characters stay; each run of others becomes one underscore.
  function Squeeze(s: string): string {
    if s == "" then ""
    else
      var n := |s| - 1;
      var front := Squeeze(s[..n]);
      if IsPlain(s[n]) then front + [s[n]]
      else if n > 0 && !IsPlain(s[n - 1]) then front
      else front + "_"
  }

  function LeadingMarks(s: string): (n: nat)
    ensures n <= |s| && (n < |s| ==> !IsMark(s[n]))
  {
    if s != "" && IsMark(s[0]) then 1 + LeadingMarks(s[1..]) else 0
  }

  function LengthWithoutMarks(s: string): (n: nat)
    ensures n <= |s| && (n > 0 ==> !IsMark(s[n - 1]))
  {
    if s != "" && IsMark(s[|s| - 1]) then LengthWithoutMarks(s[..|s| - 1]) else |s|
  }

  // `strings.Trim(s, "._-")`.
  function TrimMarks(s: string): string {
    var rest := s[LeadingMarks(s)..];
    rest[..LengthWithoutMarks(rest)]
  }

  function Sanitize(value: string): string {
    var trimmed := Text.Trim(value);
    if trimmed == "" then ""
    else
      var result := TrimMarks(Squeeze(trimmed));
      if result == "" then "value" else result
  }

  method SanitizeValue(value: string) returns (r: string)
    ensures r == Sanitize(value)
  {
    var trimmed := Text.Trim(value);
    if trimmed == "" {
      return "";
    }
    var b := "";
    var lastUnderscore := false;
    for i := 0 to |trimmed|
      invariant b == Squeeze(trimmed[..i])
      invariant lastUnderscore <==> i > 0 && !IsPlain(trimmed[i - 1])
    {
      assert trimmed[..i + 1][..i] == trimmed[..i];
      var c := trimmed[i];
      if IsPlain(c) {
        b := b + [c];
        lastUnderscore := false;
        continue;
      }
      if !lastUnderscore {
        b := b + "_";
        lastUnderscore := true;
      }
    }
    assert trimmed[..|trimmed|] == trimmed;
    r := TrimMarks(b);
    if r == "" {
      r := "value";
    }
  }

  // A value that can stand in a name: plain, and no mark at either end.
  predicate IsClean(s: string) { Plain(s) && (s != "" ==> !IsMark(s[0]) && !IsMark(s[|s| - 1])) }

  lemma {:induction false} SqueezeIsPlain(s: string)
    ensures Plain(Squeeze(s))
    ensures Plain(s) ==> Squeeze(s) == s
  {
    if s != "" {
      var n := |s| - 1;
      SqueezeIsPlain(s[..n]);
      assert s == s[..n] + [s[n]];
    }
  }

  lemma CleanIsTrimmed(s: string)
    requires IsClean(s)
    ensures Text.Trim(s) == s
  {
    if s != "" {
      Text.LeadingSpacesAre(s, 0);
      Text.LengthWithoutTailIs(s, |s|);
    }
  }

  lemma TrimMarksIsClean(s: string)
    requires Plain(s)
    ensures IsClean(TrimMarks(s))
  {
    var rest := s[LeadingMarks(s)..];
    assert Plain(rest);
    var kept := TrimMarks(s);
    assert kept == rest[..|kept|];
  }

  lemma TrimMarksKeepsClean(s: string)
    requires IsClean(s)
    ensures TrimMarks(s) == s
  {
  }

  // Sanitizing makes every value clean, and leaves exactly the clean ones as they are.
  lemma SanitizeFixesExactlyClean(value: string)
    ensures IsClean(Sanitize(value))
    ensures Sanitize(value) == value <==> IsClean(value)
    ensures Sanitize(value) == "" <==> Text.Blank(value)
  {
    var squeezed := Squeeze(Text.Trim(value));
    SqueezeIsPlain(Text.Trim(value));
    TrimMarksIsClean(squeezed);
    ValueIsClean();
    if IsClean(value) {
      CleanIsTrimmed(value);
      TrimMarksKeepsClean(value);
    }
  }

  lemma ValueIsClean()
    ensures IsClean("value")
  {
  }

  lemma SanitizeTwice(value: string)
    ensures Sanitize(Sanitize(value)) == Sanitize(value)
  {
    SanitizeFixesExactlyClean(value);
    SanitizeFixesExactlyClean(Sanitize(value));
  }

  // ---- Rendering ------------------------------------------------------------------------------

  const RECOMMENDED_REMOTE_DIR := "archives/" + ("{{agent_name}}" + ("/" + ("{{context_name}}" + ("/" + "{{date}}"))))
  const RECOMMENDED_NAME :=
    "{{context_name}}" + ("_" + ("{{agent_name}}" + ("_" + ("{{datetime}}" + ("." + "{{ext}}")))))
  const LEGACY_REMOTE_DIR := "artifacts"
  const LEGACY_NAME := "backup-" + ("{{datetime}}" + ("." + "{{ext}}"))

  const VARIABLES := {
    "date", "time", "datetime", "agent_id", "agent_name", "policy_id", "policy_name", "context_name", "site_name",
    "source_type", "container_name", "compose_project", "compose_service", "database_engine", "database_name", "format", "ext"}

  predicate IsClock(s: string) { forall i :: 0 <= i < |s| ==> '0' <= s[i] <= '9' || s[i] == '-' }

  // A moment as the clock formats it, such as 2026-07-09 and 150405.
  type ClockText = s: string | IsClock(s)

  datatype ArchiveFormat = Zip | TarGz {
    function Name(): string { if Zip? then "zip" else "tar.gz" }
  }

  // What a backup is about. `inferredName` and the fields after it are what its sources say.
  datatype Context = Context(
    agentId: string, agentName: string, policyId: string, policyName: string, contextName: string,
    format: ArchiveFormat, date: ClockText, time: ClockText, datetime: ClockText,
    inferredName: string, sourceType: string, containerName: string, composeProject: string, composeService: string,
    databaseEngine: string, databaseName: string)

  datatype RenderInput = RenderInput(context: Context, remoteDirTemplate: string, nameTemplate: string, recommended: bool)

  datatype Metadata = Metadata(
    remoteDir: string, artifactName: string, artifactPath: string, remoteDirTemplate: string, nameTemplate: string,
    values: Values, legacy: bool)

  datatype RenderError = BadTemplate(error: TemplateError) | BadRemoteDir | BadFilename | BadPath

  function FirstNonEmpty(a: string, b: string, c: string): string {
    if !Text.Blank(a) then Text.Trim(a) else if !Text.Blank(b) then Text.Trim(b) else Text.Trim(c)
  }

  function Value(c: Context, name: string): string {
    if name == "date" then c.date
    else if name == "time" then c.time
    else if name == "datetime" then c.datetime
    else Sanitize(RawValue(c, name))
  }

  function RawValue(c: Context, name: string): string {
    if name == "agent_id" then c.agentId
    else if name == "agent_name" then FirstNonEmpty(c.agentName, c.agentId, "agent")
    else if name == "policy_id" then c.policyId
    else if name == "policy_name" then c.policyName
    else if name == "context_name" || name == "site_name" then FirstNonEmpty(c.contextName, c.inferredName, "backup")
    else if name == "source_type" then c.sourceType
    else if name == "container_name" then c.containerName
    else if name == "compose_project" then c.composeProject
    else if name == "compose_service" then c.composeService
    else if name == "database_engine" then c.databaseEngine
    else if name == "database_name" then c.databaseName
    else c.format.Name()
  }

  function RenderVariables(c: Context): Values { map name | name in VARIABLES :: Value(c, name) }

  function EffectiveTemplates(remote: string, name: string, recommended: bool): (string, string, bool) {
    var r, n := Text.Trim(remote), Text.Trim(name);
    if !recommended && r == "" && n == "" then (LEGACY_REMOTE_DIR, LEGACY_NAME, true)
    else (if r == "" then RECOMMENDED_REMOTE_DIR else r, if n == "" then RECOMMENDED_NAME else n, false)
  }

  function FirstUnsupported(pieces: seq<Piece>): Option<string> {
    if pieces == [] then None
    else if pieces[0].Token? && pieces[0].name !in VARIABLES then Some(pieces[0].name)
    else FirstUnsupported(pieces[1..])
  }

  function ValidateTemplateSyntax(template: string, allowPathSeparators: bool): Option<TemplateError> {
    if Text.Blank(template) then Some(Required)
    else if HasControl(template) then Some(ControlCharacters)
    else if !allowPathSeparators && HasSeparator(template) then Some(PathSeparators)
    else
      var unsupported := FirstUnsupported(Scan(template));
      if unsupported.Some? then Some(UnsupportedVariable(unsupported.value))
      else if HasBraces(template) && HasBraces(Stripped(template)) then Some(InvalidToken)
      else None
  }

  predicate ValidFilename(name: string) {
    var n := Text.Trim(name);
    n != "" && !HasControl(n) && !HasSeparator(n) && n != "." && n != ".."
  }

  function Render(input: RenderInput): Result<Metadata, RenderError> {
    var (remoteTemplate, nameTemplate, legacy) :=
      EffectiveTemplates(input.remoteDirTemplate, input.nameTemplate, input.recommended);
    RenderEffective(remoteTemplate, nameTemplate, legacy, input.context)
  }

  function RenderEffective(remoteTemplate: string, nameTemplate: string, legacy: bool, c: Context): Result<Metadata, RenderError> {
    var badRemote, badName := ValidateTemplateSyntax(remoteTemplate, true), ValidateTemplateSyntax(nameTemplate, false);
    if badRemote.Some? then Err(BadTemplate(badRemote.value))
    else if badName.Some? then Err(BadTemplate(badName.value))
    else
      var values := RenderVariables(c);
      Finish(RenderTemplate(remoteTemplate, values), RenderTemplate(nameTemplate, values), remoteTemplate, nameTemplate, values, legacy)
  }

  function Finish(remoteDir: string, artifactName: string, remoteTemplate: string, nameTemplate: string, values: Values, legacy: bool)
    : Result<Metadata, RenderError>
  {
    var artifactPath := Join(remoteDir, artifactName);
    if !ValidPath(remoteDir) then Err(BadRemoteDir)
    else if !ValidFilename(artifactName) then Err(BadFilename)
    else if !ValidPath(artifactPath) then Err(BadPath)
    else Ok(Metadata(remoteDir, artifactName, artifactPath, remoteTemplate, nameTemplate, values, legacy))
  }

  // ---- Values are harmless ---------------------------------------------------------------------

  lemma ValueIsPlain(c: Context, name: string)
    ensures Plain(Value(c, name))
  {
    SanitizeFixesExactlyClean(RawValue(c, name));
  }

  lemma ValuesAreWithout(c: Context, x: char)
    requires !IsPlain(x)
    ensures ValuesWithout(RenderVariables(c), x)
  {
    forall name | name in VARIABLES
      ensures Without(Value(c, name), x)
    {
      ValueIsPlain(c, name);
    }
  }

  // ---- The rendered text -----------------------------------------------------------------------

  // An accepted template leaves no braces of a token in what it renders, whatever the values are.
  lemma NoBracesLeft(template: string, allow: bool, c: Context)
    requires ValidateTemplateSyntax(template, allow).None?
    ensures !HasBraces(RenderTemplate(template, RenderVariables(c)))
  {
    var values := RenderVariables(c);
    ValuesAreWithout(c, '{');
    ValuesAreWithout(c, '}');
    if !HasBraces(template) {
      NoBracesNoTokens(template);
    } else {
      NoNewPair(Scan(template), values, '{');
      NoNewPair(Scan(template), values, '}');
    }
  }

  lemma NoControlRendered(template: string, allow: bool, c: Context)
    requires ValidateTemplateSyntax(template, allow).None?
    ensures !HasControl(RenderTemplate(template, RenderVariables(c)))
  {
    var r := RenderTemplate(template, RenderVariables(c));
    forall i | 0 <= i < |r|
      ensures !(r[i] as int < 32 || r[i] as int == 127)
    {
      if r[i] as int < 32 || r[i] as int == 127 {
        assert Without(template, r[i]);
        ValuesAreWithout(c, r[i]);
        RenderedWithout(template, RenderVariables(c), r[i]);
        assert false;
      }
    }
  }

  // ---- The path --------------------------------------------------------------------------------

  lemma NamePartSafe(name: string)
    requires ValidFilename(name)
    ensures Without(name, '/') && Safe(Split(name)) && Safe(Split(Text.TrimRight(name)))
    ensures !Spaces(name)
  {
    var l, r := TrimParts(name);
    NameParts(l, Text.Trim(name), r);
    NotAllSpaces(name);
  }

  lemma NameParts(l: string, core: string, r: string)
    requires Spaces(l) && Spaces(r) && Without(core, '/') && SafeSegment(core)
    ensures Without(l + core + r, '/') && Safe(Split(l + core + r)) && Safe(Split(l + core))
  {
    SplitWithout(core);
    SafeWithSpace(core, l, r);
    SafeWithSpace(core, l, "");
    assert l + core + "" == l + core;
  }

  lemma NotAllSpaces(s: string)
    requires Text.Trim(s) != ""
    ensures !Spaces(s)
  {
    var left := Text.TrimLeft(s);
    assert s[Text.LeadingSpaces(s)] == left[0];
  }

  lemma DirPartSafe(dir: string)
    requires ValidPath(dir)
    ensures Safe(Split(dir)) && dir != "" && dir[0] != '/'
    ensures Safe(Split(Text.TrimLeft(dir))) && Text.TrimLeft(dir) != "" && Text.TrimLeft(dir)[0] != '/'
    ensures !Spaces(dir)
  {
    var l, r := TrimParts(dir);
    DirParts(l, Text.Trim(dir), r);
    NotAllSpaces(dir);
  }

  lemma DirParts(l: string, core: string, r: string)
    requires Spaces(l) && Spaces(r) && core != "" && core[0] != '/' && Safe(Split(core))
    ensures Safe(Split(l + core + r)) && (l + core + r)[0] != '/'
    ensures Safe(Split(core + r)) && (core + r)[0] != '/'
  {
    SafeWithSpace(core, l, r);
    SafeWithSpace(core, "", r);
    assert "" + core + r == core + r;
  }

  lemma SafeOfJoin(a: string, b: string)
    requires Safe(Split(a)) && Safe(Split(b))
    ensures Safe(Split(a + "/" + b))
  {
    SplitOfJoin(a, b);
  }

  lemma TrimOfJoin(dir: string, name: string)
    requires !Spaces(dir) && !Spaces(name)
    ensures Text.Trim(dir + "/" + name) == Text.TrimLeft(dir) + "/" + Text.TrimRight(name)
  {
    var left := Text.TrimLeft(dir);
    TrimLeftOfConcat(dir, "/" + name);
    assert dir + "/" + name == dir + ("/" + name);
    TrimRightOfConcat(left + "/", name);
    assert left + "/" + name == left + ("/" + name);
  }

  // The directory and the name, once they have been accepted, are joined as they are, and the check of
  // the joined path cannot fail.
  lemma JoinedAsTheyAre(dir: string, name: string)
    requires ValidPath(dir) && ValidFilename(name) && !HasControl(dir) && !HasControl(name)
    ensures var path := dir + "/" + name;
            Join(dir, name) == path && path[0] != '/' && Safe(Split(path)) && ValidPath(path)
  {
    DirPartSafe(dir);
    NamePartSafe(name);
    JoinIsClean(dir, name);
    JoinIsValid(dir, name);
  }

  lemma JoinIsClean(dir: string, name: string)
    requires dir != "" && dir[0] != '/' && name != "" && Safe(Split(dir)) && Safe(Split(name))
    ensures var path := dir + "/" + name;
            Join(dir, name) == path && path[0] != '/' && Safe(Split(path))
  {
    SafeOfJoin(dir, name);
    SafePathIsClean(dir + "/" + name);
  }

  lemma JoinIsValid(dir: string, name: string)
    requires !Spaces(dir) && !Spaces(name) && !HasControl(dir) && !HasControl(name)
    requires Safe(Split(Text.TrimLeft(dir))) && Text.TrimLeft(dir) != "" && Text.TrimLeft(dir)[0] != '/'
    requires Safe(Split(Text.TrimRight(name)))
    ensures ValidPath(dir + "/" + name)
  {
    var left, right := Text.TrimLeft(dir), Text.TrimRight(name);
    TrimOfJoin(dir, name);
    SafeOfJoin(left, right);
    NoControlJoined(dir, name);
    NoControlTrimmed(dir + "/" + name);
    JoinStart(left, right);
    ValidPathIs(dir + "/" + name, left + "/" + right);
  }

  lemma JoinStart(a: string, b: string)
    requires a != ""
    ensures (a + "/" + b)[0] == a[0]
  {
  }

  lemma ValidPathIs(path: string, p: string)
    requires Text.Trim(path) == p && p != "" && p[0] != '/' && !HasControl(p) && Safe(Split(p))
    ensures ValidPath(path)
  {
  }

  lemma NoControlJoined(a: string, b: string)
    requires !HasControl(a) && !HasControl(b)
    ensures !HasControl(a + "/" + b)
  {
    var s := a + "/" + b;
    assert forall i :: 0 <= i < |b| ==> s[|a| + 1 + i] == b[i];
  }

  lemma NoControlTrimmed(s: string)
    requires !HasControl(s)
    ensures !HasControl(Text.Trim(s))
  {
    var n := Text.LeadingSpaces(s);
    assert forall i :: 0 <= i < |Text.Trim(s)| ==> Text.Trim(s)[i] == s[n + i];
  }

  // ---- Theorems --------------------------------------------------------------------------------

  // What a successful rendering is made of.
  predicate IsRendered(m: Metadata, c: Context) {
    && ValidateTemplateSyntax(m.remoteDirTemplate, true).None? && ValidateTemplateSyntax(m.nameTemplate, false).None?
    && m.values == RenderVariables(c)
    && m.remoteDir == RenderTemplate(m.remoteDirTemplate, m.values)
    && m.artifactName == RenderTemplate(m.nameTemplate, m.values)
    && m.artifactPath == Join(m.remoteDir, m.artifactName)
    && ValidPath(m.remoteDir) && ValidFilename(m.artifactName)
  }

  lemma RenderedFrom(input: RenderInput)
    requires Render(input).Ok?
    ensures IsRendered(Render(input).value, input.context)
  {
    var (remote, name, legacy) := EffectiveTemplates(input.remoteDirTemplate, input.nameTemplate, input.recommended);
    var values := RenderVariables(input.context);
    EffectiveFrom(remote, name, legacy, input.context, values);
    FinishedFrom(RenderTemplate(remote, values), RenderTemplate(name, values), remote, name, values, legacy);
  }

  lemma EffectiveFrom(remote: string, name: string, legacy: bool, c: Context, values: Values)
    requires values == RenderVariables(c) && RenderEffective(remote, name, legacy, c).Ok?
    ensures ValidateTemplateSyntax(remote, true).None? && ValidateTemplateSyntax(name, false).None?
    ensures RenderEffective(remote, name, legacy, c)
         == Finish(RenderTemplate(remote, values), RenderTemplate(name, values), remote, name, values, legacy)
  {
  }

  // A text that begins with a character is not blank.
  lemma SolidIsNotBlank(s: string)
    requires s != "" && !Text.IsSpace(s[0])
    ensures !Text.Blank(s)
  {
    Text.LeadingSpacesAre(s, 0);
    assert Text.TrimLeft(s) == s;
  }

  // Templates that are left out are filled in, so that the check for a missing one never fails.
  lemma TemplatesAreFilledIn(input: RenderInput)
    ensures Render(input) != Err(BadTemplate(Required))
  {
    var (remote, name, legacy) := EffectiveTemplates(input.remoteDirTemplate, input.nameTemplate, input.recommended);
    FilledIn(input.remoteDirTemplate);
    FilledIn(input.nameTemplate);
    ConstantsAreFilledIn();
    RequiredNever(remote, name, legacy, input.context);
  }

  lemma FilledIn(template: string)
    ensures Text.Trim(template) != "" ==> !Text.Blank(Text.Trim(template))
  {
    if Text.Trim(template) != "" {
      SolidIsNotBlank(Text.Trim(template));
    }
  }

  lemma ConstantsAreFilledIn()
    ensures !Text.Blank(RECOMMENDED_REMOTE_DIR) && !Text.Blank(RECOMMENDED_NAME)
    ensures !Text.Blank(LEGACY_REMOTE_DIR) && !Text.Blank(LEGACY_NAME)
  {
    assert RECOMMENDED_REMOTE_DIR[0] == 'a' && RECOMMENDED_NAME[0] == '{';
    assert LEGACY_REMOTE_DIR[0] == 'a' && LEGACY_NAME[0] == 'b';
    SolidIsNotBlank(RECOMMENDED_REMOTE_DIR);
    SolidIsNotBlank(RECOMMENDED_NAME);
    SolidIsNotBlank(LEGACY_REMOTE_DIR);
    SolidIsNotBlank(LEGACY_NAME);
  }

  lemma RequiredNever(remote: string, name: string, legacy: bool, c: Context)
    requires !Text.Blank(remote) && !Text.Blank(name)
    ensures RenderEffective(remote, name, legacy, c) != Err(BadTemplate(Required))
  {
    SyntaxNeverRequires(remote, true);
    SyntaxNeverRequires(name, false);
    var values := RenderVariables(c);
    FinishedFrom(RenderTemplate(remote, values), RenderTemplate(name, values), remote, name, values, legacy);
  }

  lemma SyntaxNeverRequires(template: string, allowPathSeparators: bool)
    requires !Text.Blank(template)
    ensures ValidateTemplateSyntax(template, allowPathSeparators) != Some(Required)
  {
  }

  lemma FinishedFrom(dir: string, name: string, remoteTemplate: string, nameTemplate: string, values: Values, legacy: bool)
    ensures var r := Finish(dir, name, remoteTemplate, nameTemplate, values, legacy);
            r.Ok? ==> r.value == Metadata(dir, name, Join(dir, name), remoteTemplate, nameTemplate, values, legacy)
                      && ValidPath(dir) && ValidFilename(name)
    ensures var r := Finish(dir, name, remoteTemplate, nameTemplate, values, legacy); r.Err? ==> !r.error.BadTemplate?
  {
  }

  // What a rendered artifact is called, for every template and context that is accepted.
  lemma RenderedArtifactIsSafe(input: RenderInput)
    requires Render(input).Ok?
    ensures var m := Render(input).value;
            && m.artifactPath == m.remoteDir + "/" + m.artifactName
            && m.artifactPath[0] != '/' && Safe(Split(m.artifactPath))
            && !HasBraces(m.remoteDir) && !HasBraces(m.artifactName) && !HasBraces(m.artifactPath)
            && !HasControl(m.remoteDir) && !HasControl(m.artifactName)
  {
    RenderedFrom(input);
    var m, c := Render(input).value, input.context;
    PartsAreSafe(m.remoteDirTemplate, m.nameTemplate, m.remoteDir, m.artifactName, c);
  }

  lemma PartsAreSafe(remoteTemplate: string, nameTemplate: string, dir: string, name: string, c: Context)
    requires ValidateTemplateSyntax(remoteTemplate, true).None? && ValidateTemplateSyntax(nameTemplate, false).None?
    requires dir == RenderTemplate(remoteTemplate, RenderVariables(c)) && name == RenderTemplate(nameTemplate, RenderVariables(c))
    requires ValidPath(dir) && ValidFilename(name)
    ensures Join(dir, name) == dir + "/" + name && (dir + "/" + name)[0] != '/' && Safe(Split(dir + "/" + name))
    ensures !HasBraces(dir) && !HasBraces(name) && !HasBraces(dir + "/" + name)
    ensures !HasControl(dir) && !HasControl(name)
  {
    NoBracesLeft(remoteTemplate, true, c);
    NoBracesLeft(nameTemplate, false, c);
    NoControlRendered(remoteTemplate, true, c);
    NoControlRendered(nameTemplate, false, c);
    JoinedAsTheyAre(dir, name);
    NoPairJoined(dir, name, '{');
    NoPairJoined(dir, name, '}');
  }

  lemma NoPairJoined(a: string, b: string, x: char)
    requires !HasPair(a, x) && !HasPair(b, x) && x != '/'
    ensures !HasPair(a + "/" + b, x)
  {
    PairOfConcat(a, "/", x);
    PairOfConcat(a + "/", b, x);
  }

  // The template alone decides how deep the artifact lies.
  lemma TemplateDecidesDepth(input: RenderInput)
    requires Render(input).Ok?
    ensures var m := Render(input).value;
            && Count(m.remoteDir, '/') == Count(m.remoteDirTemplate, '/')
            && Count(m.artifactName, '/') == 0
            && |Split(m.artifactPath)| == Count(m.remoteDirTemplate, '/') + 2
  {
    RenderedFrom(input);
    RenderedArtifactIsSafe(input);
    var m := Render(input).value;
    SlashesKept(m.remoteDirTemplate, m.remoteDir, input.context);
    DepthOfJoin(m.remoteDir, m.artifactName);
  }

  lemma SlashesKept(template: string, rendered: string, c: Context)
    requires rendered == RenderTemplate(template, RenderVariables(c))
    ensures Count(rendered, '/') == Count(template, '/')
  {
    ValuesAreWithout(c, '/');
    CountKept(template, RenderVariables(c), '/');
  }

  lemma DepthOfJoin(dir: string, name: string)
    requires ValidFilename(name)
    ensures Count(name, '/') == 0 && |Split(dir + "/" + name)| == Count(dir, '/') + 2
  {
    NamePartSafe(name);
    CountOfWithout(name, '/');
    SplitOfJoin(dir, name);
    SegmentsCount(dir);
    SegmentsCount(name);
  }

  // Rendering succeeds exactly when both templates are accepted and the rendered directory and name
  // are: the last check, of the whole path, decides nothing.
  lemma RenderSucceedsIff(input: RenderInput)
    ensures var (remote, name, _) := EffectiveTemplates(input.remoteDirTemplate, input.nameTemplate, input.recommended);
            var values := RenderVariables(input.context);
            Render(input).Ok? <==>
              && ValidateTemplateSyntax(remote, true).None? && ValidateTemplateSyntax(name, false).None?
              && ValidPath(RenderTemplate(remote, values)) && ValidFilename(RenderTemplate(name, values))
  {
    var (remote, name, legacy) := EffectiveTemplates(input.remoteDirTemplate, input.nameTemplate, input.recommended);
    EffectiveSucceedsIff(remote, name, legacy, input.context);
  }

  lemma EffectiveSucceedsIff(remote: string, name: string, legacy: bool, c: Context)
    ensures var values := RenderVariables(c);
            RenderEffective(remote, name, legacy, c).Ok? <==>
              && ValidateTemplateSyntax(remote, true).None? && ValidateTemplateSyntax(name, false).None?
              && ValidPath(RenderTemplate(remote, values)) && ValidFilename(RenderTemplate(name, values))
  {
    var values := RenderVariables(c);
    var dir, file := RenderTemplate(remote, values), RenderTemplate(name, values);
    if ValidateTemplateSyntax(remote, true).None? && ValidateTemplateSyntax(name, false).None? && ValidPath(dir) && ValidFilename(file) {
      NoControlRendered(remote, true, c);
      NoControlRendered(name, false, c);
      JoinedAsTheyAre(dir, file);
    }
  }

  lemma {:induction false} LiteralsAreSupported(pieces: seq<Piece>)
    requires forall i :: 0 <= i < |pieces| ==> pieces[i].Literal?
    ensures FirstUnsupported(pieces).None?
  {
    if pieces != [] {
      LiteralsAreSupported(pieces[1..]);
    }
  }

  lemma PlainTemplateIsAccepted(template: string, allow: bool)
    requires !HasBraces(template) && !HasControl(template) && !Text.Blank(template) && (allow || !HasSeparator(template))
    ensures ValidateTemplateSyntax(template, allow).None?
  {
    NoBracesNoTokens(template);
    LiteralsAreSupported(Scan(template));
  }

  // Templates without braces, fit to be a directory and a name, are accepted and name the artifact as
  // they stand, whatever the context.
  lemma PlainTemplatesStand(remote: string, name: string, legacy: bool, c: Context)
    requires !HasBraces(remote) && !HasControl(remote) && ValidPath(remote)
    requires !HasBraces(name) && !HasControl(name) && ValidFilename(name) && !HasSeparator(name)
    ensures var r := RenderEffective(remote, name, legacy, c);
            r.Ok? && r.value.remoteDir == remote && r.value.artifactName == name && r.value.artifactPath == remote + "/" + name
  {
    PlainTemplateIsAccepted(remote, true);
    PlainTemplateIsAccepted(name, false);
    NoBracesNoTokens(remote);
    NoBracesNoTokens(name);
    JoinedAsTheyAre(remote, name);
    FinishesWhenValid(remote, name, legacy, c);
  }

  lemma FinishesWhenValid(remote: string, name: string, legacy: bool, c: Context)
    requires ValidateTemplateSyntax(remote, true).None? && ValidateTemplateSyntax(name, false).None?
    requires RenderTemplate(remote, RenderVariables(c)) == remote && RenderTemplate(name, RenderVariables(c)) == name
    requires ValidPath(remote) && ValidFilename(name) && Join(remote, name) == remote + "/" + name && ValidPath(remote + "/" + name)
    ensures RenderEffective(remote, name, legacy, c)
         == Ok(Metadata(remote, name, remote + "/" + name, remote, name, RenderVariables(c), legacy))
  {
  }
}
