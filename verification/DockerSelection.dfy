/** Which containers of a snapshot a restore request selects. */
module DockerSelection {
  import opened Places
  import opened Text
  import opened Wrappers

  const MAX_SOURCES := 50

  datatype Selection = Selection(containerId: string, name: string, composeProject: string, composeService: string)

  // A container as the snapshot's metadata resolves it; `rest` stands for what plays no part here.
  datatype Source = Source(
    containerId: string, name: string, composeProject: string, composeService: string, selection: Selection, rest: int)

  datatype SelectionError =
    | SelectionRequired
    | SelectionExceedsLimit
    | EmptyId
    | DuplicateIds
    | NoSources
    | ResolvesTwice
    | SourceNotFound

  // ---- Identifiers ---------------------------------------------------------------------------

  // The distinct values that are not empty, in order of first appearance.
  function Unique(values: seq<string>): seq<string> {
    if values == [] then []
    else
      var rest, last := Unique(values[..|values| - 1]), values[|values| - 1];
      if last == "" || last in rest then rest else rest + [last]
  }

  function Trimmed(values: seq<string>): seq<string> { seq(|values|, i requires 0 <= i < |values| => Trim(values[i])) }

  predicate Distinct(values: seq<string>) { forall i, j :: 0 <= i < j < |values| ==> values[i] != values[j] }

  lemma {:induction false} UniqueIs(values: seq<string>)
    ensures Distinct(Unique(values))
    ensures forall x :: x in Unique(values) <==> x != "" && x in values
  {
    if values != [] {
      var n := |values| - 1;
      UniqueIs(values[..n]);
      assert values == values[..n] + [values[n]];
    }
  }

  function FirstOf(a: string, b: string): string { if Trim(a) != "" then Trim(a) else Trim(b) }

  function RawIdentifiers(s: Source): seq<string> {
    var project, service :=
      FirstOf(s.composeProject, s.selection.composeProject), FirstOf(s.composeService, s.selection.composeService);
    [s.containerId, s.selection.containerId, s.name, s.selection.name]
    + if project != "" && service != "" then [project + "/" + service] else []
  }

  function Identifiers(s: Source): seq<string> { Unique(Trimmed(RawIdentifiers(s))) }

  // What a source is called: its container id and its name, as they are given or as they were selected,
  // and its service in its project, where what was selected stands in for what is not given.
  predicate IsCalled(s: Source, x: string) {
    var project := if Trim(s.composeProject) != "" then Trim(s.composeProject) else Trim(s.selection.composeProject);
    var service := if Trim(s.composeService) != "" then Trim(s.composeService) else Trim(s.selection.composeService);
    && x != ""
    && (|| x == Trim(s.containerId) || x == Trim(s.selection.containerId) || x == Trim(s.name) || x == Trim(s.selection.name)
        || (project != "" && service != "" && x == project + "/" + service))
  }

  // Two trimmed texts with a slash between them are trimmed.
  lemma ServiceIsTrimmed(a: string, b: string)
    requires Trim(a) != "" && Trim(b) != ""
    ensures Trim(Trim(a) + "/" + Trim(b)) == Trim(a) + "/" + Trim(b)
  {
    var l, r := TrimIs(a);
    l, r := TrimIs(b);
    TrimmedStays(Trim(a) + "/" + Trim(b));
  }

  lemma TrimmedFour(a: string, b: string, c: string, d: string, rest: seq<string>)
    ensures Trimmed([a, b, c, d] + rest) == [Trim(a), Trim(b), Trim(c), Trim(d)] + Trimmed(rest)
  {
  }

  lemma AmongFour(x: string, a: string, b: string, c: string, d: string, rest: seq<string>)
    ensures x in [a, b, c, d] + rest <==> x == a || x == b || x == c || x == d || x in rest
  {
  }

  // The service in its project, if both are known.
  function ServiceName(s: Source): seq<string> {
    var project, service :=
      FirstOf(s.composeProject, s.selection.composeProject), FirstOf(s.composeService, s.selection.composeService);
    if project != "" && service != "" then [project + "/" + service] else []
  }

  lemma ServiceNameIsTrimmed(s: Source)
    ensures Trimmed(ServiceName(s)) == ServiceName(s)
  {
    if ServiceName(s) != [] {
      ServiceIsTrimmed(if Trim(s.composeProject) != "" then s.composeProject else s.selection.composeProject,
                       if Trim(s.composeService) != "" then s.composeService else s.selection.composeService);
    }
  }

  lemma IdentifierIs(s: Source, x: string)
    ensures x in Identifiers(s) <==> IsCalled(s, x)
  {
    UniqueIs(Trimmed(RawIdentifiers(s)));
    TrimmedFour(s.containerId, s.selection.containerId, s.name, s.selection.name, ServiceName(s));
    ServiceNameIsTrimmed(s);
    AmongFour(x, Trim(s.containerId), Trim(s.selection.containerId), Trim(s.name), Trim(s.selection.name), ServiceName(s));
  }

  lemma IdentifiersAre(s: Source)
    ensures forall x :: x in Identifiers(s) <==> IsCalled(s, x)
  {
    forall x ensures x in Identifiers(s) <==> IsCalled(s, x) {
      IdentifierIs(s, x);
    }
  }

  // Where the values that stay were first.
  lemma {:induction false} UniqueAt(values: seq<string>) returns (at: seq<nat>)
    ensures |at| == |Unique(values)|
    ensures forall k :: 0 <= k < |at| ==> at[k] < |values| && Unique(values)[k] == values[at[k]] && values[at[k]] !in values[..at[k]]
    ensures forall j, k :: 0 <= j < k < |at| ==> at[j] < at[k]
  {
    if values == [] {
      at := [];
    } else {
      var n := |values| - 1;
      at := UniqueAt(values[..n]);
      UniqueIs(values[..n]);
      assert forall k :: 0 <= k < |at| ==> values[..n][..at[k]] == values[..at[k]];
      if values[n] != "" && values[n] !in Unique(values[..n]) {
        at := at + [n];
      }
    }
  }

  function Names(sources: seq<Source>): seq<seq<string>> {
    seq(|sources|, j requires 0 <= j < |sources| => Identifiers(sources[j]))
  }

  method AppendUniqueRestoreStrings(values: seq<string>) returns (result: seq<string>)
    ensures result == Unique(Trimmed(values))
  {
    var seen: set<string> := {};
    result := [];
    ghost var trimmed := Trimmed(values);
    for i := 0 to |values|
      invariant result == Unique(trimmed[..i])
      invariant forall x :: x in seen <==> x in result
    {
      assert trimmed[..i + 1][..i] == trimmed[..i];
      var value := Trim(values[i]);
      if value == "" || value in seen {
        continue;
      }
      seen := seen + {value};
      result := result + [value];
    }
    assert trimmed[..|values|] == trimmed;
  }

  method DockerSourceIdentifiers(s: Source) returns (ids: seq<string>)
    ensures ids == Identifiers(s)
  {
    var values := [s.containerId, s.selection.containerId, s.name, s.selection.name];
    var project := Trim(s.composeProject);
    if project == "" {
      project := Trim(s.selection.composeProject);
    }
    var service := Trim(s.composeService);
    if service == "" {
      service := Trim(s.selection.composeService);
    }
    if project != "" && service != "" {
      values := values + [project + "/" + service];
    }
    assert values == RawIdentifiers(s);
    ids := AppendUniqueRestoreStrings(values);
  }

  // ---- The chosen ids ------------------------------------------------------------------------

  // A single id counts only when no list is given.
  method NormalizedDockerSourceIds(ids: seq<string>, single: string) returns (r: Result<seq<string>, SelectionError>)
    ensures var values := if ids == [] && Trim(single) != "" then [single] else ids;
            && (r.Ok? <==> 0 < |values| <= 50 && Distinct(Trimmed(values)) && forall i :: 0 <= i < |values| ==> Trim(values[i]) != "")
            && (r.Ok? ==> |r.value| == |values| && forall i :: 0 <= i < |values| ==> r.value[i] == Trim(values[i]))
            && (values == [] ==> r == Err(SelectionRequired))
            && (|values| > 50 ==> r == Err(SelectionExceedsLimit))
            && (r.Err? && 0 < |values| <= 50 ==>
                  || (r.error == EmptyId && exists i :: 0 <= i < |values| && Trim(values[i]) == "")
                  || (r.error == DuplicateIds && exists i, j :: 0 <= i < j < |values| && Trim(values[i]) == Trim(values[j])))
  {
    var values := ids;
    if |values| == 0 && Trim(single) != "" {
      values := [single];
    }
    if |values| == 0 {
      return Err(SelectionRequired);
    }
    if |values| > MAX_SOURCES {
      return Err(SelectionExceedsLimit);
    }
    NoneEmpty(values);
    r := TrimIds(values, Trimmed(values));
  }

  lemma NoneEmpty(values: seq<string>)
    ensures "" in Trimmed(values) <==> exists i :: 0 <= i < |values| && Trim(values[i]) == ""
  {
    assert forall i :: 0 <= i < |values| ==> Trimmed(values)[i] == Trim(values[i]);
  }

  method TrimIds(values: seq<string>, ghost trimmed: seq<string>) returns (r: Result<seq<string>, SelectionError>)
    requires trimmed == Trimmed(values)
    ensures r.Ok? <==> Distinct(trimmed) && "" !in trimmed
    ensures r.Ok? ==> r.value == trimmed
    ensures r.Err? ==> (r.error == EmptyId && "" in trimmed) || (r.error == DuplicateIds && !Distinct(trimmed))
  {
    var seen: set<string> := {};
    var result := [];
    for i := 0 to |values|
      invariant result == trimmed[..i]
      invariant forall x :: x in seen <==> x in result
      invariant Distinct(result) && "" !in result
    {
      var value := Trim(values[i]);
      assert value == trimmed[i];
      if value == "" {
        return Err(EmptyId);
      }
      if value in seen {
        NotDistinct(trimmed, i);
        return Err(DuplicateIds);
      }
      seen := seen + {value};
      result := result + [value];
      Snoc(trimmed, i);
    }
    Whole(trimmed);
    r := Ok(result);
  }

  lemma NotDistinct(values: seq<string>, n: nat)
    requires n < |values| && values[n] in values[..n]
    ensures !Distinct(values)
  {
    var i :| 0 <= i < n && values[i] == values[n];
  }

  // ---- Which selections resolve --------------------------------------------------------------

  // Of the chosen ids at most one is among a source's names.
  predicate AtMostOneId(names: seq<string>, ids: seq<string>) {
    forall c, d :: c in names && c in ids && d in names && d in ids ==> c == d
  }

  predicate AtMostOneSource(names: seq<seq<string>>, id: string) {
    forall i, j :: 0 <= i < j < |names| && id in names[i] ==> id !in names[j]
  }

  predicate Found(names: seq<seq<string>>, id: string) { exists j :: 0 <= j < |names| && id in names[j] }

  predicate Unambiguous(names: seq<seq<string>>, ids: seq<string>) {
    && (forall j :: 0 <= j < |names| ==> AtMostOneId(names[j], ids))
    && (forall id :: id in ids ==> AtMostOneSource(names, id))
  }

  // Every chosen id is a name of exactly one source, and no source has two of them as names.
  predicate Resolves(names: seq<seq<string>>, ids: seq<string>) {
    Distinct(ids) && Unambiguous(names, ids) && forall id :: id in ids ==> Found(names, id)
  }

  predicate Chosen(names: seq<string>, ids: seq<string>) { exists id :: id in ids && id in names }

  // The chosen sources, in the order of the metadata.
  function Matched(sources: seq<Source>, ids: seq<string>): seq<Source> {
    if sources == [] then []
    else
      var rest, last := Matched(sources[..|sources| - 1], ids), sources[|sources| - 1];
      if Chosen(Identifiers(last), ids) then rest + [last] else rest
  }

  function ChosenAt(sources: seq<Source>, ids: seq<string>): nat -> bool { (i: nat) => i < |sources| && IsChosen(sources[i], ids) }

  // The chosen sources are those that one of the ids is a name of, in the order of the metadata.
  lemma {:induction false} MatchedAt(sources: seq<Source>, ids: seq<string>) returns (at: seq<nat>)
    ensures Picked(at, |sources|, ChosenAt(sources, ids)) && |at| == |Matched(sources, ids)|
    ensures forall k :: 0 <= k < |at| ==> at[k] < |sources| && Matched(sources, ids)[k] == sources[at[k]]
  {
    if sources == [] {
      at := [];
    } else {
      var n := |sources| - 1;
      at := MatchedAt(sources[..n], ids);
      PickedMore(at, n, ChosenAt(sources[..n], ids), ChosenAt(sources, ids));
      ChosenIs(sources[n], ids);
      if IsChosen(sources[n], ids) {
        at := at + [n];
      }
    }
  }

  lemma ChosenIs(s: Source, ids: seq<string>)
    ensures Chosen(Identifiers(s), ids) <==> IsChosen(s, ids)
  {
    IdentifiersAre(s);
  }

  // One of the ids is what the source is called.
  predicate IsChosen(s: Source, ids: seq<string>) { exists id :: id in ids && IsCalled(s, id) }

  // The `k`-th id is a name of the `j`-th source.
  predicate Picks(names: seq<seq<string>>, ids: seq<string>, j: int, k: int) {
    0 <= j < |names| && 0 <= k < |ids| && ids[k] in names[j]
  }

  // A resolving selection pairs the chosen sources and the ids off against each other.
  lemma PairedOff(names: seq<seq<string>>, ids: seq<string>)
    requires Resolves(names, ids)
    ensures forall j :: 0 <= j < |names| && Chosen(names[j], ids) ==> exists k :: Picks(names, ids, j, k)
    ensures forall id :: id in ids ==> exists j, k :: Picks(names, ids, j, k) && ids[k] == id
    ensures forall j, k, l, m :: Picks(names, ids, j, k) && Picks(names, ids, l, m) ==> (j == l <==> k == m)
  {
    forall j | 0 <= j < |names| && Chosen(names[j], ids)
      ensures exists k :: Picks(names, ids, j, k)
    {
      var id :| id in ids && id in names[j];
      var k :| 0 <= k < |ids| && ids[k] == id;
      assert Picks(names, ids, j, k);
    }
    forall id | id in ids
      ensures exists j, k :: Picks(names, ids, j, k) && ids[k] == id
    {
      var k :| 0 <= k < |ids| && ids[k] == id;
      assert Found(names, id);
      var j :| 0 <= j < |names| && id in names[j];
      assert Picks(names, ids, j, k);
    }
    forall j, k, l, m | Picks(names, ids, j, k) && Picks(names, ids, l, m)
      ensures j == l <==> k == m
    {
      assert AtMostOneId(names[j], ids) && AtMostOneSource(names, ids[k]);
    }
  }

  // And as many sources are matched as there are ids.
  lemma MatchedOnePerId(sources: seq<Source>, ids: seq<string>)
    requires Resolves(Names(sources), ids)
    ensures |Matched(sources, ids)| == |ids|
  {
    CountMatched(sources, ids);
    assert FoundIn(Names(sources), ids) == set id | id in ids;
    DistinctCount(ids);
  }

  // The chosen ids that the sources have as names.
  function FoundIn(names: seq<seq<string>>, ids: seq<string>): set<string> {
    set id | id in ids && Found(names, id)
  }

  // Matching sources use up one id each.
  lemma {:induction false} CountMatched(sources: seq<Source>, ids: seq<string>)
    requires Unambiguous(Names(sources), ids)
    ensures |Matched(sources, ids)| == |FoundIn(Names(sources), ids)|
  {
    if sources != [] {
      var n := |sources| - 1;
      var names := Names(sources);
      NamesOfPrefix(sources, n);
      UnambiguousPrefix(names, ids, n);
      CountMatched(sources[..n], ids);
      Snoc(names, n);
      Whole(names);
      OneMoreFound(names[..n], names[n], ids);
    }
  }

  lemma NamesOfPrefix(sources: seq<Source>, n: nat)
    requires n <= |sources|
    ensures Names(sources[..n]) == Names(sources)[..n]
  {
  }

  lemma OneMoreFound(front: seq<seq<string>>, last: seq<string>, ids: seq<string>)
    requires Unambiguous(front + [last], ids)
    ensures |FoundIn(front + [last], ids)| == |FoundIn(front, ids)| + if Chosen(last, ids) then 1 else 0
  {
    var all := front + [last];
    assert all[|front|] == last;
    assert AtMostOneId(last, ids);
    forall id | id in ids
      ensures Found(all, id) <==> Found(front, id) || id in last
      ensures !(Found(front, id) && id in last)
    {
      FoundSplits(front, last, id);
      assert AtMostOneSource(all, id);
      assert forall j :: 0 <= j < |front| ==> all[j] == front[j];
    }
    FoundGrows(front, last, ids, FoundIn(all, ids));
  }

  lemma FoundGrows(front: seq<seq<string>>, last: seq<string>, ids: seq<string>, found: set<string>)
    requires AtMostOneId(last, ids)
    requires forall id :: id in ids && id in last ==> !Found(front, id)
    requires forall id :: id in found <==> id in ids && (Found(front, id) || id in last)
    ensures |found| == |FoundIn(front, ids)| + if Chosen(last, ids) then 1 else 0
  {
    if id :| id in ids && id in last {
      assert found == FoundIn(front, ids) + {id};
    } else {
      assert found == FoundIn(front, ids);
    }
  }

  lemma FoundSplits(front: seq<seq<string>>, last: seq<string>, id: string)
    ensures Found(front + [last], id) <==> Found(front, id) || id in last
  {
    var all := front + [last];
    assert all[|front|] == last;
    assert forall j :: 0 <= j < |front| ==> all[j] == front[j];
  }

  lemma UnambiguousPrefix(names: seq<seq<string>>, ids: seq<string>, n: nat)
    requires n <= |names| && Unambiguous(names, ids)
    ensures Unambiguous(names[..n], ids)
  {
    forall id | id in ids
      ensures AtMostOneSource(names[..n], id)
    {
      assert AtMostOneSource(names, id);
    }
  }

  lemma {:induction false} DistinctCount(ids: seq<string>)
    requires Distinct(ids)
    ensures |set id | id in ids| == |ids|
  {
    if ids != [] {
      var n := |ids| - 1;
      DistinctCount(ids[..n]);
      assert ids == ids[..n] + [ids[n]];
      assert (set id | id in ids) == (set id | id in ids[..n]) + {ids[n]};
    }
  }

  // ---- Filtering -----------------------------------------------------------------------------

  // `selected` maps each id to the last place it has in `ids`.
  predicate Indexes(selected: map<string, nat>, ids: seq<string>) {
    && (forall k :: 0 <= k < |ids| ==> ids[k] in selected && k <= selected[ids[k]])
    && (forall id :: id in selected ==> selected[id] < |ids| && ids[selected[id]] == id)
  }

  // `found` marks the ids, at their last place, that the sources so far have as names.
  predicate Marks(found: seq<bool>, selected: map<string, nat>, names: seq<seq<string>>, ids: seq<string>) {
    && |found| == |ids|
    && forall k :: 0 <= k < |ids| ==>
         (found[k] <==> ids[k] in selected && selected[ids[k]] == k && Found(names, ids[k]))
  }

  method SelectedIndexes(ids: seq<string>) returns (selected: map<string, nat>)
    ensures Indexes(selected, ids)
  {
    selected := map[];
    for i := 0 to |ids|
      invariant forall k :: 0 <= k < i ==> ids[k] in selected && k <= selected[ids[k]]
      invariant forall id :: id in selected ==> selected[id] < i && ids[selected[id]] == id
    {
      selected := selected[ids[i] := i];
    }
  }

  // The place of the one chosen id that identifies a source, if there is one.
  method MatchSource(candidates: seq<string>, selected: map<string, nat>, found: seq<bool>)
    returns (r: Result<Option<nat>, SelectionError>)
    requires Distinct(candidates)
    requires forall id :: id in selected ==> selected[id] < |found|
    ensures r.Err? ==> r.error == ResolvesTwice
                       && exists c :: c in candidates && c in selected
                            && (found[selected[c]] || exists d :: d in candidates && d in selected && d != c)
    ensures r.Ok? ==> IsMatch(r.value, candidates, selected, found)
  {
    var matched := None;
    ghost var chosen := "";
    for i := 0 to |candidates|
      invariant matched.None? ==> forall c :: c in candidates[..i] ==> c !in selected
      invariant matched.Some? ==>
                  && chosen in candidates[..i] && chosen in selected && selected[chosen] == matched.value
                  && !found[matched.value]
                  && forall d :: d in candidates[..i] && d in selected ==> d == chosen
    {
      var candidate := candidates[i];
      assert candidates[..i + 1] == candidates[..i] + [candidate];
      if candidate !in selected {
        continue;
      }
      var index := selected[candidate];
      if found[index] || matched.Some? {
        assert matched.Some? ==> chosen != candidate;
        return Err(ResolvesTwice);
      }
      matched, chosen := Some(index), candidate;
    }
    assert candidates[..|candidates|] == candidates;
    r := Ok(matched);
  }

  // A source that cannot be matched makes the selection ambiguous.
  lemma MatchIsClash(names: seq<seq<string>>, ids: seq<string>, n: nat, c: string, d: string)
    requires n < |names| && c in names[n] && c in ids
    requires Found(names[..n], c) || (d in names[n] && d in ids && d != c)
    ensures !Unambiguous(names, ids)
  {
    if Found(names[..n], c) {
      var j :| 0 <= j < n && c in names[..n][j];
      assert c in names[j] && !AtMostOneSource(names, c);
    } else {
      assert !AtMostOneId(names[n], ids);
    }
  }

  lemma UnambiguousStep(front: seq<seq<string>>, last: seq<string>, ids: seq<string>)
    requires Unambiguous(front, ids) && AtMostOneId(last, ids)
    requires forall id :: id in ids && id in last ==> !Found(front, id)
    ensures Unambiguous(front + [last], ids)
  {
    var all := front + [last];
    forall id | id in ids
      ensures AtMostOneSource(all, id)
    {
      assert AtMostOneSource(front, id);
      assert forall j :: 0 <= j < |front| ==> all[j] == front[j];
      assert forall j :: 0 <= j < |front| && id in front[j] ==> Found(front, id);
    }
  }

  // What a match of the next source, with the names `last`, found out.
  predicate IsMatch(m: Option<nat>, last: seq<string>, selected: map<string, nat>, found: seq<bool>) {
    if m.None? then forall c :: c in last ==> c !in selected
    else
      && m.value < |found| && !found[m.value]
      && exists c :: c in last && c in selected && selected[c] == m.value && forall d :: d in last && d in selected ==> d == c
  }

  // It extends what is known of the sources before it.
  lemma MatchMarks(front: seq<seq<string>>, last: seq<string>, ids: seq<string>, selected: map<string, nat>, found: seq<bool>, m: Option<nat>)
    requires Indexes(selected, ids) && Marks(found, selected, front, ids) && Unambiguous(front, ids)
    requires IsMatch(m, last, selected, found)
    ensures Unambiguous(front + [last], ids)
    ensures Chosen(last, ids) <==> m.Some?
    ensures Marks(if m.Some? then found[m.value := true] else found, selected, front + [last], ids)
  {
    assert forall id :: id in ids ==> id in selected;
    forall id | id in ids
      ensures Found(front + [last], id) <==> Found(front, id) || id in last
    {
      FoundSplits(front, last, id);
    }
    if m.Some? {
      assert ids[m.value] in last && !Found(front, ids[m.value]);
      assert forall id :: id in ids && id in last ==> id == ids[m.value];
    }
    UnambiguousStep(front, last, ids);
  }

  lemma NotAllFound(names: seq<seq<string>>, ids: seq<string>, selected: map<string, nat>, found: seq<bool>, k: nat)
    requires Indexes(selected, ids) && Marks(found, selected, names, ids) && k < |ids| && !found[k]
    ensures !Resolves(names, ids)
  {
    if Distinct(ids) {
      assert ids[selected[ids[k]]] == ids[k];
    }
  }

  lemma AllFoundResolves(names: seq<seq<string>>, ids: seq<string>, selected: map<string, nat>, found: seq<bool>)
    requires Indexes(selected, ids) && Marks(found, selected, names, ids) && Unambiguous(names, ids)
    requires forall k :: 0 <= k < |found| ==> found[k]
    ensures Resolves(names, ids)
  {
    forall i, j | 0 <= i < j < |ids|
      ensures ids[i] != ids[j]
    {
      assert found[i] && found[j];
    }
  }

  method FilterDockerRestoreRequest(sources: seq<Source>, ids: seq<string>) returns (r: Result<seq<Source>, SelectionError>)
    ensures r.Ok? <==> sources != [] && 0 < |ids| <= 50 && Resolves(Names(sources), ids)
    ensures r.Ok? ==> r.value == Matched(sources, ids)
    ensures r.Err? ==> r.error == (if sources == [] then NoSources
                                   else if ids == [] then SelectionRequired
                                   else if |ids| > 50 then SelectionExceedsLimit
                                   else if !Unambiguous(Names(sources), ids) then ResolvesTwice
                                   else SourceNotFound)
  {
    if |sources| == 0 {
      return Err(NoSources);
    }
    if |ids| == 0 {
      return Err(SelectionRequired);
    }
    if |ids| > MAX_SOURCES {
      return Err(SelectionExceedsLimit);
    }
    r := ResolveSources(sources, ids, Names(sources));
  }

  method ResolveSources(sources: seq<Source>, ids: seq<string>, ghost names: seq<seq<string>>)
    returns (r: Result<seq<Source>, SelectionError>)
    requires names == Names(sources)
    ensures r.Ok? <==> Resolves(names, ids)
    ensures r.Ok? ==> r.value == Matched(sources, ids)
    ensures r.Err? ==> r.error == if Unambiguous(names, ids) then SourceNotFound else ResolvesTwice
  {
    var selected := SelectedIndexes(ids);
    var found := seq(|ids|, _ => false);
    var filtered := [];
    for n := 0 to |sources|
      invariant Marks(found, selected, names[..n], ids)
      invariant Unambiguous(names[..n], ids)
      invariant filtered == Matched(sources[..n], ids)
    {
      var index := ResolveNext(sources[n], ids, selected, found, names, n);
      if index.Err? {
        return Err(ResolvesTwice);
      }
      Snoc(sources, n);
      if index.value.Some? {
        filtered := filtered + [sources[n]];
        found := found[index.value.value := true];
      }
    }
    Whole(names);
    Whole(sources);
    var missing := FirstMissing(found);
    if missing.Some? {
      NotAllFound(names, ids, selected, found, missing.value);
      return Err(SourceNotFound);
    }
    AllFoundResolves(names, ids, selected, found);
    r := Ok(filtered);
  }

  // One turn of the loop over the sources: the place of the id to mark, if the source is chosen.
  method ResolveNext(source: Source, ids: seq<string>, selected: map<string, nat>, found: seq<bool>,
                     ghost names: seq<seq<string>>, ghost n: nat)
    returns (r: Result<Option<nat>, SelectionError>)
    requires n < |names| && names[n] == Identifiers(source)
    requires Indexes(selected, ids) && Marks(found, selected, names[..n], ids) && Unambiguous(names[..n], ids)
    ensures r.Err? ==> !Unambiguous(names, ids)
    ensures r.Ok? ==> Unambiguous(names[..n + 1], ids) && (Chosen(names[n], ids) <==> r.value.Some?)
    ensures r.Ok? && r.value.Some? ==> r.value.value < |found|
    ensures r.Ok? ==> Marks(if r.value.Some? then found[r.value.value := true] else found, selected, names[..n + 1], ids)
  {
    var candidates := DockerSourceIdentifiers(source);
    UniqueIs(Trimmed(RawIdentifiers(source)));
    r := MatchSource(candidates, selected, found);
    if r.Err? {
      ghost var c :| c in candidates && c in selected
        && (found[selected[c]] || exists d :: d in candidates && d in selected && d != c);
      Clash(names, ids, n, selected, found, c);
    } else {
      MatchMarks(names[..n], names[n], ids, selected, found, r.value);
      Snoc(names, n);
    }
  }

  method FirstMissing(found: seq<bool>) returns (r: Option<nat>)
    ensures r.None? ==> forall k :: 0 <= k < |found| ==> found[k]
    ensures r.Some? ==> r.value < |found| && !found[r.value]
  {
    for k := 0 to |found|
      invariant forall i :: 0 <= i < k ==> found[i]
    {
      if !found[k] {
        return Some(k);
      }
    }
    r := None;
  }

  lemma Snoc<T>(s: seq<T>, n: nat)
    requires n < |s|
    ensures s[..n + 1] == s[..n] + [s[n]] && s[..n + 1][..n] == s[..n]
  {
  }

  lemma Whole<T>(s: seq<T>)
    ensures s[..|s|] == s
  {
  }

  lemma Clash(names: seq<seq<string>>, ids: seq<string>, n: nat, selected: map<string, nat>, found: seq<bool>, c: string)
    requires n < |names| && Indexes(selected, ids) && Marks(found, selected, names[..n], ids)
    requires c in names[n] && c in selected
    requires found[selected[c]] || exists d :: d in names[n] && d in selected && d != c
    ensures !Unambiguous(names, ids)
  {
    assert ids[selected[c]] == c;
    if found[selected[c]] {
      MatchIsClash(names, ids, n, c, c);
    } else {
      var d :| d in names[n] && d in selected && d != c;
      assert ids[selected[d]] == d;
      MatchIsClash(names, ids, n, c, d);
    }
  }
}
