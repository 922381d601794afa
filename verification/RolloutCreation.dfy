/** Which rollouts are created, and the rows they begin with. */
module RolloutCreation {
  import opened RolloutModel
  import opened RolloutAnswers
  import Text
  import opened Wrappers

  // Named by one of the ids, or tagged with all the tags there are.
  predicate Wanted(a: AgentRow, input: CreateInput) {
    || (a.id != "" && exists k :: 0 <= k < |input.targetIds| && Text.Trim(input.targetIds[k]) == a.id)
    || (input.targetTags != {} && forall tag :: tag in input.targetTags ==> tag in a.tags)
  }

  predicate AnyWanted(agents: seq<AgentRow>, input: CreateInput) { exists j :: 0 <= j < |agents| && Wanted(agents[j], input) }

  predicate Occupies(s: seq<Rollout>, r: nat, i: nat, agentId: string) {
    && r < |s| && i < |s[r].items| && s[r].items[i].agentId == agentId
    && Alive(s[r].status) && (s[r].items[i].status == Pending || s[r].items[i].status == Running)
  }

  ghost predicate Busy(s: seq<Rollout>, agentId: string) { exists r: nat, i: nat :: Occupies(s, r, i, agentId) }

  ghost predicate AnyBusy(s: seq<Rollout>, agents: seq<AgentRow>, input: CreateInput) {
    exists j :: 0 <= j < |agents| && Wanted(agents[j], input) && Busy(s, agents[j].id)
  }

  function CanarySize(input: CreateInput): nat { if input.canaryCount <= 0 then 1 else input.canaryCount }

  function BatchSize(input: CreateInput): nat { if input.batchSize <= 0 then 5 else input.batchSize }

  predicate Names(input: CreateInput) {
    input.targetTags != {} || exists k :: 0 <= k < |input.targetIds| && Text.Trim(input.targetIds[k]) != ""
  }

  // Why a rollout is not created.
  ghost function Objection(s: seq<Rollout>, input: CreateInput, agents: seq<AgentRow>): Option<CreateError> {
    if Text.Trim(input.targetVersion) == "" then Some(TargetVersionRequired)
    else if !Names(input) then Some(NoTargets)
    else if CanarySize(input) > 10 then Some(CanaryCountTooLarge)
    else if BatchSize(input) > 50 then Some(BatchSizeTooLarge)
    else if !AnyWanted(agents, input) then Some(NoMatchedTargets)
    else if AnyBusy(s, agents, input) then Some(DuplicateActiveTarget)
    else None
  }

  // The item of an agent that is to be upgraded to `target`.
  predicate Rowed(a: AgentRow, it: Item, target: string) {
    && it == Item(a.id, it.phase, it.batchIndex, it.status, a.version, target, a.arch, it.lastSeenVersion, None, None)
    && it.status == (if a.status != "online" || a.version == "" || a.arch == "" then Skipped
                     else if a.version == target then Success else Pending)
    && it.lastSeenVersion == (if it.status == Success then a.version else "")
    && (it.status != Pending ==> it.phase == NoPhase && it.batchIndex == 0)
  }

  function PendingBefore(items: seq<Item>, i: nat): nat
    requires i <= |items|
  {
    if i == 0 then 0 else PendingBefore(items, i - 1) + if items[i - 1].status == Pending then 1 else 0
  }

  // The first of the items to be upgraded are canaries; the others follow in batches of one size.
  predicate Phased(items: seq<Item>, i: nat, canary: nat, batch: nat)
    requires i < |items| && batch > 0
  {
    items[i].status == Pending ==>
      var rank := PendingBefore(items, i);
      if rank < canary then items[i].phase == Canary && items[i].batchIndex == 0
      else items[i].phase == Batch && items[i].batchIndex == (rank - canary) / batch + 1
  }

  // Places in the table of agents: wanted ones, each id once, in order.
  predicate InPlace(agents: seq<AgentRow>, at: seq<nat>, input: CreateInput) {
    forall i :: 0 <= i < |at| ==> at[i] < |agents| && Wanted(agents[at[i]], input)
  }

  predicate Ascending(agents: seq<AgentRow>, at: seq<nat>)
    requires forall i :: 0 <= i < |at| ==> at[i] < |agents|
  {
    forall i, j :: 0 <= i < j < |at| ==> at[i] < at[j] && agents[at[i]].id != agents[at[j]].id
  }

  // Agent `j`, or one of its id before it, has a place.
  predicate Covered(agents: seq<AgentRow>, at: seq<nat>, j: nat) {
    j < |agents| && exists i :: 0 <= i < |at| && at[i] <= j && agents[at[i]].id == agents[j].id
  }

  predicate AllCovered(agents: seq<AgentRow>, at: seq<nat>, input: CreateInput) {
    forall j :: 0 <= j < |agents| && Wanted(agents[j], input) ==> Covered(agents, at, j)
  }

  // The new row: an item for each wanted agent, at its first place in the table; `at` gives the places.
  ghost predicate Made(ro: Rollout, at: seq<nat>, input: CreateInput, agents: seq<AgentRow>) {
    var target := Text.Trim(input.targetVersion);
    && ro == Rollout(target, CanarySize(input), BatchSize(input), RPending, ro.items) && |ro.items| == |at|
    && InPlace(agents, at, input) && Ascending(agents, at) && AllCovered(agents, at, input)
    && forall i :: 0 <= i < |at| ==>
         Rowed(agents[at[i]], ro.items[i], target) && Phased(ro.items, i, CanarySize(input), BatchSize(input))
  }

  lemma WantedIsSelected(a: AgentRow, input: CreateInput)
    ensures Wanted(a, input) <==> Selected(a, NormalizeIds(input.targetIds), input.targetTags)
  {
  }

  function Targets(agents: seq<AgentRow>, input: CreateInput): seq<AgentRow> {
    ResolveTargets(agents, NormalizeIds(input.targetIds), input.targetTags)
  }

  predicate TargetsAt(agents: seq<AgentRow>, at: seq<nat>, targets: seq<AgentRow>) {
    |at| == |targets| && forall i :: 0 <= i < |at| ==> at[i] < |agents| && targets[i] == agents[at[i]]
  }

  // The targets of a request, with their places.
  predicate Placed(agents: seq<AgentRow>, at: seq<nat>, targets: seq<AgentRow>, input: CreateInput) {
    TargetsAt(agents, at, targets) && InPlace(agents, at, input) && Ascending(agents, at) && AllCovered(agents, at, input)
  }

  lemma TargetsMore(agents: seq<AgentRow>, input: CreateInput)
    requires agents != []
    ensures var n := |agents| - 1;
            var before := Targets(agents[..n], input);
            Targets(agents, input) == if Wanted(agents[n], input) && agents[n].id !in Ids(before) then before + [agents[n]] else before
  {
    WantedIsSelected(agents[|agents| - 1], input);
  }

  lemma {:induction false} ResolvedAt(agents: seq<AgentRow>, input: CreateInput) returns (at: seq<nat>)
    ensures Placed(agents, at, Targets(agents, input), input)
  {
    if agents == [] {
      at := [];
    } else {
      var n := |agents| - 1;
      at := ResolvedAt(agents[..n], input);
      TargetsMore(agents, input);
      var before := Targets(agents[..n], input);
      if Wanted(agents[n], input) && agents[n].id !in Ids(before) {
        OneMorePlace(agents, at, before, input);
        at := at + [n];
      } else {
        SamePlaces(agents, at, before, input);
      }
    }
  }

  lemma StillCovered(agents: seq<AgentRow>, at: seq<nat>, input: CreateInput, j: nat)
    requires j < |agents| - 1 && InPlace(agents[..|agents| - 1], at, input) && Covered(agents[..|agents| - 1], at, j)
    ensures Covered(agents, at, j)
  {
    var front := agents[..|agents| - 1];
    var i :| 0 <= i < |at| && at[i] <= j && front[at[i]].id == front[j].id;
    assert agents[at[i]].id == agents[j].id;
  }

  lemma SamePlaces(agents: seq<AgentRow>, at: seq<nat>, before: seq<AgentRow>, input: CreateInput)
    requires agents != [] && Placed(agents[..|agents| - 1], at, before, input)
    requires Wanted(agents[|agents| - 1], input) ==> agents[|agents| - 1].id in Ids(before)
    ensures Placed(agents, at, before, input)
  {
    var n := |agents| - 1;
    forall j | 0 <= j < n && Wanted(agents[j], input) ensures Covered(agents, at, j) {
      assert agents[..n][j] == agents[j];
      StillCovered(agents, at, input, j);
    }
    if Wanted(agents[n], input) {
      var i :| 0 <= i < |before| && before[i].id == agents[n].id;
      assert at[i] <= n && agents[at[i]].id == agents[n].id;
      assert Covered(agents, at, n);
    }
  }

  lemma OneMorePlace(agents: seq<AgentRow>, at: seq<nat>, before: seq<AgentRow>, input: CreateInput)
    requires agents != [] && Placed(agents[..|agents| - 1], at, before, input)
    requires Wanted(agents[|agents| - 1], input) && agents[|agents| - 1].id !in Ids(before)
    ensures Placed(agents, at + [|agents| - 1], before + [agents[|agents| - 1]], input)
  {
    var n := |agents| - 1;
    var more := at + [n];
    assert more[|at|] == n;
    forall i | 0 <= i < |at| ensures more[i] == at[i] < n && agents[at[i]] == before[i] && agents[at[i]].id != agents[n].id {
      assert before[i].id in Ids(before);
    }
    MoreCovered(agents, at, input);
  }

  lemma MoreCovered(agents: seq<AgentRow>, at: seq<nat>, input: CreateInput)
    requires agents != [] && InPlace(agents[..|agents| - 1], at, input) && AllCovered(agents[..|agents| - 1], at, input)
    ensures AllCovered(agents, at + [|agents| - 1], input)
  {
    var n := |agents| - 1;
    forall j | 0 <= j < |agents| && Wanted(agents[j], input) ensures Covered(agents, at + [n], j) {
      if j < n {
        assert agents[..n][j] == agents[j];
        StillCovered(agents, at, input, j);
      }
      CoveredByMore(agents, at, n, j);
    }
  }

  lemma CoveredByMore(agents: seq<AgentRow>, at: seq<nat>, n: nat, j: nat)
    requires n < |agents| && (Covered(agents, at, j) || j == n)
    ensures Covered(agents, at + [n], j)
  {
    var more := at + [n];
    assert more[|at|] == n;
    if Covered(agents, at, j) {
      var i :| 0 <= i < |at| && at[i] <= j && agents[at[i]].id == agents[j].id;
      assert more[i] == at[i];
    }
  }

  lemma {:induction false} PlanIs(targets: seq<AgentRow>, version: string, canary: nat, batch: nat, i: nat)
    requires i < |targets|
    ensures Plan(targets, version, canary, batch)[i]
         == PlanItem(targets[i], version, RunnableCount(targets[..i], version), canary, batch)
  {
    var n := |targets| - 1;
    if i < n {
      PlanIs(targets[..n], version, canary, batch, i);
      assert targets[..n][..i] == targets[..i];
    }
  }

  lemma {:induction false} PendingAre(targets: seq<AgentRow>, version: string, canary: nat, batch: nat, i: nat)
    requires i <= |targets|
    ensures PendingBefore(Plan(targets, version, canary, batch), i) == RunnableCount(targets[..i], version)
  {
    if i > 0 {
      PendingAre(targets, version, canary, batch, i - 1);
      PlanIs(targets, version, canary, batch, i - 1);
      assert targets[..i][..i - 1] == targets[..i - 1];
    }
  }

  lemma PlannedAre(targets: seq<AgentRow>, version: string, canary: nat, batch: nat)
    requires batch > 0
    ensures var items := Plan(targets, version, canary, batch);
            forall i :: 0 <= i < |targets| ==> Rowed(targets[i], items[i], version) && Phased(items, i, canary, batch)
  {
    var items := Plan(targets, version, canary, batch);
    forall i | 0 <= i < |targets| ensures Rowed(targets[i], items[i], version) && Phased(items, i, canary, batch) {
      PlanIs(targets, version, canary, batch, i);
      PendingAre(targets, version, canary, batch, i);
    }
  }

  lemma NormalizeIs(input: CreateInput)
    ensures var n := Normalize(input);
            if Text.Trim(input.targetVersion) == "" then n == Err(TargetVersionRequired)
            else if !Names(input) then n == Err(NoTargets)
            else if CanarySize(input) > 10 then n == Err(CanaryCountTooLarge)
            else if BatchSize(input) > 50 then n == Err(BatchSizeTooLarge)
            else n == Ok(NormalizedInput(Text.Trim(input.targetVersion), input.targetTags, NormalizeIds(input.targetIds),
                                         CanarySize(input), BatchSize(input)))
  {
    if k :| 0 <= k < |input.targetIds| && Text.Trim(input.targetIds[k]) != "" {
      assert Text.Trim(input.targetIds[k]) in NormalizeIds(input.targetIds);
    }
    if NormalizeIds(input.targetIds) != {} {
      var id :| id in NormalizeIds(input.targetIds);
      var k :| 0 <= k < |input.targetIds| && Text.Trim(input.targetIds[k]) == id;
    }
  }

  lemma ConflictIs(s: seq<Rollout>, agents: seq<AgentRow>, input: CreateInput, at: seq<nat>, targets: seq<AgentRow>)
    requires TargetsAt(agents, at, targets) && InPlace(agents, at, input) && AllCovered(agents, at, input)
    ensures targets != [] <==> AnyWanted(agents, input)
    ensures Conflict(s, targets) <==> AnyBusy(s, agents, input)
  {
    if targets != [] {
      assert Wanted(agents[at[0]], input);
    }
    if Conflict(s, targets) {
      var k :| 0 <= k < |targets| && HasActiveItem(s, targets[k].id);
      BusyIs(s, targets[k].id);
      assert Wanted(agents[at[k]], input);
    }
    if j :| 0 <= j < |agents| && Wanted(agents[j], input) {
      assert Covered(agents, at, j);
    }
    if j :| 0 <= j < |agents| && Wanted(agents[j], input) && Busy(s, agents[j].id) {
      assert Covered(agents, at, j);
      var i :| 0 <= i < |at| && at[i] <= j && agents[at[i]].id == agents[j].id;
      BusyIs(s, targets[i].id);
    }
  }

  lemma BusyIs(s: seq<Rollout>, agentId: string)
    ensures HasActiveItem(s, agentId) <==> Busy(s, agentId)
  {
    if HasActiveItem(s, agentId) {
      var r, i :| 0 <= r < |s| && 0 <= i < |s[r].items| && s[r].status.Active() && s[r].items[i].agentId == agentId
        && ActiveItem(s[r].items[i]);
      assert Occupies(s, r, i, agentId);
    }
    if r: nat, i: nat :| Occupies(s, r, i, agentId) {
      assert s[r].status.Active() && ActiveItem(s[r].items[i]);
    }
  }

  lemma CreateIs(s: seq<Rollout>, input: CreateInput, agents: seq<AgentRow>) returns (at: seq<nat>)
    ensures Objection(s, input, agents).Some? ==> Create(s, input, agents) == Err(Objection(s, input, agents).value)
    ensures Objection(s, input, agents).None? ==>
              Create(s, input, agents).Ok? && Made(Create(s, input, agents).value, at, input, agents)
  {
    NormalizeIs(input);
    at := ResolvedAt(agents, input);
    if Normalize(input).Ok? {
      CreateOrNot(s, input, agents, at);
    }
  }

  lemma CreateOrNot(s: seq<Rollout>, input: CreateInput, agents: seq<AgentRow>, at: seq<nat>)
    requires Normalize(input) == Ok(NormalizedInput(Text.Trim(input.targetVersion), input.targetTags,
                                                    NormalizeIds(input.targetIds), CanarySize(input), BatchSize(input)))
    requires Placed(agents, at, Targets(agents, input), input)
    ensures !AnyWanted(agents, input) ==> Create(s, input, agents) == Err(NoMatchedTargets)
    ensures AnyWanted(agents, input) && AnyBusy(s, agents, input) ==> Create(s, input, agents) == Err(DuplicateActiveTarget)
    ensures AnyWanted(agents, input) && !AnyBusy(s, agents, input) ==>
              Create(s, input, agents).Ok? && Made(Create(s, input, agents).value, at, input, agents)
  {
    CreateFrom(s, input, agents);
    ConflictIs(s, agents, input, at, Targets(agents, input));
    PlanIsMade(agents, at, input);
  }

  lemma CreateFrom(s: seq<Rollout>, input: CreateInput, agents: seq<AgentRow>)
    requires Normalize(input) == Ok(NormalizedInput(Text.Trim(input.targetVersion), input.targetTags,
                                                    NormalizeIds(input.targetIds), CanarySize(input), BatchSize(input)))
    ensures var targets, target := Targets(agents, input), Text.Trim(input.targetVersion);
            Create(s, input, agents) ==
            if targets == [] then Err(NoMatchedTargets)
            else if Conflict(s, targets) then Err(DuplicateActiveTarget)
            else Ok(Rollout(target, CanarySize(input), BatchSize(input), RPending,
                            Plan(targets, target, CanarySize(input), BatchSize(input))))
  {
  }

  lemma PlanIsMade(agents: seq<AgentRow>, at: seq<nat>, input: CreateInput)
    requires Placed(agents, at, Targets(agents, input), input)
    ensures var target := Text.Trim(input.targetVersion);
            Made(Rollout(target, CanarySize(input), BatchSize(input), RPending,
                         Plan(Targets(agents, input), target, CanarySize(input), BatchSize(input))), at, input, agents)
  {
    PlannedAre(Targets(agents, input), Text.Trim(input.targetVersion), CanarySize(input), BatchSize(input));
  }

  // A rollout is created unless there is an objection. It has one item for each wanted agent, in the
  // order of the table; nothing else changes.
  lemma CreateAnswer(run: seq<Event>, input: CreateInput, agents: seq<AgentRow>) returns (at: seq<nat>)
    ensures var s, t := Exec(run), Exec(run + [CreateEvent(input, agents)]);
            && (Objection(s, input, agents).Some? ==> t == s)
            && (Objection(s, input, agents).None? ==>
                  |t| == |s| + 1 && t[..|s|] == s && Made(t[|s|], at, input, agents))
  {
    ExecMore(run, CreateEvent(input, agents));
    at := CreateIs(Exec(run), input, agents);
  }
}
