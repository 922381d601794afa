/**
 Rows and row updates of the upgrade-rollout service.

 The item rows of one rollout are kept in insertion order inside that rollout's row, which is
 what a query on `rollout_id` ordered by `created_at` reads back. Every public call is one
 atomic step; what the hub answers for each agent during that step is the parameter `Env`.
 */
module RolloutModel {
  import opened Text
  import opened Wrappers

  const DEFAULT_CANARY_COUNT := 1
  const DEFAULT_BATCH_SIZE := 5
  const MAX_CANARY_COUNT := 10
  const MAX_BATCH_SIZE := 50

  datatype RolloutStatus = RPending | RRunning | RSucceeded | RFailed | RCancelled {
    predicate Active() { RPending? || RRunning? }
  }

  datatype ItemStatus = Pending | Running | Success | Failed | Skipped {
    predicate Terminal() { Success? || Failed? || Skipped? }
  }

  datatype Phase = NoPhase | Canary | Batch

  datatype Item = Item(
    agentId: string,
    phase: Phase,
    batchIndex: nat,
    status: ItemStatus,
    currentVersion: string,
    targetVersion: string,
    architecture: string,
    lastSeenVersion: string,
    startedAt: Option<nat>,
    deadlineAt: Option<nat>)
  {
    // `message_id`, `started_at` and `deadline_at` are written by the same update, just before
    // the update request goes out.
    predicate Told() { startedAt.Some? }

    predicate InWave(w: nat) { phase != NoPhase && Wave() == w }

    function Wave(): nat { if phase == Batch then batchIndex else 0 }
  }

  datatype Rollout = Rollout(
    targetVersion: string,
    canaryCount: int,
    batchSize: int,
    status: RolloutStatus,
    items: seq<Item>)

  datatype AgentRow = AgentRow(id: string, status: string, version: string, arch: string, tags: set<string>)

  // What the hub does with the update request for one agent. An agent that is missing from
  // `Env.hub` is offline.
  datatype HubOutcome =
    | Offline
    | EncodeError
    | SendError
    | AckTimeout
    | BadAck
    | Rejected
    | ContextDone
    | Accepted

  datatype Env = Env(now: nat, itemTimeout: nat, hub: map<string, HubOutcome>) {
    function Outcome(agentId: string): HubOutcome {
      if agentId in hub then hub[agentId] else Offline
    }
  }

  function PositiveOrDefault(value: int, fallback: nat): (r: nat)
    ensures fallback > 0 ==> r > 0
  {
    if value > 0 then value else fallback
  }

  // ---- Selections ----------------------------------------------------------------------------

  // The positions of the rows that satisfy a query's condition, in insertion order.
  function Matching(items: seq<Item>, p: Item -> bool): (r: seq<nat>)
    ensures forall k :: 0 <= k < |r| ==> r[k] < |items| && p(items[r[k]])
    ensures forall j, k :: 0 <= j < k < |r| ==> r[j] < r[k]
    ensures forall i :: 0 <= i < |items| && p(items[i]) ==> i in r
  {
    if items == [] then []
    else
      var n := |items| - 1;
      var before := Matching(items[..n], p);
      if p(items[n]) then before + [n] else before
  }

  predicate IsFailed(it: Item) { it.status.Failed? }

  predicate IsRunning(it: Item) { it.status.Running? }

  predicate IsPending(it: Item) { it.status.Pending? }

  predicate IsPendingCanary(it: Item) { it.status.Pending? && it.phase.Canary? }

  predicate IsUnsuccessfulCanary(it: Item) { it.phase.Canary? && !it.status.Success? && !it.status.Skipped? }

  predicate IsPendingBatch(it: Item) { it.status.Pending? && it.phase.Batch? }

  predicate IsPendingInBatch(it: Item, b: nat) { IsPendingBatch(it) && it.batchIndex == b }

  predicate IsExpired(it: Item, now: nat) {
    it.status.Running? && it.deadlineAt.Some? && it.deadlineAt.value <= now
  }

  predicate AnyItem(items: seq<Item>, p: Item -> bool) {
    exists i :: 0 <= i < |items| && p(items[i])
  }

  // The smallest batch index among the selected rows.
  function LowestBatch(items: seq<Item>, sel: seq<nat>): (b: nat)
    requires sel != [] && forall k :: 0 <= k < |sel| ==> sel[k] < |items|
    ensures exists k :: 0 <= k < |sel| && items[sel[k]].batchIndex == b
    ensures forall k :: 0 <= k < |sel| ==> b <= items[sel[k]].batchIndex
  {
    var head := items[sel[0]].batchIndex;
    if |sel| == 1 then head
    else
      var rest := LowestBatch(items, sel[1..]);
      if head <= rest then head else rest
  }

  function Take(s: seq<nat>, limit: nat): (r: seq<nat>)
    ensures r <= s
  {
    if |s| <= limit then s else s[..limit]
  }

  // The pending rows of the lowest batch, no more than a batch has.
  function NextBatch(ro: Rollout, pending: seq<nat>): (sel: seq<nat>)
    requires pending != [] && forall k :: 0 <= k < |pending| ==> pending[k] < |ro.items|
    ensures forall k :: 0 <= k < |sel| ==> sel[k] < |ro.items| && ro.items[sel[k]].status.Pending?
    ensures forall j, k :: 0 <= j < k < |sel| ==> sel[j] < sel[k]
  {
    var b := LowestBatch(ro.items, pending);
    Take(Matching(ro.items, (it: Item) => IsPendingInBatch(it, b)), PositiveOrDefault(ro.batchSize, DEFAULT_BATCH_SIZE))
  }

  // The positions `nextItems` returns.
  function NextItems(ro: Rollout): (sel: seq<nat>)
    ensures forall k :: 0 <= k < |sel| ==> sel[k] < |ro.items| && ro.items[sel[k]].status.Pending?
    ensures forall j, k :: 0 <= j < k < |sel| ==> sel[j] < sel[k]
  {
    var canaries := Matching(ro.items, IsPendingCanary);
    if canaries != [] then canaries
    else if AnyItem(ro.items, IsUnsuccessfulCanary) then []
    else
      var pending := Matching(ro.items, IsPendingBatch);
      if pending == [] then [] else NextBatch(ro, pending)
  }

  // ---- Row updates ---------------------------------------------------------------------------

  function SetStatus(status: RolloutStatus, to: RolloutStatus): RolloutStatus {
    if status.Active() then to else status
  }

  function SkipWhere(items: seq<Item>, running: bool): (r: seq<Item>)
    ensures |r| == |items|
    ensures forall i :: 0 <= i < |items| ==>
              r[i] == if items[i].status.Pending? || (running && items[i].status.Running?)
                      then items[i].(status := Skipped) else items[i]
  {
    seq(|items|, i requires 0 <= i < |items| =>
      if items[i].status.Pending? || (running && items[i].status.Running?)
      then items[i].(status := Skipped) else items[i])
  }

  function FailRollout(ro: Rollout): Rollout {
    ro.(status := SetStatus(ro.status, RFailed), items := SkipWhere(ro.items, false))
  }

  function FailItem(ro: Rollout, i: nat): Rollout
    requires i < |ro.items|
  {
    FailRollout(ro.(items := ro.items[i := ro.items[i].(status := Failed)]))
  }

  function FailAll(ro: Rollout, sel: seq<nat>): (r: Rollout)
    requires forall k :: 0 <= k < |sel| ==> sel[k] < |ro.items|
    ensures |r.items| == |ro.items|
    decreases |sel|
  {
    if sel == [] then ro else FailAll(FailItem(ro, sel[0]), sel[1..])
  }

  function Expire(ro: Rollout, now: nat): (r: Rollout)
    ensures |r.items| == |ro.items|
  {
    FailAll(ro, Matching(ro.items, (it: Item) => IsExpired(it, now)))
  }

  function MarkStarted(it: Item, env: Env): Item {
    it.(status := Running, startedAt := Some(env.now), deadlineAt := Some(env.now + env.itemTimeout))
  }

  // The flag tells whether the call returned early because its context was done.
  function StartItem(ro: Rollout, i: nat, env: Env): (r: (Rollout, bool))
    requires i < |ro.items|
    ensures |r.0.items| == |ro.items|
  {
    var outcome := env.Outcome(ro.items[i].agentId);
    if outcome.Offline? || outcome.EncodeError? then (FailItem(ro, i), false)
    else
      var started := ro.(items := ro.items[i := MarkStarted(ro.items[i], env)]);
      if outcome.Accepted? || outcome.ContextDone? then (started, outcome.ContextDone?)
      else (FailItem(started, i), false)
  }

  function StartAll(ro: Rollout, sel: seq<nat>, env: Env): (r: (Rollout, bool))
    requires forall k :: 0 <= k < |sel| ==> sel[k] < |ro.items|
    ensures |r.0.items| == |ro.items|
    decreases |sel|
  {
    if sel == [] then (ro, false)
    else
      var (first, stop) := StartItem(ro, sel[0], env);
      if stop then (first, true) else StartAll(first, sel[1..], env)
  }

  function Complete(ro: Rollout): Rollout {
    ro.(status := SetStatus(ro.status, if AnyItem(ro.items, IsFailed) then RFailed else RSucceeded))
  }

  function Advance(ro0: Rollout, env: Env): (r: (Rollout, bool))
    ensures |r.0.items| == |ro0.items|
  {
    var ro := Expire(ro0, env.now);
    if !ro.status.Active() then (ro, false)
    else if AnyItem(ro.items, IsFailed) then (FailRollout(ro), false)
    else
      var running := ro.(status := RRunning);
      if AnyItem(ro.items, IsRunning) then (running, false)
      else if !AnyItem(ro.items, IsPending) then (Complete(ro), false)
      else StartAll(running, NextItems(ro), env)
  }

  function Cancel(ro: Rollout): Rollout {
    ro.(status := SetStatus(ro.status, RCancelled), items := SkipWhere(ro.items, true))
  }

  // ---- Heartbeats ----------------------------------------------------------------------------

  // The running items of an agent, over all rollouts, as (rollout, item) positions.
  function RunningItems(rollouts: seq<Rollout>, agentId: string): (r: seq<(nat, nat)>)
    ensures forall k :: 0 <= k < |r| ==> r[k].0 < |rollouts| && r[k].1 < |rollouts[r[k].0].items|
  {
    if rollouts == [] then []
    else
      var n := |rollouts| - 1;
      var sel := Matching(rollouts[n].items, (it: Item) => it.agentId == agentId && it.status.Running?);
      RunningItems(rollouts[..n], agentId) + seq(|sel|, k requires 0 <= k < |sel| => (n, sel[k]))
  }

  function SeeVersion(it: Item, version: string): Item {
    if version == it.targetVersion then it.(lastSeenVersion := version, status := Success)
    else it.(lastSeenVersion := version)
  }

  function HeartbeatItem(rollouts: seq<Rollout>, at: (nat, nat), version: string, env: Env): (r: (seq<Rollout>, bool))
    requires at.0 < |rollouts| && at.1 < |rollouts[at.0].items|
    ensures |r.0| == |rollouts|
    ensures forall k :: 0 <= k < |rollouts| ==> |r.0[k].items| == |rollouts[k].items|
  {
    var ro := rollouts[at.0];
    var seen := ro.(items := ro.items[at.1 := SeeVersion(ro.items[at.1], version)]);
    if version == ro.items[at.1].targetVersion then
      var (next, stop) := Advance(seen, env);
      (rollouts[at.0 := next], stop)
    else (rollouts[at.0 := seen], false)
  }

  function HeartbeatAll(rollouts: seq<Rollout>, at: seq<(nat, nat)>, version: string, env: Env): (r: seq<Rollout>)
    requires forall k :: 0 <= k < |at| ==> at[k].0 < |rollouts| && at[k].1 < |rollouts[at[k].0].items|
    ensures |r| == |rollouts|
    decreases |at|
  {
    if at == [] then rollouts
    else
      var (next, stop) := HeartbeatItem(rollouts, at[0], version, env);
      if stop then next else HeartbeatAll(next, at[1..], version, env)
  }

  function Heartbeat(rollouts: seq<Rollout>, agentId: string, version: string, env: Env): (r: seq<Rollout>)
    ensures |r| == |rollouts|
  {
    if agentId == "" || Blank(version) then rollouts
    else HeartbeatAll(rollouts, RunningItems(rollouts, agentId), version, env)
  }

  // ---- Creation ------------------------------------------------------------------------------

  // Tags arrive in their normal form: lower case, trimmed, without duplicates.
  datatype CreateInput = CreateInput(
    targetVersion: string,
    targetTags: set<string>,
    targetIds: seq<string>,
    canaryCount: int,
    batchSize: int)

  datatype NormalizedInput = NormalizedInput(
    targetVersion: string,
    targetTags: set<string>,
    targetIds: set<string>,
    canaryCount: int,
    batchSize: int)

  datatype CreateError =
    | TargetVersionRequired
    | NoTargets
    | CanaryCountTooLarge
    | BatchSizeTooLarge
    | NoMatchedTargets
    | DuplicateActiveTarget

  function NormalizeIds(ids: seq<string>): set<string> {
    (set i | 0 <= i < |ids| :: Trim(ids[i])) - {""}
  }

  function Normalize(input0: CreateInput): (r: Result<NormalizedInput, CreateError>)
    ensures r.Ok? ==> 1 <= r.value.canaryCount <= MAX_CANARY_COUNT && 1 <= r.value.batchSize <= MAX_BATCH_SIZE
  {
    var input := NormalizedInput(Trim(input0.targetVersion), input0.targetTags, NormalizeIds(input0.targetIds),
                                 input0.canaryCount, input0.batchSize);
    if input.targetVersion == "" then Err(TargetVersionRequired)
    else if input.targetIds == {} && input.targetTags == {} then Err(NoTargets)
    else
      var canary := if input.canaryCount <= 0 then DEFAULT_CANARY_COUNT else input.canaryCount;
      var batch := if input.batchSize <= 0 then DEFAULT_BATCH_SIZE else input.batchSize;
      if canary > MAX_CANARY_COUNT then Err(CanaryCountTooLarge)
      else if batch > MAX_BATCH_SIZE then Err(BatchSizeTooLarge)
      else Ok(input.(canaryCount := canary, batchSize := batch))
  }

  predicate Selected(agent: AgentRow, ids: set<string>, tags: set<string>) {
    agent.id in ids || (tags != {} && tags <= agent.tags)
  }

  function Ids(agents: seq<AgentRow>): set<string> {
    set i | 0 <= i < |agents| :: agents[i].id
  }

  // The selected agents in table order, each once.
  function ResolveTargets(agents: seq<AgentRow>, ids: set<string>, tags: set<string>): (r: seq<AgentRow>)
    ensures forall j, k :: 0 <= j < k < |r| ==> r[j].id != r[k].id
  {
    if agents == [] then []
    else
      var n := |agents| - 1;
      var before := ResolveTargets(agents[..n], ids, tags);
      if Selected(agents[n], ids, tags) && agents[n].id !in Ids(before) then before + [agents[n]] else before
  }

  predicate ActiveItem(it: Item) { it.status.Pending? || it.status.Running? }

  predicate HasActiveItem(rollouts: seq<Rollout>, agentId: string) {
    exists r, i :: 0 <= r < |rollouts| && 0 <= i < |rollouts[r].items|
      && rollouts[r].status.Active() && rollouts[r].items[i].agentId == agentId && ActiveItem(rollouts[r].items[i])
  }

  predicate Conflict(rollouts: seq<Rollout>, agents: seq<AgentRow>) {
    exists k :: 0 <= k < |agents| && HasActiveItem(rollouts, agents[k].id)
  }

  // ---- Planning ------------------------------------------------------------------------------

  predicate Runnable(agent: AgentRow, targetVersion: string) {
    agent.status == "online" && agent.version != "" && agent.arch != "" && agent.version != targetVersion
  }

  function RunnableCount(agents: seq<AgentRow>, targetVersion: string): nat {
    if agents == [] then 0
    else
      var n := |agents| - 1;
      RunnableCount(agents[..n], targetVersion) + (if Runnable(agents[n], targetVersion) then 1 else 0)
  }

  function BatchOf(rank: nat, canaryCount: nat, batchSize: int): nat
    requires canaryCount <= rank
  {
    (rank - canaryCount) / PositiveOrDefault(batchSize, DEFAULT_BATCH_SIZE) + 1
  }

  function PlanItem(agent: AgentRow, targetVersion: string, rank: nat, canaryCount: nat, batchSize: int): Item {
    var it := Item(agent.id, NoPhase, 0, Pending, agent.version, targetVersion, agent.arch, "", None, None);
    if agent.status != "online" || agent.version == "" || agent.arch == "" then it.(status := Skipped)
    else if agent.version == targetVersion then it.(status := Success, lastSeenVersion := agent.version)
    else if rank < canaryCount then it.(phase := Canary)
    else it.(phase := Batch, batchIndex := BatchOf(rank, canaryCount, batchSize))
  }

  function Plan(agents: seq<AgentRow>, targetVersion: string, canaryCount: nat, batchSize: int): (items: seq<Item>)
    ensures |items| == |agents|
    ensures forall i :: 0 <= i < |agents| ==> items[i].agentId == agents[i].id
  {
    if agents == [] then []
    else
      var n := |agents| - 1;
      Plan(agents[..n], targetVersion, canaryCount, batchSize)
      + [PlanItem(agents[n], targetVersion, RunnableCount(agents[..n], targetVersion), canaryCount, batchSize)]
  }

  function Create(rollouts: seq<Rollout>, input0: CreateInput, agents: seq<AgentRow>): Result<Rollout, CreateError> {
    var normalized := Normalize(input0);
    if normalized.Err? then Err(normalized.error)
    else
      var input := normalized.value;
      var targets := ResolveTargets(agents, input.targetIds, input.targetTags);
      if targets == [] then Err(NoMatchedTargets)
      else if Conflict(rollouts, targets) then Err(DuplicateActiveTarget)
      else Ok(Rollout(input.targetVersion, input.canaryCount, input.batchSize, RPending,
                      Plan(targets, input.targetVersion, input.canaryCount, input.batchSize)))
  }

  // ---- Runs ----------------------------------------------------------------------------------

  datatype Event =
    | CreateEvent(input: CreateInput, agents: seq<AgentRow>)
    | AdvanceEvent(rollout: nat, env: Env)
    | HeartbeatEvent(agentId: string, version: string, env: Env)
    | CancelEvent(rollout: nat)

  function Step(rollouts: seq<Rollout>, e: Event): (r: seq<Rollout>)
    ensures |rollouts| <= |r|
  {
    match e
    case CreateEvent(input, agents) =>
      var created := Create(rollouts, input, agents);
      if created.Ok? then rollouts + [created.value] else rollouts
    case AdvanceEvent(r, env) =>
      if r < |rollouts| then rollouts[r := Advance(rollouts[r], env).0] else rollouts
    case HeartbeatEvent(agentId, version, env) => Heartbeat(rollouts, agentId, version, env)
    case CancelEvent(r) =>
      if r < |rollouts| then rollouts[r := Cancel(rollouts[r])] else rollouts
  }

  // The tables after a run, starting from an empty database.
  function Exec(run: seq<Event>): seq<Rollout> {
    if run == [] then [] else Step(Exec(run[..|run| - 1]), run[|run| - 1])
  }
}
