/** The rollout service over its tables, proved to take the steps of `RolloutModel`. */
module RolloutService {
  import opened Text
  import opened Wrappers
  import A = RolloutAnswers
  import M = RolloutModel
  import opened RolloutModel
  import opened RolloutRuns
  import opened RolloutSafety

  datatype AdvanceOutcome = Advanced | RolloutNotFound | Interrupted

  lemma IdsAppend(agents: seq<AgentRow>, agent: AgentRow)
    ensures Ids(agents + [agent]) == Ids(agents) + {agent.id}
  {
    var all := agents + [agent];
    assert all[|agents|] == agent;
    forall id | id in Ids(agents) ensures id in Ids(all) {
      var i :| 0 <= i < |agents| && agents[i].id == id;
      assert all[i].id == id;
    }
  }

  lemma PlanGrows(agents: seq<AgentRow>, k: nat, version: string, canaryCount: nat, batchSize: int)
    requires k < |agents|
    ensures Plan(agents[..k + 1], version, canaryCount, batchSize)
         == Plan(agents[..k], version, canaryCount, batchSize)
            + [PlanItem(agents[k], version, RunnableCount(agents[..k], version), canaryCount, batchSize)]
    ensures RunnableCount(agents[..k + 1], version)
         == RunnableCount(agents[..k], version) + if Runnable(agents[k], version) then 1 else 0
  {
    assert agents[..k + 1][..k] == agents[..k];
  }

  // What is left of a heartbeat after its turn for one item.
  lemma HeartbeatTurn(rollouts: seq<Rollout>, at: seq<(nat, nat)>, k: nat, version: string, env: Env)
    requires k < |at|
    requires forall j :: 0 <= j < |at| ==> at[j].0 < |rollouts| && at[j].1 < |rollouts[at[j].0].items|
    ensures var (next, stop) := HeartbeatItem(rollouts, at[k], version, env);
            HeartbeatAll(rollouts, at[k..], version, env) == if stop then next else HeartbeatAll(next, at[k + 1..], version, env)
  {
    assert at[k..][1..] == at[k + 1..];
  }

  class Service {
    // The rollout rows in creation order; a rollout's id is its position.
    var rollouts: seq<Rollout>

    constructor ()
      ensures rollouts == Exec([])
    {
      rollouts := [];
    }

    static method PlanItems(agents: seq<AgentRow>, targetVersion: string, canaryCount: nat, batchSize: int)
      returns (items: seq<Item>)
      ensures items == Plan(agents, targetVersion, canaryCount, batchSize)
    {
      items := [];
      var runnableIndex := 0;
      for k := 0 to |agents|
        invariant items == Plan(agents[..k], targetVersion, canaryCount, batchSize)
        invariant runnableIndex == RunnableCount(agents[..k], targetVersion)
      {
        var agent := agents[k];
        var it := Item(agent.id, NoPhase, 0, Pending, agent.version, targetVersion, agent.arch, "", None, None);
        if agent.status != "online" || agent.version == "" || agent.arch == "" {
          it := it.(status := Skipped);
        } else if agent.version == targetVersion {
          it := it.(status := Success, lastSeenVersion := agent.version);
        } else {
          if runnableIndex < canaryCount {
            it := it.(phase := Canary, batchIndex := 0);
          } else {
            it := it.(phase := Batch,
                      batchIndex := (runnableIndex - canaryCount) / PositiveOrDefault(batchSize, DEFAULT_BATCH_SIZE) + 1);
          }
          runnableIndex := runnableIndex + 1;
        }
        assert it == PlanItem(agent, targetVersion, RunnableCount(agents[..k], targetVersion), canaryCount, batchSize);
        PlanGrows(agents, k, targetVersion, canaryCount, batchSize);
        items := items + [it];
      }
      assert agents[..|agents|] == agents;
    }

    static method FindTargets(agents: seq<AgentRow>, ids: set<string>, tags: set<string>) returns (matches: seq<AgentRow>)
      ensures matches == ResolveTargets(agents, ids, tags)
    {
      matches := [];
      var seen := {};
      for k := 0 to |agents|
        invariant matches == ResolveTargets(agents[..k], ids, tags)
        invariant seen == Ids(matches)
      {
        assert agents[..k + 1][..k] == agents[..k];
        if Selected(agents[k], ids, tags) {
          if agents[k].id !in seen {
            IdsAppend(matches, agents[k]);
            matches := matches + [agents[k]];
            seen := seen + {agents[k].id};
          }
        }
      }
      assert agents[..|agents|] == agents;
    }

    method CreateRollout(input0: CreateInput, agents: seq<AgentRow>) returns (r: Result<nat, CreateError>)
      modifies this
      ensures rollouts == Step(old(rollouts), CreateEvent(input0, agents))
      ensures r.Ok? <==> Create(old(rollouts), input0, agents).Ok?
      ensures r.Ok? ==> r.value == |old(rollouts)| < |rollouts|
      ensures r.Err? ==> r.error == Create(old(rollouts), input0, agents).error
    {
      var normalized := Normalize(input0);
      if normalized.Err? {
        return Err(normalized.error);
      }
      var input := normalized.value;
      var targets := FindTargets(agents, input.targetIds, input.targetTags);
      if targets == [] {
        return Err(NoMatchedTargets);
      }
      if Conflict(rollouts, targets) {
        return Err(DuplicateActiveTarget);
      }
      var items := PlanItems(targets, input.targetVersion, input.canaryCount, input.batchSize);
      r := Ok(|rollouts|);
      rollouts := rollouts + [Rollout(input.targetVersion, input.canaryCount, input.batchSize, RPending, items)];
    }

    method FailRollout(r: nat)
      requires r < |rollouts|
      modifies this
      ensures rollouts == old(rollouts)[r := M.FailRollout(old(rollouts)[r])]
    {
      var ro := rollouts[r];
      if ro.status.Active() {
        ro := ro.(status := RFailed);
      }
      ro := ro.(items := SkipWhere(ro.items, false));
      rollouts := rollouts[r := ro];
    }

    method FailItem(r: nat, i: nat)
      requires r < |rollouts| && i < |rollouts[r].items|
      modifies this
      ensures rollouts == old(rollouts)[r := M.FailItem(old(rollouts)[r], i)]
    {
      var ro := rollouts[r];
      rollouts := rollouts[r := ro.(items := ro.items[i := ro.items[i].(status := Failed)])];
      FailRollout(r);
    }

    method ExpireTimedOutItems(r: nat, now: nat)
      requires r < |rollouts|
      modifies this
      ensures rollouts == old(rollouts)[r := Expire(old(rollouts)[r], now)]
      ensures A.LateFailed(old(rollouts)[r], rollouts[r], now)
    {
      A.ExpireIs(rollouts[r], Expire(rollouts[r], now), now);
      FailItems(r, Matching(rollouts[r].items, (it: Item) => IsExpired(it, now)));
    }

    // Fails the selected items one by one.
    method FailItems(r: nat, expired: seq<nat>)
      requires r < |rollouts| && forall k :: 0 <= k < |expired| ==> expired[k] < |rollouts[r].items|
      modifies this
      ensures rollouts == old(rollouts)[r := FailAll(old(rollouts)[r], expired)]
    {
      ghost var before := rollouts;
      var k := 0;
      while k < |expired|
        invariant k <= |expired| && |rollouts| == |before| && |rollouts[r].items| == |before[r].items|
        invariant rollouts == before[r := rollouts[r]]
        invariant FailAll(rollouts[r], expired[k..]) == FailAll(before[r], expired)
      {
        assert expired[k..][1..] == expired[k + 1..];
        FailItem(r, expired[k]);
        k := k + 1;
      }
    }

    method StartItem(r: nat, i: nat, env: Env) returns (stopped: bool)
      requires r < |rollouts| && i < |rollouts[r].items|
      modifies this
      ensures rollouts == old(rollouts)[r := M.StartItem(old(rollouts)[r], i, env).0]
      ensures stopped == M.StartItem(old(rollouts)[r], i, env).1
    {
      stopped := false;
      var ro := rollouts[r];
      var outcome := env.Outcome(ro.items[i].agentId);
      if outcome.Offline? {
        FailItem(r, i);
        return;
      }
      if outcome.EncodeError? {
        FailItem(r, i);
        return;
      }
      rollouts := rollouts[r := ro.(items := ro.items[i := ro.items[i].(
        status := Running,
        startedAt := Some(env.now),
        deadlineAt := Some(env.now + env.itemTimeout))])];
      if outcome.ContextDone? {
        stopped := true;
      } else if !outcome.Accepted? {
        FailItem(r, i);
      }
    }

    method MarkRolloutRunning(r: nat)
      requires r < |rollouts|
      modifies this
      ensures rollouts == old(rollouts)[r := old(rollouts)[r].(status := SetStatus(old(rollouts)[r].status, RRunning))]
    {
      if rollouts[r].status.Active() {
        rollouts := rollouts[r := rollouts[r].(status := RRunning)];
      }
    }

    method CompleteRollout(r: nat)
      requires r < |rollouts|
      modifies this
      ensures rollouts == old(rollouts)[r := Complete(old(rollouts)[r])]
    {
      var status := RSucceeded;
      if AnyItem(rollouts[r].items, IsFailed) {
        status := RFailed;
      }
      if rollouts[r].status.Active() {
        rollouts := rollouts[r := rollouts[r].(status := status)];
      }
    }

    method AdvanceRollout(r: nat, env: Env) returns (outcome: AdvanceOutcome)
      modifies this
      ensures rollouts == Step(old(rollouts), AdvanceEvent(r, env))
      ensures outcome == if r >= |old(rollouts)| then RolloutNotFound
                         else if Advance(old(rollouts)[r], env).1 then Interrupted else Advanced
      ensures r < |old(rollouts)| && RolloutInv(old(rollouts)[r]) ==> A.Advanced(old(rollouts)[r], rollouts[r], env)
    {
      if r >= |rollouts| {
        return RolloutNotFound;
      }
      if RolloutInv(rollouts[r]) {
        A.AdvanceRow(rollouts[r], env);
      }
      outcome := AdvanceFound(r, env);
    }

    // The advance of a rollout that is there.
    method AdvanceFound(r: nat, env: Env) returns (outcome: AdvanceOutcome)
      requires r < |rollouts|
      modifies this
      ensures rollouts == old(rollouts)[r := Advance(old(rollouts)[r], env).0]
      ensures outcome == if Advance(old(rollouts)[r], env).1 then Interrupted else Advanced
    {
      outcome := Advanced;
      ExpireTimedOutItems(r, env.now);
      var ro := rollouts[r];
      if !ro.status.Active() {
        return;
      }
      if AnyItem(ro.items, IsFailed) {
        FailRollout(r);
        return;
      }
      if AnyItem(ro.items, IsRunning) {
        MarkRolloutRunning(r);
        return;
      }
      if !AnyItem(ro.items, IsPending) {
        CompleteRollout(r);
        return;
      }
      var items := NextItems(ro);
      MarkRolloutRunning(r);
      var stopped := StartItems(r, items, env);
      if stopped {
        outcome := Interrupted;
      }
    }

    method StartItems(r: nat, items: seq<nat>, env: Env) returns (stopped: bool)
      requires r < |rollouts| && forall k :: 0 <= k < |items| ==> items[k] < |rollouts[r].items|
      modifies this
      ensures rollouts == old(rollouts)[r := StartAll(old(rollouts)[r], items, env).0]
      ensures stopped == StartAll(old(rollouts)[r], items, env).1
    {
      ghost var before := rollouts;
      var k := 0;
      while k < |items|
        invariant k <= |items| && |rollouts| == |before| && |rollouts[r].items| == |before[r].items|
        invariant rollouts == before[r := rollouts[r]]
        invariant StartAll(rollouts[r], items[k..], env) == StartAll(before[r], items, env)
      {
        assert items[k..][1..] == items[k + 1..];
        var stop := StartItem(r, items[k], env);
        if stop {
          return true;
        }
        k := k + 1;
      }
      return false;
    }

    method ObserveVersion(at: (nat, nat), version: string, env: Env) returns (stopped: bool)
      requires at.0 < |rollouts| && at.1 < |rollouts[at.0].items|
      modifies this
      ensures rollouts == HeartbeatItem(old(rollouts), at, version, env).0
      ensures stopped == HeartbeatItem(old(rollouts), at, version, env).1
      ensures RolloutInv(old(rollouts)[at.0]) && old(rollouts)[at.0].items[at.1].status == Running ==>
                rollouts == old(rollouts)[at.0 := rollouts[at.0]]
                && A.Observed(old(rollouts)[at.0], rollouts[at.0], at.1, version, env)
    {
      if RolloutInv(rollouts[at.0]) && rollouts[at.0].items[at.1].status == Running {
        A.ObservedIs(rollouts, at, version, env);
      }
      stopped := false;
      var (r, i) := at;
      var ro := rollouts[r];
      var it := ro.items[i].(lastSeenVersion := version);
      if version == it.targetVersion {
        it := it.(status := Success);
      }
      rollouts := rollouts[r := ro.(items := ro.items[i := it])];
      if version == it.targetVersion {
        var outcome := AdvanceRollout(r, env);
        stopped := outcome.Interrupted?;
      }
    }

    method HandleHeartbeat(agentId: string, version: string, env: Env)
      modifies this
      ensures rollouts == Step(old(rollouts), HeartbeatEvent(agentId, version, env))
      ensures AllInv(old(rollouts)) && agentId != "" && !Blank(version) ==>
                |rollouts| == |old(rollouts)|
                && forall k :: 0 <= k < |rollouts| ==> A.Beaten(old(rollouts), rollouts, k, agentId, version, env)
    {
      if agentId == "" || Blank(version) {
        return;
      }
      if AllInv(rollouts) {
        A.HeartbeatRows(rollouts, agentId, version, env);
      }
      ObserveAll(RunningItems(rollouts, agentId), version, env);
    }

    // The items of a heartbeat one by one, until an advance is interrupted.
    method ObserveAll(at: seq<(nat, nat)>, version: string, env: Env)
      requires forall k :: 0 <= k < |at| ==> at[k].0 < |rollouts| && at[k].1 < |rollouts[at[k].0].items|
      modifies this
      ensures rollouts == HeartbeatAll(old(rollouts), at, version, env)
    {
      ghost var before := rollouts;
      var k := 0;
      while k < |at|
        invariant k <= |at| && |rollouts| == |before|
        invariant forall j :: 0 <= j < |before| ==> |rollouts[j].items| == |before[j].items|
        invariant HeartbeatAll(rollouts, at[k..], version, env) == HeartbeatAll(before, at, version, env)
      {
        HeartbeatTurn(rollouts, at, k, version, env);
        var stopped := ObserveVersion(at[k], version, env);
        if stopped {
          return;
        }
        k := k + 1;
      }
    }

    method CancelRollout(r: nat)
      modifies this
      ensures rollouts == Step(old(rollouts), CancelEvent(r))
    {
      if r < |rollouts| {
        var ro := rollouts[r];
        if ro.status.Active() {
          ro := ro.(status := RCancelled);
        }
        rollouts := rollouts[r := ro.(items := SkipWhere(ro.items, true))];
      }
    }
  }
}
