/** Safety and progress of the rollout service over whole runs. */
module RolloutRuns {
  import opened RolloutModel
  import opened RolloutPlan
  import opened RolloutSafety
  import opened RolloutSteps
  import opened Text
  import opened Wrappers

  // ---- The invariant of the tables -----------------------------------------------------------

  predicate Live(rollouts: seq<Rollout>, r: nat, i: nat) {
    r < |rollouts| && i < |rollouts[r].items| && rollouts[r].status.Active() && ActiveItem(rollouts[r].items[i])
  }

  // No agent has two pending or running items in active rollouts.
  ghost predicate Exclusive(rollouts: seq<Rollout>) {
    forall r: nat, i: nat, s: nat, j: nat | Live(rollouts, r, i) && Live(rollouts, s, j)
      && rollouts[r].items[i].agentId == rollouts[s].items[j].agentId :: r == s && i == j
  }

  ghost predicate AllInv(rollouts: seq<Rollout>) {
    forall r :: 0 <= r < |rollouts| ==> RolloutInv(rollouts[r])
  }

  ghost predicate Inv(rollouts: seq<Rollout>) { AllInv(rollouts) && Exclusive(rollouts) }

  ghost predicate AllEvolve(a: seq<Rollout>, b: seq<Rollout>) {
    |a| <= |b| && forall r :: 0 <= r < |a| ==> Evolves(a[r], b[r])
  }

  lemma StillLive(a: seq<Rollout>, b: seq<Rollout>, r: nat, i: nat)
    requires AllEvolve(a, b) && r < |a| && Live(b, r, i)
    ensures Live(a, r, i) && a[r].items[i].agentId == b[r].items[i].agentId
  {
    assert Evolves(a[r], b[r]) && ItemStep(a[r].items[i], b[r].items[i]);
  }

  lemma ExclusiveKept(a: seq<Rollout>, b: seq<Rollout>)
    requires Exclusive(a) && AllEvolve(a, b) && |a| == |b|
    ensures Exclusive(b)
  {
    forall r: nat, i: nat, s: nat, j: nat | Live(b, r, i) && Live(b, s, j) && b[r].items[i].agentId == b[s].items[j].agentId
      ensures r == s && i == j
    {
      StillLive(a, b, r, i);
      StillLive(a, b, s, j);
    }
  }

  lemma OneChanged(rollouts: seq<Rollout>, r: nat, next: Rollout)
    requires Inv(rollouts) && r < |rollouts| && RolloutInv(next) && Evolves(rollouts[r], next)
    ensures Inv(rollouts[r := next]) && AllEvolve(rollouts, rollouts[r := next])
  {
    var b := rollouts[r := next];
    forall k | 0 <= k < |b| ensures Evolves(rollouts[k], b[k]) {
    }
    ExclusiveKept(rollouts, b);
  }

  // ---- Creation ------------------------------------------------------------------------------

  lemma CreateKept(rollouts: seq<Rollout>, input: CreateInput, agents: seq<AgentRow>)
    requires Inv(rollouts) && Create(rollouts, input, agents).Ok?
    ensures Inv(rollouts + [Create(rollouts, input, agents).value])
  {
    var ro := Create(rollouts, input, agents).value;
    var n := Normalize(input).value;
    var targets := ResolveTargets(agents, n.targetIds, n.targetTags);
    PlanKept(ro, targets);
    var b := rollouts + [ro];
    forall r: nat, i: nat, s: nat, j: nat | Live(b, r, i) && Live(b, s, j) && b[r].items[i].agentId == b[s].items[j].agentId
      ensures r == s && i == j
    {
      if r < |rollouts| && s < |rollouts| {
        assert Live(rollouts, r, i) && Live(rollouts, s, j);
      } else {
        NotLiveBefore(rollouts, targets, ro, r, i);
        NotLiveBefore(rollouts, targets, ro, s, j);
      }
    }
  }

  // An item of the new rollout belongs to an agent that has no live item yet.
  lemma NotLiveBefore(rollouts: seq<Rollout>, targets: seq<AgentRow>, ro: Rollout, r: nat, i: nat)
    requires !Conflict(rollouts, targets) && |ro.items| == |targets|
    requires forall k :: 0 <= k < |targets| ==> ro.items[k].agentId == targets[k].id
    requires Live(rollouts + [ro], r, i)
    ensures r < |rollouts| ==> forall k :: 0 <= k < |targets| ==> ro.items[k].agentId != rollouts[r].items[i].agentId
  {
    if r < |rollouts| {
      assert Live(rollouts, r, i);
      forall k | 0 <= k < |targets| ensures ro.items[k].agentId != rollouts[r].items[i].agentId {
        assert !HasActiveItem(rollouts, targets[k].id);
      }
    }
  }

  // ---- Heartbeats ----------------------------------------------------------------------------

  // The positions a heartbeat works through: running items, at most one in each rollout.
  ghost predicate Positions(rollouts: seq<Rollout>, at: seq<(nat, nat)>) {
    && (forall k :: 0 <= k < |at| ==> at[k].0 < |rollouts| && at[k].1 < |rollouts[at[k].0].items|
                                      && rollouts[at[k].0].items[at[k].1].status.Running?)
    && (forall j, k :: 0 <= j < k < |at| ==> at[j].0 < at[k].0)
  }

  lemma OneItemPerAgent(ro: Rollout, agentId: string)
    requires Shape(ro)
    ensures |Matching(ro.items, (it: Item) => it.agentId == agentId && it.status.Running?)| <= 1
  {
    var sel := Matching(ro.items, (it: Item) => it.agentId == agentId && it.status.Running?);
    assert sel == [] || ro.items[sel[0]].agentId == ro.items[sel[|sel| - 1]].agentId;
  }

  lemma {:induction false} RunningPositions(rollouts: seq<Rollout>, agentId: string)
    requires AllInv(rollouts)
    ensures Positions(rollouts, RunningItems(rollouts, agentId))
  {
    if rollouts != [] {
      var n := |rollouts| - 1;
      RunningPositions(rollouts[..n], agentId);
      OneItemPerAgent(rollouts[n], agentId);
      var sel := Matching(rollouts[n].items, (it: Item) => it.agentId == agentId && it.status.Running?);
      PositionsGrow(rollouts, RunningItems(rollouts[..n], agentId), sel);
    }
  }

  lemma PositionsGrow(rollouts: seq<Rollout>, front: seq<(nat, nat)>, sel: seq<nat>)
    requires rollouts != [] && Positions(rollouts[..|rollouts| - 1], front) && |sel| <= 1
    requires forall k :: 0 <= k < |sel| ==> sel[k] < |rollouts[|rollouts| - 1].items|
                                            && rollouts[|rollouts| - 1].items[sel[k]].status.Running?
    ensures Positions(rollouts, front + seq(|sel|, k requires 0 <= k < |sel| => (|rollouts| - 1, sel[k])))
  {
    var n := |rollouts| - 1;
    assert forall k :: 0 <= k < |front| ==> rollouts[..n][front[k].0] == rollouts[front[k].0];
  }

  lemma HeartbeatRolloutKept(ro: Rollout, i: nat, version: string, env: Env) returns (next: Rollout)
    requires RolloutInv(ro) && i < |ro.items| && ro.items[i].status.Running?
    ensures next == if version == ro.items[i].targetVersion then Advance(Seen(ro, i, version), env).0
                    else Seen(ro, i, version)
    ensures RolloutInv(next) && Evolves(ro, next)
  {
    var seen := Seen(ro, i, version);
    SeeVersionKept(ro, i, version);
    next := seen;
    if version == ro.items[i].targetVersion {
      AdvanceKept(seen, env);
      next := Advance(seen, env).0;
      EvolvesTransitive(ro, seen, next);
    }
  }

  lemma HeartbeatItemKept(rollouts: seq<Rollout>, at: (nat, nat), version: string, env: Env)
    requires Inv(rollouts) && at.0 < |rollouts| && at.1 < |rollouts[at.0].items|
    requires rollouts[at.0].items[at.1].status.Running?
    ensures forall r :: 0 <= r < |rollouts| && r != at.0 ==> HeartbeatItem(rollouts, at, version, env).0[r] == rollouts[r]
    ensures Inv(HeartbeatItem(rollouts, at, version, env).0)
    ensures AllEvolve(rollouts, HeartbeatItem(rollouts, at, version, env).0)
  {
    var next := HeartbeatRolloutKept(rollouts[at.0], at.1, version, env);
    OneChanged(rollouts, at.0, next);
    assert HeartbeatItem(rollouts, at, version, env).0 == rollouts[at.0 := next];
  }

  lemma PositionsTail(a: seq<Rollout>, b: seq<Rollout>, at: seq<(nat, nat)>)
    requires at != [] && Positions(a, at) && |b| == |a|
    requires forall r :: 0 <= r < |a| && r != at[0].0 ==> b[r] == a[r]
    ensures Positions(b, at[1..])
  {
    var rest := at[1..];
    assert forall k :: 0 <= k < |rest| ==> rest[k] == at[k + 1] && at[0].0 < at[k + 1].0;
  }

  lemma {:induction false} HeartbeatAllKept(rollouts: seq<Rollout>, at: seq<(nat, nat)>, version: string, env: Env)
    requires Inv(rollouts) && Positions(rollouts, at)
    ensures Inv(HeartbeatAll(rollouts, at, version, env))
    ensures AllEvolve(rollouts, HeartbeatAll(rollouts, at, version, env))
    decreases |at|
  {
    if at == [] {
      forall r | 0 <= r < |rollouts| ensures Evolves(rollouts[r], rollouts[r]) {
      }
    } else {
      var (b, stop) := HeartbeatItem(rollouts, at[0], version, env);
      HeartbeatItemKept(rollouts, at[0], version, env);
      if !stop {
        PositionsTail(rollouts, b, at);
        HeartbeatAllKept(b, at[1..], version, env);
        AllEvolveTransitive(rollouts, b, HeartbeatAll(b, at[1..], version, env));
      }
    }
  }

  lemma AllEvolveTransitive(a: seq<Rollout>, b: seq<Rollout>, c: seq<Rollout>)
    requires AllEvolve(a, b) && AllEvolve(b, c)
    ensures AllEvolve(a, c)
  {
    forall r | 0 <= r < |a| ensures Evolves(a[r], c[r]) {
      EvolvesTransitive(a[r], b[r], c[r]);
    }
  }

  // ---- Runs ----------------------------------------------------------------------------------

  lemma EvolvesRefl(rollouts: seq<Rollout>, more: seq<Rollout>)
    ensures AllEvolve(rollouts, rollouts + more)
  {
    forall r | 0 <= r < |rollouts| ensures Evolves(rollouts[r], (rollouts + more)[r]) {
    }
  }

  lemma HeartbeatKept(rollouts: seq<Rollout>, agentId: string, version: string, env: Env)
    requires Inv(rollouts)
    ensures Inv(Heartbeat(rollouts, agentId, version, env)) && AllEvolve(rollouts, Heartbeat(rollouts, agentId, version, env))
  {
    assert rollouts + [] == rollouts;
    EvolvesRefl(rollouts, []);
    RunningPositions(rollouts, agentId);
    HeartbeatAllKept(rollouts, RunningItems(rollouts, agentId), version, env);
  }

  lemma RolloutEventKept(rollouts: seq<Rollout>, e: Event)
    requires Inv(rollouts) && (e.AdvanceEvent? || e.CancelEvent?) && e.rollout < |rollouts|
    ensures Inv(Step(rollouts, e)) && AllEvolve(rollouts, Step(rollouts, e))
  {
    var ro := rollouts[e.rollout];
    if e.AdvanceEvent? {
      AdvanceKept(ro, e.env);
      OneChanged(rollouts, e.rollout, Advance(ro, e.env).0);
    } else {
      CancelKept(ro);
      OneChanged(rollouts, e.rollout, Cancel(ro));
    }
  }

  lemma StepKept(rollouts: seq<Rollout>, e: Event)
    requires Inv(rollouts)
    ensures Inv(Step(rollouts, e)) && AllEvolve(rollouts, Step(rollouts, e))
  {
    assert rollouts + [] == rollouts;
    EvolvesRefl(rollouts, []);
    match e
    case CreateEvent(input, agents) =>
      var created := Create(rollouts, input, agents);
      if created.Ok? {
        CreateKept(rollouts, input, agents);
        EvolvesRefl(rollouts, [created.value]);
      }
    case HeartbeatEvent(agentId, version, env) => HeartbeatKept(rollouts, agentId, version, env);
    case _ =>
      if e.rollout < |rollouts| {
        RolloutEventKept(rollouts, e);
      }
  }

  lemma {:induction false} Reachable(run: seq<Event>)
    ensures Inv(Exec(run))
  {
    if run == [] {
      assert forall r: nat, i: nat :: !Live([], r, i);
    } else {
      Reachable(run[..|run| - 1]);
      StepKept(Exec(run[..|run| - 1]), run[|run| - 1]);
    }
  }
}
