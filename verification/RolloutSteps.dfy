/** Every step of the rollout service keeps the invariant of each rollout. */
module RolloutSteps {
  import opened RolloutModel
  import opened RolloutPlan
  import opened RolloutSafety
  import opened Wrappers

  // ---- Creation ------------------------------------------------------------------------------

  // A row as the planner writes it.
  predicate PlannedRow(it: Item, targetVersion: string) {
    && it.targetVersion == targetVersion
    && !it.Told()
    && (it.phase.Batch? ==> it.batchIndex > 0)
    && (if it.phase == NoPhase then it.status.Skipped? || (it.status.Success? && it.lastSeenVersion == targetVersion)
        else it.status.Pending?)
  }

  lemma {:induction false} PlanRows(agents: seq<AgentRow>, targetVersion: string, canaryCount: nat, batchSize: nat)
    ensures forall i :: 0 <= i < |agents| ==>
              PlannedRow(Plan(agents, targetVersion, canaryCount, batchSize)[i], targetVersion)
  {
    if agents != [] {
      PlanRows(agents[..|agents| - 1], targetVersion, canaryCount, batchSize);
    }
  }

  lemma PlanShape(ro: Rollout, agents: seq<AgentRow>)
    requires 1 <= ro.canaryCount <= MAX_CANARY_COUNT && 1 <= ro.batchSize <= MAX_BATCH_SIZE
    requires forall j, k :: 0 <= j < k < |agents| ==> agents[j].id != agents[k].id
    requires ro.items == Plan(agents, ro.targetVersion, ro.canaryCount, ro.batchSize)
    ensures Shape(ro)
  {
    PlanCounts(agents, ro.targetVersion, ro.canaryCount, ro.batchSize);
    PlanRows(agents, ro.targetVersion, ro.canaryCount, ro.batchSize);
    forall w: nat ensures CountWave(ro.items, w) == WaveSize(Planned(ro.items), ro.canaryCount, ro.batchSize, w) {
      PlanWaveSizes(agents, ro.targetVersion, ro.canaryCount, ro.batchSize, w);
    }
  }

  lemma PlanKept(ro: Rollout, agents: seq<AgentRow>)
    requires 1 <= ro.canaryCount <= MAX_CANARY_COUNT && 1 <= ro.batchSize <= MAX_BATCH_SIZE
    requires forall j, k :: 0 <= j < k < |agents| ==> agents[j].id != agents[k].id
    requires ro.items == Plan(agents, ro.targetVersion, ro.canaryCount, ro.batchSize) && ro.status == RPending
    ensures RolloutInv(ro)
  {
    PlanShape(ro, agents);
    PlanRows(agents, ro.targetVersion, ro.canaryCount, ro.batchSize);
  }

  // ---- Expiry --------------------------------------------------------------------------------

  // A step that tells nobody keeps the order of the waves.
  lemma QuietStepKept(a: Rollout, b: Rollout)
    requires RolloutInv(a) && Evolves(a, b) && Rows(b) && StatusAgrees(b)
    requires forall i :: 0 <= i < |b.items| && b.items[i].Told() ==> a.items[i].Told()
    ensures RolloutInv(b)
  {
    ShapeKept(a, b);
    forall i, j | 0 <= i < |b.items| && 0 <= j < |b.items| && b.items[i].Told() && Before(b.items[j], b.items[i])
      ensures b.items[j].status.Success? && b.items[j].lastSeenVersion == b.targetVersion
    {
      assert SameShape(a.items[i], b.items[i]) && SameShape(a.items[j], b.items[j]);
      assert Before(a.items[j], a.items[i]);
    }
  }

  lemma ExpireAgrees(ro: Rollout, r: Rollout, now: nat)
    requires StatusAgrees(ro) && r == Expire(ro, now)
    ensures StatusAgrees(r)
  {
    var sel := Matching(ro.items, (it: Item) => IsExpired(it, now));
    FailAllEffect(ro, sel);
    if sel != [] {
      assert IsFailed(r.items[sel[0]]);
      assert forall i :: 0 <= i < |ro.items| ==> !r.items[i].status.Pending?;
    } else {
      assert r.items == ro.items;
    }
  }

  lemma ExpireEvolves(ro: Rollout, r: Rollout, now: nat)
    requires Rows(ro) && r == Expire(ro, now)
    ensures Evolves(ro, r) && Rows(r)
    ensures forall i :: 0 <= i < |r.items| && r.items[i].Told() ==> ro.items[i].Told()
  {
    var sel := Matching(ro.items, (it: Item) => IsExpired(it, now));
    FailAllEffect(ro, sel);
    forall i | 0 <= i < |ro.items|
      ensures ItemStep(ro.items[i], r.items[i]) && RowOk(r.items[i]) && (r.items[i].Told() ==> ro.items[i].Told())
    {
      assert RowOk(ro.items[i]);
    }
  }

  lemma ExpireKept(ro: Rollout, now: nat)
    requires RolloutInv(ro)
    ensures RolloutInv(Expire(ro, now)) && Evolves(ro, Expire(ro, now))
  {
    var r := Expire(ro, now);
    ExpireEvolves(ro, r, now);
    ExpireAgrees(ro, r, now);
    QuietStepKept(ro, r);
  }

  // ---- Choosing the next wave ----------------------------------------------------------------

  lemma {:induction false} MatchingWithinWave(items: seq<Item>, p: Item -> bool, w: nat)
    requires forall it :: p(it) ==> it.InWave(w)
    ensures |Matching(items, p)| <= CountWave(items, w)
  {
    if items != [] {
      MatchingWithinWave(items[..|items| - 1], p, w);
    }
  }

  // `sel` holds exactly the pending items of wave `w`, and every earlier wave has succeeded.
  ghost predicate IsNextWave(ro: Rollout, sel: seq<nat>, w: nat) {
    && sel != []
    && (forall k :: 0 <= k < |sel| ==> sel[k] < |ro.items|)
    && (forall i :: 0 <= i < |ro.items| ==> (i in sel <==> ro.items[i].status.Pending? && ro.items[i].Wave() == w))
    && (forall i :: 0 <= i < |ro.items| && ro.items[i].phase != NoPhase && ro.items[i].Wave() < w ==>
          ro.items[i].status.Success?)
    && (forall i :: 0 <= i < |ro.items| && ro.items[i].status.Pending? ==> w <= ro.items[i].Wave())
  }

  // In an active rollout with nothing running, an item that is neither pending nor successful
  // was skipped when the rollout was planned.
  lemma SettledItem(ro: Rollout, i: nat)
    requires RolloutInv(ro) && ro.status.Active() && !AnyItem(ro.items, IsRunning)
    requires i < |ro.items| && ro.items[i].phase != NoPhase
    ensures ro.items[i].status.Pending? || ro.items[i].status.Success?
  {
    assert !IsRunning(ro.items[i]);
  }

  lemma NextIsCanary(ro: Rollout)
    requires RolloutInv(ro) && Matching(ro.items, IsPendingCanary) != []
    ensures IsNextWave(ro, NextItems(ro), 0)
  {
    assert NextItems(ro) == Matching(ro.items, IsPendingCanary);
  }

  lemma NextIsBatch(ro: Rollout, b: nat)
    requires RolloutInv(ro) && Matching(ro.items, IsPendingCanary) == [] && !AnyItem(ro.items, IsUnsuccessfulCanary)
    requires Matching(ro.items, IsPendingBatch) != [] && b == LowestBatch(ro.items, Matching(ro.items, IsPendingBatch))
    ensures NextItems(ro) == Matching(ro.items, (it: Item) => IsPendingInBatch(it, b)) && b > 0
  {
    MatchingWithinWave(ro.items, (it: Item) => IsPendingInBatch(it, b), b);
    assert CountWave(ro.items, b) <= ro.batchSize;
  }

  lemma NoUnsuccessfulCanary(ro: Rollout)
    requires RolloutInv(ro) && ro.status.Active() && !AnyItem(ro.items, IsRunning)
    requires Matching(ro.items, IsPendingCanary) == []
    ensures !AnyItem(ro.items, IsUnsuccessfulCanary)
  {
    forall i | 0 <= i < |ro.items| ensures !IsUnsuccessfulCanary(ro.items[i]) {
      assert !IsPendingCanary(ro.items[i]);
      assert !IsRunning(ro.items[i]);
    }
  }

  lemma PendingBatchExists(ro: Rollout)
    requires RolloutInv(ro) && Matching(ro.items, IsPendingCanary) == [] && AnyItem(ro.items, IsPending)
    ensures Matching(ro.items, IsPendingBatch) != []
  {
    var p :| 0 <= p < |ro.items| && IsPending(ro.items[p]);
    assert RowOk(ro.items[p]);
    assert !IsPendingCanary(ro.items[p]);
    assert IsPendingBatch(ro.items[p]);
  }

  lemma PendingAreBatched(ro: Rollout)
    requires Rows(ro) && Matching(ro.items, IsPendingCanary) == []
    ensures forall i :: 0 <= i < |ro.items| && ro.items[i].status.Pending? ==>
              i in Matching(ro.items, IsPendingBatch) && ro.items[i].phase.Batch?
  {
    forall i | 0 <= i < |ro.items| && ro.items[i].status.Pending? ensures IsPendingBatch(ro.items[i]) {
      assert RowOk(ro.items[i]);
      assert !IsPendingCanary(ro.items[i]);
    }
  }

  lemma EarlierSucceeded(ro: Rollout, b: nat)
    requires RolloutInv(ro) && ro.status.Active() && !AnyItem(ro.items, IsRunning)
    requires forall i :: 0 <= i < |ro.items| && ro.items[i].status.Pending? ==> b <= ro.items[i].Wave()
    ensures forall i :: 0 <= i < |ro.items| && ro.items[i].phase != NoPhase && ro.items[i].Wave() < b ==>
              ro.items[i].status.Success?
  {
    forall i | 0 <= i < |ro.items| && ro.items[i].phase != NoPhase && ro.items[i].Wave() < b
      ensures ro.items[i].status.Success?
    {
      SettledItem(ro, i);
    }
  }

  lemma LowestMembers(ro: Rollout, sel: seq<nat>, b: nat)
    requires Rows(ro) && b > 0
    requires forall i :: 0 <= i < |ro.items| && ro.items[i].status.Pending? ==> ro.items[i].phase.Batch?
    requires sel == Matching(ro.items, (it: Item) => IsPendingInBatch(it, b))
    ensures forall i :: 0 <= i < |ro.items| ==> (i in sel <==> ro.items[i].status.Pending? && ro.items[i].Wave() == b)
  {
  }

  lemma LowestIsUsed(ro: Rollout, b: nat)
    requires Matching(ro.items, IsPendingBatch) != []
    requires b == LowestBatch(ro.items, Matching(ro.items, IsPendingBatch))
    ensures exists i :: 0 <= i < |ro.items| && IsPendingInBatch(ro.items[i], b)
    ensures Matching(ro.items, (it: Item) => IsPendingInBatch(it, b)) != []
  {
    var pending := Matching(ro.items, IsPendingBatch);
    var i := UsedBatch(ro.items, pending, b);
    assert IsPendingInBatch(ro.items[i], b);
    MatchingHas(ro.items, (it: Item) => IsPendingInBatch(it, b), i);
  }

  lemma UsedBatch(items: seq<Item>, sel: seq<nat>, b: nat) returns (i: nat)
    requires sel != [] && forall k :: 0 <= k < |sel| ==> sel[k] < |items|
    requires b == LowestBatch(items, sel)
    ensures i in sel && items[i].batchIndex == b
  {
    var k :| 0 <= k < |sel| && items[sel[k]].batchIndex == b;
    i := sel[k];
  }

  lemma MatchingHas(items: seq<Item>, p: Item -> bool, i: nat)
    requires i < |items| && p(items[i])
    ensures Matching(items, p) != []
  {
    assert i in Matching(items, p);
  }

  lemma LowestIsNextWave(ro: Rollout, sel: seq<nat>, b: nat)
    requires RolloutInv(ro) && ro.status.Active() && !AnyItem(ro.items, IsRunning)
    requires Matching(ro.items, IsPendingCanary) == [] && Matching(ro.items, IsPendingBatch) != []
    requires b == LowestBatch(ro.items, Matching(ro.items, IsPendingBatch)) && b > 0
    requires sel == Matching(ro.items, (it: Item) => IsPendingInBatch(it, b))
    ensures IsNextWave(ro, sel, b)
  {
    PendingAreBatched(ro);
    EarlierSucceeded(ro, b);
    LowestMembers(ro, sel, b);
    LowestIsUsed(ro, b);
  }

  // With nothing running, `nextItems` finds the whole of the lowest pending wave: its branches for
  // an empty answer are not taken, and its limit cuts nothing off.
  lemma NextItemsIsNextWave(ro: Rollout) returns (w: nat)
    requires RolloutInv(ro) && ro.status.Active()
    requires !AnyItem(ro.items, IsRunning) && AnyItem(ro.items, IsPending)
    ensures IsNextWave(ro, NextItems(ro), w)
  {
    if Matching(ro.items, IsPendingCanary) != [] {
      w := 0;
      NextIsCanary(ro);
    } else {
      NoUnsuccessfulCanary(ro);
      PendingBatchExists(ro);
      w := LowestBatch(ro.items, Matching(ro.items, IsPendingBatch));
      NextIsBatch(ro, w);
      LowestIsNextWave(ro, NextItems(ro), w);
    }
  }

  // ---- Advancing -----------------------------------------------------------------------------

  lemma StartKept(ro: Rollout, sel: seq<nat>, w: nat, done: seq<nat>, env: Env)
    requires RolloutInv(ro) && ro.status.Active() && !AnyItem(ro.items, IsRunning)
    requires IsNextWave(ro, sel, w) && done <= sel
    ensures RolloutInv(StartedRollout(ro, done, env)) && Evolves(ro, StartedRollout(ro, done, env))
  {
    var r := StartedRollout(ro, done, env);
    forall i | 0 <= i < |ro.items| ensures ItemStep(ro.items[i], r.items[i]) && RowOk(r.items[i]) {
      assert r.items[i] == StartedItem(ro, done, env, i);
      assert i in done ==> i in sel;
    }
    ShapeKept(ro, r);
    assert WavesInOrder(r) by {
      forall i, j | 0 <= i < |r.items| && 0 <= j < |r.items| && r.items[i].Told() && Before(r.items[j], r.items[i])
        ensures r.items[j].status.Success? && r.items[j].lastSeenVersion == r.targetVersion
      {
        assert r.items[i] == StartedItem(ro, done, env, i) && r.items[j] == StartedItem(ro, done, env, j);
        assert i in done ==> i in sel;
        assert j in done ==> j in sel;
        if i !in done {
          assert Before(ro.items[j], ro.items[i]);
        }
      }
    }
    StartAgrees(ro, done, env);
  }

  lemma StartAgrees(ro: Rollout, done: seq<nat>, env: Env)
    requires StatusAgrees(ro) && ro.status.Active()
    requires forall k :: 0 <= k < |done| ==> done[k] < |ro.items|
    ensures StatusAgrees(StartedRollout(ro, done, env))
  {
    var r := StartedRollout(ro, done, env);
    forall i | 0 <= i < |ro.items| ensures r.items[i] == StartedItem(ro, done, env, i) {
    }
    if AnyFails(ro.items, done, env) {
      var k :| 0 <= k < |done| && Fails(ro.items[done[k]], env);
      assert r.items[done[k]] == StartedItem(ro, done, env, done[k]);
      assert IsFailed(r.items[done[k]]);
    } else {
      forall i | 0 <= i < |ro.items| && i in done ensures !r.items[i].status.Failed? {
        var k :| 0 <= k < |done| && done[k] == i;
        assert !Fails(ro.items[done[k]], env);
      }
    }
  }

  lemma StatusOnlyKept(ro: Rollout, status: RolloutStatus)
    requires RolloutInv(ro) && ro.status.Active()
    requires status == RRunning || (status == RSucceeded && !AnyItem(ro.items, IsPending) && !AnyItem(ro.items, IsRunning))
    ensures RolloutInv(ro.(status := status)) && Evolves(ro, ro.(status := status))
  {
    var r := ro.(status := status);
    ShapeKept(ro, r);
    if status == RSucceeded {
      forall i | 0 <= i < |ro.items|
        ensures ro.items[i].status.Success? || (ro.items[i].status.Skipped? && ro.items[i].phase == NoPhase)
      {
        assert !IsPending(ro.items[i]) && !IsRunning(ro.items[i]);
      }
    }
  }

  lemma ActiveHasNoFailure(ro: Rollout)
    requires StatusAgrees(ro) && ro.status.Active()
    ensures !AnyItem(ro.items, IsFailed)
  {
  }

  lemma StartWaveKept(ro: Rollout, env: Env)
    requires RolloutInv(ro) && ro.status.Active()
    requires !AnyItem(ro.items, IsRunning) && AnyItem(ro.items, IsPending)
    ensures RolloutInv(StartAll(ro, NextItems(ro), env).0) && Evolves(ro, StartAll(ro, NextItems(ro), env).0)
  {
    var w := NextItemsIsNextWave(ro);
    var sel := NextItems(ro);
    StartAllEffect(ro, sel, env);
    StartKept(ro, sel, w, sel[..Reached(ro.items, sel, env)], env);
  }

  lemma AdvanceActiveKept(ro: Rollout, r: Rollout, env: Env)
    requires RolloutInv(ro) && ro.status.Active() && Expire(ro, env.now) == ro && r == Advance(ro, env).0
    ensures RolloutInv(r) && Evolves(ro, r)
  {
    ActiveHasNoFailure(ro);
    var running := ro.(status := RRunning);
    StatusOnlyKept(ro, RRunning);
    if !AnyItem(ro.items, IsRunning) {
      if AnyItem(ro.items, IsPending) {
        StartWaveKept(running, env);
        assert NextItems(running) == NextItems(ro);
        EvolvesTransitive(ro, running, r);
      } else {
        StatusOnlyKept(ro, RSucceeded);
      }
    }
  }

  lemma ExpireTwice(ro: Rollout, now: nat)
    requires Rows(ro)
    ensures Expire(Expire(ro, now), now) == Expire(ro, now)
  {
    var r := Expire(ro, now);
    var sel := Matching(ro.items, (it: Item) => IsExpired(it, now));
    FailAllEffect(ro, sel);
    var again := Matching(r.items, (it: Item) => IsExpired(it, now));
    assert again == [] || !IsExpired(r.items[again[0]], now);
  }

  lemma AdvanceKept(ro0: Rollout, env: Env)
    requires RolloutInv(ro0)
    ensures RolloutInv(Advance(ro0, env).0) && Evolves(ro0, Advance(ro0, env).0)
  {
    var ro := Expire(ro0, env.now);
    ExpireKept(ro0, env.now);
    ExpireTwice(ro0, env.now);
    var r := Advance(ro, env).0;
    assert r == Advance(ro0, env).0;
    if ro.status.Active() {
      AdvanceActiveKept(ro, r, env);
      EvolvesTransitive(ro0, ro, r);
    }
  }

  // ---- Cancelling and heartbeats -------------------------------------------------------------

  lemma CancelAgrees(ro: Rollout, r: Rollout)
    requires StatusAgrees(ro) && r == Cancel(ro)
    ensures StatusAgrees(r)
  {
    if ro.status.RFailed? {
      var i :| 0 <= i < |ro.items| && IsFailed(ro.items[i]);
      assert IsFailed(r.items[i]);
    }
  }

  lemma CancelKept(ro: Rollout)
    requires RolloutInv(ro)
    ensures RolloutInv(Cancel(ro)) && Evolves(ro, Cancel(ro))
  {
    var r := Cancel(ro);
    CancelAgrees(ro, r);
    QuietStepKept(ro, r);
  }

  function Seen(ro: Rollout, i: nat, version: string): Rollout
    requires i < |ro.items|
  {
    ro.(items := ro.items[i := SeeVersion(ro.items[i], version)])
  }

  lemma SeeVersionAgrees(ro: Rollout, i: nat, version: string)
    requires StatusAgrees(ro) && i < |ro.items| && ro.items[i].status.Running?
    ensures StatusAgrees(Seen(ro, i, version))
  {
    var r := Seen(ro, i, version);
    if ro.status.RFailed? {
      var k :| 0 <= k < |ro.items| && IsFailed(ro.items[k]);
      assert IsFailed(r.items[k]);
      assert forall j :: 0 <= j < |r.items| ==> !IsPending(r.items[j]);
    }
  }

  lemma SeeVersionKept(ro: Rollout, i: nat, version: string)
    requires RolloutInv(ro) && i < |ro.items| && ro.items[i].status.Running?
    ensures RolloutInv(Seen(ro, i, version)) && Evolves(ro, Seen(ro, i, version))
  {
    SeeVersionAgrees(ro, i, version);
    QuietStepKept(ro, Seen(ro, i, version));
  }
}
