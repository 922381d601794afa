/** The promises of the rollout service, over every run. */
module RolloutTheorems {
  import opened RolloutModel
  import opened RolloutPlan
  import opened RolloutSafety
  import opened RolloutSteps
  import opened RolloutRuns
  import opened Wrappers

  // ---- Safety --------------------------------------------------------------------------------

  // Whatever happened, once an item was told to upgrade, every item of every earlier wave runs the
  // target version.
  lemma WaveSafety(run: seq<Event>, r: nat, i: nat, j: nat)
    requires r < |Exec(run)| && i < |Exec(run)[r].items| && j < |Exec(run)[r].items|
    requires Exec(run)[r].items[i].Told() && Before(Exec(run)[r].items[j], Exec(run)[r].items[i])
    ensures Exec(run)[r].items[j].status.Success?
    ensures Exec(run)[r].items[j].lastSeenVersion == Exec(run)[r].targetVersion
  {
    Reachable(run);
    assert WavesInOrder(Exec(run)[r]);
  }

  // Told to upgrade and not known to run the target version.
  predicate AtRisk(it: Item) { it.Told() && !it.status.Success? }

  function CountAtRisk(items: seq<Item>): nat {
    if items == [] then 0
    else CountAtRisk(items[..|items| - 1]) + (if AtRisk(items[|items| - 1]) then 1 else 0)
  }

  lemma {:induction false} AtRiskWithinWave(items: seq<Item>, w: nat)
    requires forall i :: 0 <= i < |items| && AtRisk(items[i]) ==> items[i].InWave(w)
    ensures CountAtRisk(items) <= CountWave(items, w)
  {
    if items != [] {
      AtRiskWithinWave(items[..|items| - 1], w);
    }
  }

  lemma {:induction false} NoneAtRisk(items: seq<Item>)
    requires forall i :: 0 <= i < |items| ==> !AtRisk(items[i])
    ensures CountAtRisk(items) == 0
  {
    if items != [] {
      NoneAtRisk(items[..|items| - 1]);
    }
  }

  lemma AtRiskInOneWave(ro: Rollout, i: nat, j: nat)
    requires RolloutInv(ro) && i < |ro.items| && j < |ro.items| && AtRisk(ro.items[i]) && AtRisk(ro.items[j])
    ensures ro.items[i].phase != NoPhase && ro.items[i].Wave() == ro.items[j].Wave()
  {
    assert RowOk(ro.items[i]) && RowOk(ro.items[j]);
    assert !Before(ro.items[i], ro.items[j]) && !Before(ro.items[j], ro.items[i]);
  }

  // The upgrades that may be broken at any one time lie in one wave, and are at most as many as
  // the larger of the two wave sizes the operator chose.
  lemma BlastRadius(run: seq<Event>, r: nat)
    requires r < |Exec(run)|
    ensures var ro := Exec(run)[r];
            && CountAtRisk(ro.items) <= (if ro.canaryCount > ro.batchSize then ro.canaryCount else ro.batchSize)
            && forall i, j :: 0 <= i < |ro.items| && 0 <= j < |ro.items| && AtRisk(ro.items[i]) && AtRisk(ro.items[j])
                 ==> ro.items[i].Wave() == ro.items[j].Wave()
  {
    Reachable(run);
    var ro := Exec(run)[r];
    forall i, j | 0 <= i < |ro.items| && 0 <= j < |ro.items| && AtRisk(ro.items[i]) && AtRisk(ro.items[j])
      ensures ro.items[i].Wave() == ro.items[j].Wave()
    {
      AtRiskInOneWave(ro, i, j);
    }
    AtRiskBounded(ro);
  }

  lemma AtRiskBounded(ro: Rollout)
    requires RolloutInv(ro)
    ensures CountAtRisk(ro.items) <= (if ro.canaryCount > ro.batchSize then ro.canaryCount else ro.batchSize)
  {
    if i :| 0 <= i < |ro.items| && AtRisk(ro.items[i]) {
      var w := ro.items[i].Wave();
      forall j | 0 <= j < |ro.items| && AtRisk(ro.items[j]) ensures ro.items[j].InWave(w) {
        AtRiskInOneWave(ro, j, i);
      }
      AtRiskWithinWave(ro.items, w);
      assert CountWave(ro.items, w) == WaveSize(Planned(ro.items), ro.canaryCount, ro.batchSize, w);
    } else {
      NoneAtRisk(ro.items);
    }
  }

  lemma StatusAgreement(run: seq<Event>, r: nat)
    requires r < |Exec(run)|
    ensures StatusAgrees(Exec(run)[r])
  {
    Reachable(run);
    assert RolloutInv(Exec(run)[r]);
  }

  lemma OneLiveItemPerAgent(run: seq<Event>, r: nat, i: nat, s: nat, j: nat)
    requires Live(Exec(run), r, i) && Live(Exec(run), s, j)
    requires Exec(run)[r].items[i].agentId == Exec(run)[s].items[j].agentId
    ensures r == s && i == j
  {
    Reachable(run);
  }

  lemma {:induction false} LaterEvolves(run: seq<Event>, later: seq<Event>)
    ensures AllEvolve(Exec(run), Exec(run + later))
    decreases |later|
  {
    if later == [] {
      assert run + later == run;
      EvolvesRefl(Exec(run), []);
      assert Exec(run) + [] == Exec(run);
    } else {
      var before, e := run + later[..|later| - 1], later[|later| - 1];
      assert (run + later)[..|run + later| - 1] == before;
      LaterEvolves(run, later[..|later| - 1]);
      Reachable(before);
      StepKept(Exec(before), e);
      AllEvolveTransitive(Exec(run), Exec(before), Exec(run + later));
    }
  }

  // Whatever follows, finished rollouts and finished items never change again, and a rollout that has
  // begun does not return to pending.
  lemma FinishedIsFinal(run: seq<Event>, later: seq<Event>, r: nat)
    requires r < |Exec(run)|
    ensures r < |Exec(run + later)| && |Exec(run)[r].items| == |Exec(run + later)[r].items|
    ensures !Exec(run)[r].status.Active() ==> Exec(run + later)[r].status == Exec(run)[r].status
    ensures Exec(run + later)[r].status.RPending? ==> Exec(run)[r].status.RPending?
    ensures forall i :: 0 <= i < |Exec(run)[r].items| && Exec(run)[r].items[i].status.Terminal() ==>
              Exec(run + later)[r].items[i] == Exec(run)[r].items[i]
  {
    LaterEvolves(run, later);
    assert Evolves(Exec(run)[r], Exec(run + later)[r]);
    forall i | 0 <= i < |Exec(run)[r].items| ensures ItemStep(Exec(run)[r].items[i], Exec(run + later)[r].items[i]) {
    }
  }

  // ---- What one advance does -----------------------------------------------------------------

  // With no item running and no context ending early, advancing an active rollout starts exactly
  // the lowest pending wave `w`: each of its items ends as the hub answered for it, however the
  // others fared. One failure fails the rollout and skips every later wave.
  ghost predicate AdvancedWave(ro: Rollout, r: Rollout, w: nat, env: Env) {
    var failed := exists i :: 0 <= i < |ro.items| && InNextWave(ro.items[i], w) && Fails(ro.items[i], env);
    && r.status == (if failed then RFailed else RRunning)
    && |r.items| == |ro.items|
    && forall i :: 0 <= i < |ro.items| ==>
         r.items[i] == if InNextWave(ro.items[i], w) then Started(ro.items[i], env)
                       else if failed && ro.items[i].status.Pending? then ro.items[i].(status := Skipped)
                       else ro.items[i]
  }

  predicate InNextWave(it: Item, w: nat) { it.status.Pending? && it.Wave() == w }

  lemma AdvanceStartsNextWave(run: seq<Event>, r: nat, env: Env) returns (w: nat)
    requires r < |Exec(run)| && Exec(run)[r].status.Active()
    requires !AnyItem(Exec(run)[r].items, IsRunning) && AnyItem(Exec(run)[r].items, IsPending)
    requires forall a :: a in env.hub ==> !env.hub[a].ContextDone?
    ensures AdvancedWave(Exec(run)[r], Advance(Exec(run)[r], env).0, w, env)
    ensures IsNextWave(Exec(run)[r], NextItems(Exec(run)[r]), w)
  {
    Reachable(run);
    w := StartedWave(Exec(run)[r], env);
  }

  lemma NothingExpires(ro: Rollout, now: nat)
    requires !AnyItem(ro.items, IsRunning)
    ensures Expire(ro, now) == ro
  {
    assert forall i :: 0 <= i < |ro.items| ==> !IsRunning(ro.items[i]);
    MatchingNone(ro.items, (it: Item) => IsExpired(it, now));
  }

  lemma {:induction false} MatchingNone(items: seq<Item>, p: Item -> bool)
    requires forall i :: 0 <= i < |items| ==> !p(items[i])
    ensures Matching(items, p) == []
  {
    if items != [] {
      MatchingNone(items[..|items| - 1], p);
    }
  }

  lemma AdvanceIsStart(ro: Rollout, env: Env)
    requires RolloutInv(ro) && ro.status.Active()
    requires !AnyItem(ro.items, IsRunning) && AnyItem(ro.items, IsPending)
    ensures Advance(ro, env) == StartAll(ro.(status := RRunning), NextItems(ro), env)
  {
    ActiveHasNoFailure(ro);
    NothingExpires(ro, env.now);
  }

  lemma AllReached(items: seq<Item>, sel: seq<nat>, env: Env)
    requires forall k :: 0 <= k < |sel| ==> sel[k] < |items|
    requires forall a :: a in env.hub ==> !env.hub[a].ContextDone?
    ensures sel[..Reached(items, sel, env)] == sel
  {
  }

  lemma AdvanceStartsSelection(ro: Rollout, env: Env)
    requires RolloutInv(ro) && ro.status.Active()
    requires !AnyItem(ro.items, IsRunning) && AnyItem(ro.items, IsPending)
    requires forall a :: a in env.hub ==> !env.hub[a].ContextDone?
    ensures Advance(ro, env).0 == StartedRollout(ro.(status := RRunning), NextItems(ro), env)
  {
    var running, sel := ro.(status := RRunning), NextItems(ro);
    AdvanceIsStart(ro, env);
    StartAllEffect(running, sel, env);
    AllReached(running.items, sel, env);
  }

  lemma StartedWave(ro: Rollout, env: Env) returns (w: nat)
    requires RolloutInv(ro) && ro.status.Active()
    requires !AnyItem(ro.items, IsRunning) && AnyItem(ro.items, IsPending)
    requires forall a :: a in env.hub ==> !env.hub[a].ContextDone?
    ensures IsNextWave(ro, NextItems(ro), w) && AdvancedWave(ro, Advance(ro, env).0, w, env)
  {
    var sel := NextItems(ro);
    AdvanceStartsSelection(ro, env);
    w := NextItemsIsNextWave(ro);
    StartedIsAdvanced(ro, sel, w, env);
  }

  lemma StartedIsAdvanced(ro: Rollout, sel: seq<nat>, w: nat, env: Env)
    requires IsNextWave(ro, sel, w)
    ensures AdvancedWave(ro, StartedRollout(ro.(status := RRunning), sel, env), w, env)
  {
    var running := ro.(status := RRunning);
    AnyFailsInWave(ro, sel, w, env);
    forall i | 0 <= i < |ro.items|
      ensures StartedRollout(running, sel, env).items[i] == StartedItem(running, sel, env, i)
      ensures i in sel <==> InNextWave(ro.items[i], w)
    {
    }
  }

  lemma AnyFailsInWave(ro: Rollout, sel: seq<nat>, w: nat, env: Env)
    requires IsNextWave(ro, sel, w)
    ensures AnyFails(ro.items, sel, env)
       <==> exists i :: 0 <= i < |ro.items| && InNextWave(ro.items[i], w) && Fails(ro.items[i], env)
  {
    if AnyFails(ro.items, sel, env) {
      var k :| 0 <= k < |sel| && Fails(ro.items[sel[k]], env);
      assert sel[k] in sel && InNextWave(ro.items[sel[k]], w);
    }
    if i :| 0 <= i < |ro.items| && InNextWave(ro.items[i], w) && Fails(ro.items[i], env) {
      assert i in sel;
    }
  }

  // ---- Progress ------------------------------------------------------------------------------

  function StatusWeight(s: ItemStatus): nat {
    match s
    case Pending => 2
    case Running => 1
    case _ => 0
  }

  // Twice the pending items plus the running ones.
  function Weight(items: seq<Item>): nat {
    if items == [] then 0
    else Weight(items[..|items| - 1]) + StatusWeight(items[|items| - 1].status)
  }

  lemma {:induction false} WeightFalls(a: seq<Item>, b: seq<Item>)
    requires |a| == |b| && forall i :: 0 <= i < |a| ==> ItemStep(a[i], b[i])
    ensures Weight(b) <= Weight(a)
    ensures (exists i :: 0 <= i < |a| && a[i].status != b[i].status) ==> Weight(b) < Weight(a)
  {
    if a != [] {
      var n := |a| - 1;
      assert forall i :: 0 <= i < n ==> a[..n][i] == a[i] && b[..n][i] == b[i];
      WeightFalls(a[..n], b[..n]);
    }
  }

  // Every step keeps the weight of a rollout or lowers it, and lowers it whenever a status changes.
  lemma WeightNeverRises(run: seq<Event>, e: Event, r: nat)
    requires r < |Exec(run)|
    ensures Weight(Step(Exec(run), e)[r].items) <= Weight(Exec(run)[r].items)
    ensures (exists i :: 0 <= i < |Exec(run)[r].items| && i < |Step(Exec(run), e)[r].items|
                      && Exec(run)[r].items[i].status != Step(Exec(run), e)[r].items[i].status) ==>
              Weight(Step(Exec(run), e)[r].items) < Weight(Exec(run)[r].items)
  {
    Reachable(run);
    StepKept(Exec(run), e);
    assert Evolves(Exec(run)[r], Step(Exec(run), e)[r]);
    WeightFalls(Exec(run)[r].items, Step(Exec(run), e)[r].items);
  }

  // An active rollout with nothing running is never stuck: advancing it ends it, or takes an item
  // out of pending and so lowers the weight.
  lemma AdvanceProgresses(run: seq<Event>, r: nat, env: Env)
    requires r < |Exec(run)| && Exec(run)[r].status.Active() && !AnyItem(Exec(run)[r].items, IsRunning)
    ensures var ro, next := Exec(run)[r], Advance(Exec(run)[r], env).0;
            || !next.status.Active()
            || (Weight(next.items) < Weight(ro.items)
                && exists i :: 0 <= i < |ro.items| && ro.items[i].status.Pending? && !next.items[i].status.Pending?)
  {
    Reachable(run);
    var ro := Exec(run)[r];
    var next := Advance(ro, env).0;
    if AnyItem(ro.items, IsPending) {
      var i := FirstStarted(ro, env);
      AdvanceKept(ro, env);
      WeightFalls(ro.items, next.items);
    } else {
      AdvanceCompletes(ro, env);
    }
  }

  lemma FirstStarted(ro: Rollout, env: Env) returns (i: nat)
    requires RolloutInv(ro) && ro.status.Active()
    requires !AnyItem(ro.items, IsRunning) && AnyItem(ro.items, IsPending)
    ensures i < |ro.items| && ro.items[i].status.Pending? && !Advance(ro, env).0.items[i].status.Pending?
  {
    var running, sel := ro.(status := RRunning), NextItems(ro);
    AdvanceIsStart(ro, env);
    var w := NextItemsIsNextWave(ro);
    StartAllEffect(running, sel, env);
    var done := sel[..Reached(running.items, sel, env)];
    assert done[0] == sel[0];
    i := sel[0];
    assert StartedItem(running, done, env, i) == Started(ro.items[i], env);
  }

  lemma AdvanceCompletes(ro: Rollout, env: Env)
    requires RolloutInv(ro) && ro.status.Active()
    requires !AnyItem(ro.items, IsRunning) && !AnyItem(ro.items, IsPending)
    ensures Advance(ro, env).0.status == RSucceeded
  {
    ActiveHasNoFailure(ro);
    NothingExpires(ro, env.now);
  }

  // How often the status of one item changed in the course of a run.
  function Changes(run: seq<Event>, r: nat, i: nat): nat {
    if run == [] then 0
    else
      var before, after := Exec(run[..|run| - 1]), Exec(run);
      Changes(run[..|run| - 1], r, i)
      + (if r < |before| && i < |before[r].items| && i < |after[r].items| && before[r].items[i].status != after[r].items[i].status
         then 1 else 0)
  }

  // No item changes its status more than twice, however long the run.
  lemma {:induction false} AtMostTwoChanges(run: seq<Event>, r: nat, i: nat)
    ensures Changes(run, r, i) <= 2
    ensures r < |Exec(run)| && i < |Exec(run)[r].items| ==>
              Changes(run, r, i) + StatusWeight(Exec(run)[r].items[i].status) <= 2
    ensures r >= |Exec(run)| ==> Changes(run, r, i) == 0
  {
    if run != [] {
      var before := Exec(run[..|run| - 1]);
      AtMostTwoChanges(run[..|run| - 1], r, i);
      Reachable(run[..|run| - 1]);
      StepKept(before, run[|run| - 1]);
      if r < |before| {
        assert Evolves(before[r], Exec(run)[r]);
        if i < |before[r].items| {
          assert ItemStep(before[r].items[i], Exec(run)[r].items[i]);
        }
      }
    }
  }
}
