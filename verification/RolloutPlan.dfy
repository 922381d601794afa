/** What the wave arithmetic of a rollout plan comes to. */
module RolloutPlan {
  import opened RolloutModel

  // How many items belong to wave `w`: wave 0 is the canary wave, wave k the k-th batch.
  function CountWave(items: seq<Item>, w: nat): nat {
    if items == [] then 0
    else CountWave(items[..|items| - 1], w) + (if items[|items| - 1].InWave(w) then 1 else 0)
  }

  // How many items belong to some wave.
  function Planned(items: seq<Item>): nat {
    if items == [] then 0
    else Planned(items[..|items| - 1]) + (if items[|items| - 1].phase != NoPhase then 1 else 0)
  }

  // The size wave `w` has when `n` agents are cut into a canary wave and batches, each as full
  // as the agents left over allow.
  function WaveSize(n: nat, canaryCount: nat, batchSize: nat, w: nat): nat {
    var capacity := if w == 0 then canaryCount else batchSize;
    var before := if w == 0 then 0 else canaryCount + (w - 1) * batchSize;
    if n <= before then 0 else if n - before <= capacity then n - before else capacity
  }

  lemma QuotientInterval(d: nat, b: nat, k: nat)
    requires b > 0
    ensures d / b == k <==> k * b <= d < k * b + b
  {
    var q := d / b;
    assert q * b <= d < q * b + b;
    if q < k {
      assert (q + 1) * b <= k * b;
    } else if k < q {
      assert (k + 1) * b <= q * b;
    }
  }

  // The wave that the agent of the given rank falls into is the only one that grows.
  lemma WaveOfRank(rank: nat, canaryCount: nat, batchSize: nat, w: nat)
    requires batchSize > 0
    ensures WaveSize(rank + 1, canaryCount, batchSize, w) - WaveSize(rank, canaryCount, batchSize, w)
            == if w == (if rank < canaryCount then 0 else BatchOf(rank, canaryCount, batchSize)) then 1 else 0
  {
    if w > 0 {
      var start := (w - 1) * batchSize;
      if rank >= canaryCount {
        QuotientInterval(rank - canaryCount, batchSize, w - 1);
        assert BatchOf(rank, canaryCount, batchSize) == w <==> start <= rank - canaryCount < start + batchSize;
      } else {
        assert start >= 0;
      }
    }
  }

  lemma {:induction false} PlanCounts(agents: seq<AgentRow>, targetVersion: string, canaryCount: nat, batchSize: nat)
    requires batchSize > 0
    ensures Planned(Plan(agents, targetVersion, canaryCount, batchSize)) == RunnableCount(agents, targetVersion)
  {
    if agents != [] {
      var n := |agents| - 1;
      PlanCounts(agents[..n], targetVersion, canaryCount, batchSize);
      PlanPrefix(agents, targetVersion, canaryCount, batchSize);
    }
  }

  lemma PlanPrefix(agents: seq<AgentRow>, targetVersion: string, canaryCount: nat, batchSize: nat)
    requires agents != [] && batchSize > 0
    ensures Plan(agents, targetVersion, canaryCount, batchSize)[..|agents| - 1]
         == Plan(agents[..|agents| - 1], targetVersion, canaryCount, batchSize)
  {
  }

  // The exact size of every wave of a plan: waves are filled in order, and all but the last one
  // used are full.
  lemma {:induction false} PlanWaveSizes(agents: seq<AgentRow>, targetVersion: string, canaryCount: nat, batchSize: nat, w: nat)
    requires batchSize > 0
    ensures CountWave(Plan(agents, targetVersion, canaryCount, batchSize), w)
         == WaveSize(RunnableCount(agents, targetVersion), canaryCount, batchSize, w)
  {
    if agents != [] {
      var n := |agents| - 1;
      PlanWaveSizes(agents[..n], targetVersion, canaryCount, batchSize, w);
      PlanPrefix(agents, targetVersion, canaryCount, batchSize);
      WaveOfRank(RunnableCount(agents[..n], targetVersion), canaryCount, batchSize, w);
    }
  }
}
