/** From the agent's file of unsent results to the master's tables: each result takes effect once. */
module ResultDelivery {
  import Agent = PendingResults
  import opened CommandAnswers
  import opened CommandModel
  import opened CommandSafety
  import opened CommandTheorems
  import opened Wrappers

  // At position `k` of the master's run the result `r` of an agent is handled, for command `id` of its
  // type. `decode` reads a result's payload.
  predicate HandledAt(run: seq<Event>, k: nat, id: nat, agentId: string, r: Agent.Result, decode: int -> TaskResult) {
    && k < |run| && run[k].ResultEvent? && run[k].agentId == agentId && run[k].messageId == r.messageId
    && run[k].result == decode(r.payload)
    && var s := Steps(INITIAL, run[..k]);
       IsOf(s, id, agentId, r.messageId) && DoesTask(s.commands[id].ctype, run[k].result.taskType)
  }

  // The command was still waiting for the result.
  predicate AwaitedAt(run: seq<Event>, k: nat, id: nat, agentId: string, r: Agent.Result, decode: int -> TaskResult) {
    HandledAt(run, k, id, agentId, r, decode) && !Ended(Steps(INITIAL, run[..k]).commands[id].status)
  }

  // The master handles `r`, as often as it likes.
  ghost predicate Handled(run: seq<Event>, agentId: string, r: Agent.Result, decode: int -> TaskResult) {
    exists k: nat, id: nat :: HandledAt(run, k, id, agentId, r, decode)
  }

  predicate Drained(s: Agent.State) { Agent.Stored(s.file) == [] && s.unsaved == [] }

  // The effect of the result on command `id`: its end, and the snapshots of a successful backup whose
  // command has a task.
  ghost predicate TookEffect(run: seq<Event>, k: nat, id: nat, agentId: string)
    requires k < |run| && run[k].ResultEvent?
  {
    var before, after, result := Steps(INITIAL, run[..k]), Steps(INITIAL, run), run[k].result;
    && id < |after.commands|
    && after.commands[id].status == EndStatus(result.status) && after.commands[id].completedAt == Some(run[k].now)
    && (IsBackup(result) && id in before.tasks ==> forall x :: x in result.snapshotIds && x != "" ==> (agentId, x) in after.snapshots)
  }

  // When the agent's file lost nothing and has run empty, a result that was produced has been sent. If
  // the master handled it for its command, among whatever else it did, then the command has ended, and at
  // most one result of it was committed. If it was waiting for any of the deliveries, exactly one was,
  // and that one decided how it ended and left its snapshots for good.
  lemma EachResultTakesEffectOnce(agentRun: seq<Agent.Event>, run: seq<Event>, agentId: string, decode: int -> TaskResult, r: Agent.Result)
      returns (id: nat)
    requires Agent.HarmlessRun(agentRun) && Drained(Agent.Steps(Agent.INITIAL, agentRun))
    requires r in Agent.Steps(Agent.INITIAL, agentRun).produced && r.messageId != ""
    requires r in Agent.Steps(Agent.INITIAL, agentRun).sent ==> Handled(run, agentId, r, decode)
    ensures var s := Steps(INITIAL, run);
            && IsOf(s, id, agentId, r.messageId) && Ended(s.commands[id].status) && multiset(s.commits)[id] <= 1
    ensures forall k: nat :: AwaitedAt(run, k, id, agentId, r, decode) ==>
              multiset(Steps(INITIAL, run).commits)[id] == 1 && TookEffect(run, k, id, agentId)
  {
    ProducedWasSent(agentRun, r);
    var k: nat, found: nat :| HandledAt(run, k, found, agentId, r, decode);
    id := found;
    HandledMeansEnded(run, k, id, agentId, r, decode);
    AlwaysKept(INITIAL, run);
    CommittedOnce(Steps(INITIAL, run).commits, id);
    forall j: nat | AwaitedAt(run, j, id, agentId, r, decode)
      ensures id in Steps(INITIAL, run).commits && TookEffect(run, j, id, agentId)
    {
      AwaitedTakesEffect(run, j, id, agentId, r, decode);
    }
  }

  lemma ProducedWasSent(agentRun: seq<Agent.Event>, r: Agent.Result)
    requires Agent.HarmlessRun(agentRun) && Drained(Agent.Steps(Agent.INITIAL, agentRun))
    requires r in Agent.Steps(Agent.INITIAL, agentRun).produced
    ensures r in Agent.Steps(Agent.INITIAL, agentRun).sent
  {
    Agent.NoResultLost(agentRun);
    var s := Agent.Steps(Agent.INITIAL, agentRun);
    assert r in multiset(s.produced);
    assert r in multiset(s.sent);
  }

  lemma HandledMeansEnded(run: seq<Event>, k: nat, id: nat, agentId: string, r: Agent.Result, decode: int -> TaskResult)
    requires HandledAt(run, k, id, agentId, r, decode) && r.messageId != ""
    ensures var s := Steps(INITIAL, run); IsOf(s, id, agentId, r.messageId) && Ended(s.commands[id].status)
  {
    var before, e, later := Steps(INITIAL, run[..k]), run[k], run[k + 1..];
    AlwaysKept(INITIAL, run[..k]);
    ResultAnswer(before, id, e);
    SplitAt(run, k);
    StepRows(before, e);
    FinishedIsFinal(Step(before, e), later);
    assert RowStep(before.commands[id], Step(before, e).commands[id]);
    assert RowStep(Step(before, e).commands[id], Steps(INITIAL, run).commands[id]);
  }

  lemma AwaitedTakesEffect(run: seq<Event>, k: nat, id: nat, agentId: string, r: Agent.Result, decode: int -> TaskResult)
    requires AwaitedAt(run, k, id, agentId, r, decode) && r.messageId != ""
    ensures id in Steps(INITIAL, run).commits && TookEffect(run, k, id, agentId)
  {
    var before, e, later := Steps(INITIAL, run[..k]), run[k], run[k + 1..];
    var t, after := Step(before, e), Steps(INITIAL, run);
    AlwaysKept(INITIAL, run[..k]);
    ResultAnswer(before, id, e);
    SplitAt(run, k);
    FinishedIsFinal(t, later);
    assert RowStep(t.commands[id], after.commands[id]);
    CommitsStay(t, later);
    assert t.commits[|before.commits|] == id && after.commits[|before.commits|] == id;
    SnapshotsStay(t, later);
  }

  // A snapshot is never taken away.
  lemma {:induction false} SnapshotsStay(s: State, run: seq<Event>)
    ensures s.snapshots <= Steps(s, run).snapshots
  {
    if run != [] {
      SnapshotsStay(s, run[..|run| - 1]);
      SnapshotStays(Steps(s, run[..|run| - 1]), run[|run| - 1]);
    }
  }

  lemma SnapshotStays(s: State, e: Event)
    ensures s.snapshots <= Step(s, e).snapshots
  {
  }

  lemma {:induction false} StepsJoin(s: State, a: seq<Event>, b: seq<Event>)
    ensures Steps(s, a + b) == Steps(Steps(s, a), b)
    decreases |b|
  {
    if b == [] {
      assert a + b == a;
    } else {
      StepsJoin(s, a, b[..|b| - 1]);
      assert (a + b)[..|a + b| - 1] == a + b[..|b| - 1];
    }
  }

  lemma SplitAt(run: seq<Event>, k: nat)
    requires k < |run|
    ensures Steps(INITIAL, run) == Steps(Step(Steps(INITIAL, run[..k]), run[k]), run[k + 1..])
  {
    CutAt(run, k);
    StepsJoin(INITIAL, run[..k + 1], run[k + 1..]);
  }

  lemma CutAt(run: seq<Event>, k: nat)
    requires k < |run|
    ensures run == run[..k + 1] + run[k + 1..] && run[..k + 1][..k] == run[..k]
  {
  }

  // A commit is never taken back.
  lemma {:induction false} CommitsStay(s: State, run: seq<Event>)
    ensures s.commits <= Steps(s, run).commits
  {
    if run != [] {
      var before := Steps(s, run[..|run| - 1]);
      CommitsStay(s, run[..|run| - 1]);
      CommitStays(before, run[|run| - 1]);
    }
  }

  lemma CommitStays(s: State, e: Event)
    ensures s.commits <= Step(s, e).commits
  {
  }

  lemma {:induction false} CommittedOnce(commits: seq<nat>, id: nat)
    requires forall j, k :: 0 <= j < k < |commits| ==> commits[j] != commits[k]
    ensures multiset(commits)[id] == if id in commits then 1 else 0
  {
    if commits != [] {
      var n := |commits| - 1;
      CommittedOnce(commits[..n], id);
      assert commits == commits[..n] + [commits[n]];
    }
  }
}
