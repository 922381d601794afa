/** What every critical section of the scheduled queue keeps. */
module QueueSafety {
  import opened QueueModel
  import opened TaskModel
  import opened Wrappers

  // One worker while the flag is up, the one spawned last; none while it is down, and then nothing
  // is queued.
  predicate OneWorker(s: State) {
    if s.workerRunning then s.spawned > 0 && s.workers.Keys == {Last(s)} else s.workers == map[] && s.queue == []
  }

  predicate DistinctKeys(jobs: seq<Job>) {
    forall i, j :: 0 <= i < j < |jobs| ==> jobs[i].key != jobs[j].key
  }

  predicate QueueAgrees(s: State) {
    && DistinctKeys(Open(s))
    && s.pending == KeysOf(Open(s))
    && s.accepted == Jobs(s.ended) + Open(s)
  }

  predicate StartedFor(started: seq<Goroutine>, h: nat, job: Job) {
    h < |started| && started[h].job == Some(job) && started[h].taskType.Backup?
  }

  predicate RanFor(started: seq<Goroutine>, h: nat, job: Job) {
    StartedFor(started, h, job) && !started[h].phase.Running?
  }

  predicate WorkerOk(started: seq<Goroutine>, w: Worker) {
    match w
    case Waiting(job, h) => StartedFor(started, h, job)
    case Clearing(job, Ran(h)) => RanFor(started, h, job)
    case _ => true
  }

  predicate EndedOk(started: seq<Goroutine>, e: Ended) { e.outcome.Ran? ==> RanFor(started, e.outcome.handle, e.job) }

  predicate RunsAgree(s: State) {
    && (forall w :: w in s.workers ==> WorkerOk(s.tasks.started, s.workers[w]))
    && (forall i :: 0 <= i < |s.ended| ==> EndedOk(s.tasks.started, s.ended[i]))
    && Scheduled(s.tasks.started) == Handles(s.ended) + CurrentHandle(s.workers, Last(s))
  }

  ghost predicate Inv(s: State) { OneWorker(s) && QueueAgrees(s) && RunsAgree(s) && TasksInv(s.tasks) }

  // ---- The tasks ------------------------------------------------------------------------------

  // Whatever happens to tasks, those already started stay what they were started for, and none
  // that has returned runs again.
  predicate TasksAdvance(before: seq<Goroutine>, after: seq<Goroutine>) {
    && |before| <= |after|
    && forall h :: 0 <= h < |before| ==>
         && after[h].job == before[h].job && after[h].taskType == before[h].taskType
         && (!before[h].phase.Running? ==> !after[h].phase.Running?)
  }

  lemma {:induction false} SameJobsSameSchedule(a: seq<Goroutine>, b: seq<Goroutine>)
    requires |a| == |b|
    requires forall h :: 0 <= h < |a| ==> a[h].job == b[h].job
    ensures Scheduled(a) == Scheduled(b)
  {
    if a != [] {
      SameJobsSameSchedule(a[..|a| - 1], b[..|b| - 1]);
    }
  }

  lemma OtherTasksKept(s: State, tasks: Tasks)
    requires Inv(s) && TasksInv(tasks)
    requires TasksAdvance(s.tasks.started, tasks.started)
    requires Scheduled(tasks.started) == Scheduled(s.tasks.started)
    ensures Inv(s.(tasks := tasks))
  {
    var after := s.(tasks := tasks);
    assert Open(after) == Open(s);
    forall i | 0 <= i < |s.ended|
      ensures EndedOk(tasks.started, s.ended[i])
    {
      assert EndedOk(s.tasks.started, s.ended[i]);
    }
    forall w | w in s.workers
      ensures WorkerOk(tasks.started, s.workers[w])
    {
      assert WorkerOk(s.tasks.started, s.workers[w]);
    }
  }

  lemma OtherStartKept(s: State, m: string, t: TaskType)
    requires Inv(s)
    ensures Inv(s.(tasks := StartTask(s.tasks, m, t, None)))
  {
    var tasks := StartTask(s.tasks, m, t, None);
    StartKept(s.tasks, m, t, None);
    assert Refusal(s.tasks, t).None? ==> tasks.started[..|s.tasks.started|] == s.tasks.started;
    OtherTasksKept(s, tasks);
  }

  lemma ReturnsKept(s: State, h: nat)
    requires Inv(s)
    ensures Inv(s.(tasks := ReturnTask(s.tasks, h)))
  {
    ReturnKept(s.tasks, h);
    SameJobsSameSchedule(s.tasks.started, ReturnTask(s.tasks, h).started);
    OtherTasksKept(s, ReturnTask(s.tasks, h));
  }

  lemma CompletesKept(s: State, h: nat)
    requires Inv(s)
    ensures Inv(s.(tasks := ReleaseTask(s.tasks, h)))
  {
    ReleaseKept(s.tasks, h);
    SameJobsSameSchedule(s.tasks.started, ReleaseTask(s.tasks, h).started);
    OtherTasksKept(s, ReleaseTask(s.tasks, h));
  }

  lemma CancelsKept(s: State, m: string)
    requires Inv(s)
    ensures Inv(s.(tasks := CancelTask(s.tasks, m)))
  {
    CancelKept(s.tasks, m);
    SameJobsSameSchedule(s.tasks.started, CancelTask(s.tasks, m).started);
    OtherTasksKept(s, CancelTask(s.tasks, m));
  }

  // ---- The queue ------------------------------------------------------------------------------

  lemma TriggerKept(s: State, job: Job)
    requires Inv(s)
    ensures Inv(Accept(s, job))
  {
    var after := Accept(s, job);
    if job.key !in s.pending {
      assert Open(after) == Open(s) + [job];
      assert forall i :: 0 <= i < |Open(s)| ==> Open(s)[i].key in s.pending;
      assert after.accepted == Jobs(s.ended) + Open(after);
      assert KeysOf(Open(after)) == KeysOf(Open(s)) + {job.key} by {
        assert Open(after)[|Open(s)|] == job;
        assert forall i :: 0 <= i < |Open(s)| ==> Open(after)[i] == Open(s)[i];
      }
    }
  }

  lemma LookKept(s: State, w: nat)
    requires Inv(s) && w in s.workers && s.workers[w].Looking?
    ensures Inv(TakeNext(s, w))
  {
    var after := TakeNext(s, w);
    assert w == Last(s);
    if s.queue == [] {
      assert after.workers == map[];
    }
    assert Open(after) == Open(s);
  }

  lemma GetIdKept(s: State, e: Event)
    requires Inv(s) && e.GetId? && e.worker in s.workers && s.workers[e.worker].Taken?
    ensures Inv(Step(s, e))
  {
    assert e.worker == Last(s);
    assert Open(Step(s, e)) == Open(s);
  }

  lemma TryStartKept(s: State, w: nat)
    requires Inv(s) && w in s.workers && s.workers[w].Starting?
    ensures Inv(StartBackup(s, w, s.workers[w].job, s.workers[w].messageId))
  {
    var job, m := s.workers[w].job, s.workers[w].messageId;
    var after := StartBackup(s, w, job, m);
    assert w == Last(s);
    if Refusal(s.tasks, Backup).None? {
      StartKept(s.tasks, m, Backup, Some(job));
      assert Open(after) == Open(s);
      assert after.tasks.started[..|s.tasks.started|] == s.tasks.started;
      assert forall i :: 0 <= i < |s.ended| ==> EndedOk(s.tasks.started, s.ended[i]);
    }
  }

  lemma WakeKept(s: State, e: Event)
    requires Inv(s) && e.Wake? && e.worker in s.workers && s.workers[e.worker].Waiting?
    ensures Inv(Step(s, e))
  {
    assert e.worker == Last(s);
    assert WorkerOk(s.tasks.started, s.workers[e.worker]);
    assert Open(Step(s, e)) == Open(s);
  }

  lemma ClearKept(s: State, w: nat)
    requires Inv(s) && w in s.workers && s.workers[w].Clearing?
    ensures Inv(ClearPending(s, w, s.workers[w].job, s.workers[w].outcome))
  {
    ClearKeepsQueue(s, s.workers[w].job, s.workers[w].outcome);
    ClearKeepsRuns(s, s.workers[w].job, s.workers[w].outcome);
  }

  lemma ClearKeepsQueue(s: State, job: Job, outcome: Outcome)
    requires OneWorker(s) && QueueAgrees(s) && Last(s) in s.workers && s.workers[Last(s)] == Clearing(job, outcome)
    ensures QueueAgrees(ClearPending(s, Last(s), job, outcome))
  {
    var after := ClearPending(s, Last(s), job, outcome);
    assert Open(s) == [job] + s.queue && Open(after) == s.queue;
    assert Jobs(after.ended) == Jobs(s.ended) + [job];
    HeadLeaves(job, s.queue);
  }

  lemma HeadLeaves(job: Job, rest: seq<Job>)
    requires DistinctKeys([job] + rest)
    ensures DistinctKeys(rest)
    ensures KeysOf([job] + rest) - {job.key} == KeysOf(rest)
  {
    var all := [job] + rest;
    assert forall i :: 0 <= i < |rest| ==> all[i + 1] == rest[i];
    assert all[0] == job;
    assert KeysOf(all) == {job.key} + KeysOf(rest);
  }

  lemma ClearKeepsRuns(s: State, job: Job, outcome: Outcome)
    requires RunsAgree(s) && Last(s) in s.workers && s.workers[Last(s)] == Clearing(job, outcome)
    ensures RunsAgree(ClearPending(s, Last(s), job, outcome))
  {
    var after := ClearPending(s, Last(s), job, outcome);
    assert WorkerOk(s.tasks.started, s.workers[Last(s)]);
    assert forall i :: 0 <= i < |s.ended| ==> EndedOk(s.tasks.started, s.ended[i]);
    assert after.ended[..|s.ended|] == s.ended;
  }

  lemma StepKept(s: State, e: Event)
    requires Inv(s)
    ensures Inv(Step(s, e))
  {
    match e
    case Trigger(job) => TriggerKept(s, job);
    case StartOther(m, t) => OtherStartKept(s, m, t);
    case FunctionReturns(h) => ReturnsKept(s, h);
    case Completes(h) => CompletesKept(s, h);
    case CancelById(m) => CancelsKept(s, m);
    case _ =>
      if e.worker in s.workers {
        MoveKept(s, e);
      }
  }

  lemma MoveKept(s: State, e: Event)
    requires Inv(s)
    requires e.Look? || e.GetId? || e.TryStart? || e.Wake? || e.Clear?
    requires e.worker in s.workers
    ensures Inv(Move(s, e.worker, e))
  {
    match s.workers[e.worker]
    case Looking => if e.Look? { LookKept(s, e.worker); }
    case Taken(_) => if e.GetId? { GetIdKept(s, e); }
    case Starting(_, _) => if e.TryStart? { TryStartKept(s, e.worker); }
    case Waiting(_, _) => if e.Wake? { WakeKept(s, e); }
    case Clearing(_, _) => if e.Clear? { ClearKept(s, e.worker); }
  }

  lemma {:induction false} Reachable(run: seq<Event>)
    ensures Inv(Steps(INITIAL, run))
  {
    if run == [] {
      assert Open(INITIAL) == [] && Jobs([]) == [];
    } else {
      Reachable(run[..|run| - 1]);
      StepKept(Steps(INITIAL, run[..|run| - 1]), run[|run| - 1]);
    }
  }
}
