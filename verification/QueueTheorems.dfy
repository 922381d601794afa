/** What holds of the scheduled queue and the task slots in every run. */
module QueueTheorems {
  import opened QueueModel
  import opened QueueSafety
  import opened TaskModel
  import opened Wrappers

  // ---- Tasks ----------------------------------------------------------------------------------

  // At no time are two backups or verifications live, nor two restores.
  lemma ExclusiveTasks(run: seq<Event>, h: nat, k: nat)
    requires var started := Steps(INITIAL, run).tasks.started;
             LiveAt(started, h) && LiveAt(started, k) && h != k
    ensures var started := Steps(INITIAL, run).tasks.started;
            !Exclusive(started[h].taskType, started[k].taskType)
  {
    Reachable(run);
  }

  // A start takes an id that is in the table.
  predicate TakesId(s: State, e: Event) {
    match e
    case StartOther(m, t) => Refusal(s.tasks, t).None? && m in s.tasks.tasks
    case TryStart(w) =>
      w in s.workers && s.workers[w].Starting? && Refusal(s.tasks, Backup).None? && s.workers[w].messageId in s.tasks.tasks
    case _ => false
  }

  predicate DistinctIds(run: seq<Event>) {
    run == [] || (DistinctIds(run[..|run| - 1]) && !TakesId(Steps(INITIAL, run[..|run| - 1]), run[|run| - 1]))
  }

  lemma ExactNext(s: State, e: Event)
    requires Inv(s) && Exact(s.tasks)
    ensures Exact(Step(s, e).tasks) <==> !TakesId(s, e)
  {
    match e
    case StartOther(m, t) => StartKeepsExactIff(s.tasks, m, t, None);
    case FunctionReturns(h) => EndsKeepExact(s.tasks, h);
    case Completes(h) => EndsKeepExact(s.tasks, h);
    case CancelById(m) => CancelFindsLiveTask(s.tasks, m);
    case TryStart(w) =>
      if w in s.workers && s.workers[w].Starting? {
        StartKeepsExactIff(s.tasks, s.workers[w].messageId, Backup, Some(s.workers[w].job));
      }
    case _ =>
  }

  lemma {:induction false} ExactWhileDistinct(run: seq<Event>)
    requires DistinctIds(run)
    ensures Exact(Steps(INITIAL, run).tasks)
  {
    if run != [] {
      ExactWhileDistinct(run[..|run| - 1]);
      Reachable(run[..|run| - 1]);
      ExactNext(Steps(INITIAL, run[..|run| - 1]), run[|run| - 1]);
    }
  }

  // In every run in which no start takes an id that is in the table, every live task can be cancelled
  // by its id, and a cancel request cancels that one alone. The first start that does take one puts a
  // live task out of reach.
  lemma LiveTasksCanBeCancelled(run: seq<Event>, m: string)
    requires DistinctIds(run)
    ensures var s := Steps(INITIAL, run).tasks;
            && (Cancels(s, m) <==> exists h: nat :: LiveAt(s.started, h) && s.started[h].messageId == m)
            && forall h :: 0 <= h < |s.started| ==>
                 CancelTask(s, m).started[h].cancelled == (s.started[h].cancelled || (s.started[h].Live() && s.started[h].messageId == m))
  {
    Reachable(run);
    ExactWhileDistinct(run);
    CancelFindsLiveTask(Steps(INITIAL, run).tasks, m);
  }

  lemma TakenIdHidesTask(run: seq<Event>, e: Event)
    requires DistinctIds(run)
    ensures Exact(Step(Steps(INITIAL, run), e).tasks) <==> !TakesId(Steps(INITIAL, run), e)
  {
    Reachable(run);
    ExactWhileDistinct(run);
    ExactNext(Steps(INITIAL, run), e);
  }

  // ---- The worker -----------------------------------------------------------------------------

  // Anything queued or pending has one live worker to serve it, and there is never a second.
  lemma NoLostWakeup(run: seq<Event>)
    ensures var s := Steps(INITIAL, run);
            && (s.queue != [] || s.pending != {} ==> exists w :: s.workers.Keys == {w})
            && (forall w, v :: w in s.workers && v in s.workers ==> w == v)
            && (s.workerRunning <==> s.workers != map[])
  {
    Reachable(run);
    var s := Steps(INITIAL, run);
    assert !s.workerRunning ==> Open(s) == [] && s.pending == {};
    assert s.workerRunning ==> Last(s) in s.workers;
  }

  // A trigger is dropped exactly when a job of the same schedule was accepted and has not ended;
  // the open jobs all have different schedules.
  lemma DroppedIffPending(run: seq<Event>, job: Job)
    ensures var s := Steps(INITIAL, run);
            && |s.ended| <= |s.accepted| && Open(s) == s.accepted[|s.ended|..]
            && DistinctKeys(Open(s))
            && (Step(s, Trigger(job)) == s <==> exists i :: |s.ended| <= i < |s.accepted| && s.accepted[i].key == job.key)
  {
    Reachable(run);
    var s := Steps(INITIAL, run);
    assert Step(s, Trigger(job)) != s ==> job.key !in s.pending;
    assert job.key !in s.pending ==> |Step(s, Trigger(job)).accepted| == |s.accepted| + 1;
    assert forall i :: 0 <= i < |Open(s)| ==> Open(s)[i] == s.accepted[|s.ended| + i];
    assert job.key in s.pending <==> exists i :: 0 <= i < |Open(s)| && Open(s)[i].key == job.key;
  }

  // An accepted trigger goes to the end of the queue, and calls for a worker when there is none.
  lemma TriggerAnswer(run: seq<Event>, job: Job)
    requires forall i :: |Steps(INITIAL, run).ended| <= i < |Steps(INITIAL, run).accepted| ==> Steps(INITIAL, run).accepted[i].key != job.key
    ensures var s, r := Steps(INITIAL, run), Step(Steps(INITIAL, run), Trigger(job));
            && r.queue == s.queue + [job] && r.accepted == s.accepted + [job] && r.pending == s.pending + {job.key}
            && r.tasks == s.tasks && r.ended == s.ended && r.workerRunning
            && (s.workers != map[] ==> r.workers == s.workers)
            && (s.workers == map[] ==> exists w :: r.workers == map[w := Looking])
  {
    DroppedIffPending(run, job);
    NoLostWakeup(run);
  }

  // What the worker does next with what it has: it takes the first job, gets an id or gives the job up,
  // starts the backup once no backup or verification is live, waits until its function has returned, and
  // then clears the schedule. With nothing queued it ends.
  lemma WorkerAnswer(run: seq<Event>, w: nat, id: Option<string>)
    requires w in Steps(INITIAL, run).workers
    ensures var s := Steps(INITIAL, run);
            match s.workers[w]
            case Looking =>
              Step(s, Look(w)) == if s.queue == [] then s.(workerRunning := false, workers := map[])
                                  else s.(queue := s.queue[1..], workers := map[w := Taken(s.queue[0])])
            case Taken(job) =>
              Step(s, GetId(w, id)) == s.(workers := map[w := if id == None then Clearing(job, NoId) else Starting(job, id.value)])
            case Starting(job, m) =>
              var r := Step(s, TryStart(w));
              if exists h: nat :: LiveAt(s.tasks.started, h) && Exclusive(Backup, s.tasks.started[h].taskType) then r == s
              else
                && r == s.(tasks := r.tasks, workers := map[w := Waiting(job, |s.tasks.started|)])
                && r.tasks.started == s.tasks.started + [Goroutine(m, Backup, Some(job), Phase.Running, false)]
                && r.tasks.tasks == s.tasks.tasks[m := |s.tasks.started|]
            case Waiting(job, h) =>
              && h < |s.tasks.started|
              && Step(s, Wake(w)) == if s.tasks.started[h].phase == Phase.Running then s else s.(workers := map[w := Clearing(job, Ran(h))])
            case Clearing(job, outcome) =>
              Step(s, Clear(w)) == s.(pending := s.pending - {job.key}, workers := map[w := Looking], ended := s.ended + [Ended(job, outcome)])
  {
    Reachable(run);
    NoLostWakeup(run);
    var s := Steps(INITIAL, run);
    OnlyWorker(s.workers, w);
    match s.workers[w]
    case Starting(job, m) => StartAnswer(s.tasks, m, Backup, Some(job));
    case Waiting(job, h) => assert WorkerOk(s.tasks.started, s.workers[w]);
    case _ =>
  }

  lemma OnlyWorker(workers: map<nat, Worker>, w: nat)
    requires w in workers && forall v, u :: v in workers && u in workers ==> v == u
    ensures workers - {w} == map[] && forall x: Worker :: workers[w := x] == map[w := x]
  {
  }

  // Tasks come and go beside the queue, and are cancelled, as the task manager has it.
  lemma TasksAnswer(s: State, m: string, t: TaskType, h: nat)
    ensures Step(s, StartOther(m, t)) == s.(tasks := StartTask(s.tasks, m, t, None))
    ensures Step(s, FunctionReturns(h)) == s.(tasks := ReturnTask(s.tasks, h))
    ensures Step(s, Completes(h)) == s.(tasks := ReleaseTask(s.tasks, h))
    ensures Step(s, CancelById(m)) == s.(tasks := CancelTask(s.tasks, m))
  {
  }

  // ---- Order ----------------------------------------------------------------------------------

  // Jobs end in the order in which they were accepted, and the backup that ran for the i-th was
  // started for the i-th.
  lemma ServedInOrder(run: seq<Event>, i: nat)
    requires i < |Steps(INITIAL, run).ended|
    ensures var s := Steps(INITIAL, run);
            && i < |s.accepted| && s.ended[i].job == s.accepted[i]
            && (s.ended[i].outcome.Ran? ==> RanFor(s.tasks.started, s.ended[i].outcome.handle, s.accepted[i]))
  {
    Reachable(run);
    var s := Steps(INITIAL, run);
    assert s.accepted[i] == Jobs(s.ended)[i];
    assert EndedOk(s.tasks.started, s.ended[i]);
  }

  // Each backup the queue started is the run of one ended job or of the job in progress.
  lemma EveryRunIsOneJobs(run: seq<Event>)
    ensures var s := Steps(INITIAL, run);
            && Scheduled(s.tasks.started) == Handles(s.ended) + CurrentHandle(s.workers, Last(s))
            && forall i, j :: 0 <= i < j < |s.ended| && s.ended[i].outcome.Ran? && s.ended[j].outcome.Ran? ==>
                 s.ended[i].outcome.handle < s.ended[j].outcome.handle
  {
    Reachable(run);
    var s := Steps(INITIAL, run);
    ScheduledIncreasing(s.tasks.started);
    var handles, all := Handles(s.ended), Scheduled(s.tasks.started);
    assert forall i :: 0 <= i < |handles| ==> handles[i] == all[i];
    HandlesOrdered(s.ended);
  }

  predicate Increasing(hs: seq<nat>) { forall i, j :: 0 <= i < j < |hs| ==> hs[i] < hs[j] }

  lemma {:induction false} ScheduledIncreasing(started: seq<Goroutine>)
    ensures Increasing(Scheduled(started))
    ensures forall i :: 0 <= i < |Scheduled(started)| ==> Scheduled(started)[i] < |started|
  {
    if started != [] {
      ScheduledIncreasing(started[..|started| - 1]);
    }
  }

  lemma {:induction false} HandlesOrdered(ended: seq<Ended>)
    requires Increasing(Handles(ended))
    ensures forall i, j :: 0 <= i < j < |ended| && ended[i].outcome.Ran? && ended[j].outcome.Ran? ==>
              ended[i].outcome.handle < ended[j].outcome.handle
    ensures forall i :: 0 <= i < |ended| && ended[i].outcome.Ran? ==> ended[i].outcome.handle in Handles(ended)
  {
    if ended != [] {
      var n := |ended| - 1;
      var rest := Handles(ended[..n]);
      assert rest <= Handles(ended);
      assert forall i :: 0 <= i < |rest| ==> rest[i] == Handles(ended)[i];
      HandlesOrdered(ended[..n]);
      forall i | 0 <= i < n && ended[i].outcome.Ran?
        ensures ended[i].outcome.handle in rest
      {
        assert ended[..n][i] == ended[i];
      }
      if ended[n].outcome.Ran? {
        assert Handles(ended)[|rest|] == ended[n].outcome.handle;
      }
    }
  }

  // ---- Accounts -------------------------------------------------------------------------------

  function CountJobs(jobs: seq<Job>, key: string): nat {
    if jobs == [] then 0
    else CountJobs(jobs[..|jobs| - 1], key) + if jobs[|jobs| - 1].key == key then 1 else 0
  }

  function CountEnded(ended: seq<Ended>, key: string, ran: bool): nat {
    if ended == [] then 0
    else
      var last := ended[|ended| - 1];
      CountEnded(ended[..|ended| - 1], key, ran) + if last.job.key == key && last.outcome.Ran? == ran then 1 else 0
  }

  lemma {:induction false} CountSplits(a: seq<Job>, b: seq<Job>, key: string)
    ensures CountJobs(a + b, key) == CountJobs(a, key) + CountJobs(b, key)
    decreases |b|
  {
    if b == [] {
      assert a + b == a;
    } else {
      CountSplits(a, b[..|b| - 1], key);
      assert (a + b)[..|a + b| - 1] == a + b[..|b| - 1];
    }
  }

  lemma {:induction false} CountOfEnded(ended: seq<Ended>, key: string)
    ensures CountJobs(Jobs(ended), key) == CountEnded(ended, key, true) + CountEnded(ended, key, false)
  {
    if ended != [] {
      CountOfEnded(ended[..|ended| - 1], key);
      assert Jobs(ended)[..|ended| - 1] == Jobs(ended[..|ended| - 1]);
    }
  }

  lemma {:induction false} CountOfDistinct(jobs: seq<Job>, key: string)
    requires DistinctKeys(jobs)
    ensures CountJobs(jobs, key) == if key in KeysOf(jobs) then 1 else 0
  {
    if jobs != [] {
      var n := |jobs| - 1;
      CountOfDistinct(jobs[..n], key);
      assert KeysOf(jobs) == KeysOf(jobs[..n]) + {jobs[n].key} by {
        assert forall i :: 0 <= i < n ==> jobs[..n][i] == jobs[i];
      }
    }
  }

  // Of the triggers of a schedule that were accepted, each ran once, failed to get an id, or is the
  // one still pending.
  lemma TriggersAccountedFor(run: seq<Event>, key: string)
    ensures var s := Steps(INITIAL, run);
            CountJobs(s.accepted, key) == CountEnded(s.ended, key, true) + CountEnded(s.ended, key, false)
                                          + if key in s.pending then 1 else 0
  {
    Reachable(run);
    var s := Steps(INITIAL, run);
    CountSplits(Jobs(s.ended), Open(s), key);
    CountOfEnded(s.ended, key);
    CountOfDistinct(Open(s), key);
  }

  // ---- Progress -------------------------------------------------------------------------------

  function PhaseWeight(g: Goroutine): nat {
    match g.phase
    case Running => 2
    case Returned => 1
    case Released => 0
  }

  function LiveWeight(started: seq<Goroutine>): nat {
    if started == [] then 0 else LiveWeight(started[..|started| - 1]) + PhaseWeight(started[|started| - 1])
  }

  lemma {:induction false} WeightOfUpdate(started: seq<Goroutine>, h: nat, g: Goroutine)
    requires h < |started|
    ensures LiveWeight(started[h := g]) + PhaseWeight(started[h]) == LiveWeight(started) + PhaseWeight(g)
  {
    var n := |started| - 1;
    if h == n {
      assert started[h := g][..n] == started[..n];
    } else {
      WeightOfUpdate(started[..n], h, g);
      assert started[h := g][..n] == started[..n][h := g];
    }
  }

  function WorkerWeight(w: Worker): nat {
    match w
    case Looking => 1
    case Taken(_) => 7
    case Starting(_, _) => 6
    case Waiting(_, _) => 3
    case Clearing(_, _) => 2
  }

  function WorkLeft(s: State): nat {
    7 * |s.queue| + LiveWeight(s.tasks.started) + if Last(s) in s.workers then WorkerWeight(s.workers[Last(s)]) else 0
  }

  // What can happen next to bring the worker on: a move of its own, or the end of the task it waits
  // for or is refused for.
  lemma NextMove(s: State, id: string) returns (e: Event)
    requires Inv(s) && s.workerRunning
    ensures !e.Trigger? && !e.StartOther? && !e.CancelById?
    ensures WorkLeft(Step(s, e)) < WorkLeft(s)
  {
    var w := Last(s);
    match s.workers[w]
    case Looking =>
      e := Look(w);
    case Taken(_) =>
      e := GetId(w, Some(id));
    case Clearing(_, _) =>
      e := Clear(w);
    case Waiting(job, h) =>
      assert WorkerOk(s.tasks.started, s.workers[w]);
      if s.tasks.started[h].phase.Running? {
        e := FunctionReturns(h);
        EndWeighsLess(s.tasks, h);
      } else {
        e := Wake(w);
      }
    case Starting(job, m) =>
      if Refusal(s.tasks, Backup).Some? {
        RefusedIffConflicting(s.tasks, Backup);
        var h: nat :| LiveAt(s.tasks.started, h) && Exclusive(Backup, s.tasks.started[h].taskType);
        e := if s.tasks.started[h].phase.Running? then FunctionReturns(h) else Completes(h);
        EndWeighsLess(s.tasks, h);
      } else {
        e := TryStart(w);
        var after := Step(s, e).tasks.started;
        assert after[..|after| - 1] == s.tasks.started;
      }
  }

  lemma EndWeighsLess(s: Tasks, h: nat)
    requires LiveAt(s.started, h)
    ensures IsIn(s, h, Running) ==> LiveWeight(ReturnTask(s, h).started) < LiveWeight(s.started)
    ensures IsIn(s, h, Returned) ==> LiveWeight(ReleaseTask(s, h).started) < LiveWeight(s.started)
  {
    WeightOfUpdate(s.started, h, s.started[h].(phase := Returned));
    WeightOfUpdate(s.started, h, s.started[h].(phase := Released));
  }

  // From every reachable state in which a worker is live, tasks ending and the worker moving on lead
  // to a state in which every accepted trigger has ended: none can be stranded.
  lemma {:induction false} QueueCanDrain(s: State) returns (run: seq<Event>)
    requires Inv(s)
    ensures forall e :: e in run ==> !e.Trigger? && !e.StartOther? && !e.CancelById?
    ensures var after := Steps(s, run);
            !after.workerRunning && after.pending == {} && Jobs(after.ended) == after.accepted && after.accepted == s.accepted
    decreases WorkLeft(s)
  {
    if !s.workerRunning {
      run := [];
      assert Open(s) == [];
    } else {
      var e := NextMove(s, "id");
      StepKept(s, e);
      AcceptedStays(s, e);
      var rest := QueueCanDrain(Step(s, e));
      run := [e] + rest;
      StepsFrom(s, e, rest);
    }
  }

  lemma AcceptedStays(s: State, e: Event)
    requires !e.Trigger?
    ensures Step(s, e).accepted == s.accepted
  {
  }

  lemma {:induction false} StepsFrom(s: State, e: Event, rest: seq<Event>)
    ensures Steps(s, [e] + rest) == Steps(Step(s, e), rest)
  {
    var run := [e] + rest;
    if rest == [] {
      assert run == [e] && run[..0] == [];
    } else {
      StepsFrom(s, e, rest[..|rest| - 1]);
      assert run[..|run| - 1] == [e] + rest[..|rest| - 1];
    }
  }
}
