/** The scheduled queue over its fields. */
module QueueService {
  import opened QueueModel
  import opened TaskModel
  import opened Wrappers

  class ScheduledBackups {
    var scheduledQueue: seq<Job>
    var scheduledPending: set<string>
    var scheduledWorkerRunning: bool
    const tasks: TaskManager
    ghost var workers: map<nat, Worker>
    ghost var spawned: nat
    ghost var accepted: seq<Job>
    ghost var ended: seq<Ended>

    ghost function View(): State
      reads this, tasks
    {
      State(scheduledQueue, scheduledPending, scheduledWorkerRunning, workers, spawned, tasks.View(), accepted, ended)
    }

    constructor ()
      ensures View() == INITIAL
      ensures fresh(tasks)
    {
      scheduledQueue, scheduledPending, scheduledWorkerRunning := [], {}, false;
      workers, spawned, accepted, ended := map[], 0, [], [];
      tasks := new TaskManager();
    }

    // `spawn` asks the caller to start a worker.
    method StartScheduledBackup(job: Job) returns (spawn: bool)
      modifies this
      ensures View() == Step(old(View()), Trigger(job))
      ensures spawn <==> old(job.key !in scheduledPending && !scheduledWorkerRunning)
    {
      if job.key in scheduledPending {
        return false;
      }
      scheduledPending := scheduledPending + {job.key};
      scheduledQueue := scheduledQueue + [job];
      accepted := accepted + [job];
      if scheduledWorkerRunning {
        return false;
      }
      scheduledWorkerRunning := true;
      workers := workers[spawned := Looking];
      spawned := spawned + 1;
      return true;
    }

    method TakeJob(ghost w: nat) returns (job: Option<Job>)
      requires w in workers && workers[w].Looking?
      modifies this
      ensures View() == Step(old(View()), Look(w))
      ensures job == if old(scheduledQueue) == [] then None else Some(old(scheduledQueue)[0])
    {
      if scheduledQueue == [] {
        scheduledWorkerRunning := false;
        workers := workers - {w};
        return None;
      }
      job := Some(scheduledQueue[0]);
      scheduledQueue := scheduledQueue[1..];
      workers := workers[w := Taken(job.value)];
    }

    // One attempt of the worker to start the backup of the job it took.
    method TryStartBackup(ghost w: nat, job: Job, messageId: string, handle: nat) returns (r: Option<TaskError>)
      requires w in workers && workers[w] == Starting(job, messageId) && handle == |tasks.started|
      modifies this`workers, tasks
      ensures View() == Step(old(View()), TryStart(w))
      ensures r == Refusal(old(tasks.View()), Backup)
    {
      r := tasks.Start(messageId, Backup, handle, Some(job));
      if r.None? {
        workers := workers[w := Waiting(job, handle)];
      }
    }

    method ClearPendingKey(ghost w: nat, job: Job, ghost outcome: Outcome)
      requires w in workers && workers[w] == Clearing(job, outcome)
      modifies this
      ensures View() == Step(old(View()), Clear(w))
    {
      scheduledPending := scheduledPending - {job.key};
      workers := workers[w := Looking];
      ended := ended + [Ended(job, outcome)];
    }

    // The worker's loop when nothing comes in between: no trigger, and no other backup or
    // verification. `ids` are the message ids it gets, `handle` numbers the first backup.
    method RunScheduledBackupQueue(ghost w: nat, ids: seq<Option<string>>, handle: nat)
      requires w in workers && workers[w].Looking? && handle == |tasks.started|
      requires Refusal(tasks.View(), Backup).None? && |ids| >= |scheduledQueue|
      modifies this, tasks
      ensures scheduledQueue == [] && !scheduledWorkerRunning && workers == old(workers) - {w}
      ensures scheduledPending == old(scheduledPending) - KeysOf(old(scheduledQueue))
      ensures Jobs(ended) == Jobs(old(ended)) + old(scheduledQueue)
      ensures forall i :: 0 <= i < |old(scheduledQueue)| ==>
                (ended[|old(ended)| + i].outcome.NoId? <==> ids[i].None?)
      ensures Refusal(tasks.View(), Backup).None? && spawned == old(spawned) && accepted == old(accepted)
    {
      var served, next := 0, handle;
      while true
        invariant served <= |old(scheduledQueue)| && scheduledQueue == old(scheduledQueue)[served..]
        invariant w in workers && workers[w].Looking? && workers - {w} == old(workers) - {w}
        invariant next == |tasks.started| && Refusal(tasks.View(), Backup).None?
        invariant scheduledPending == old(scheduledPending) - KeysOf(old(scheduledQueue)[..served])
        invariant Jobs(ended) == Jobs(old(ended)) + old(scheduledQueue)[..served]
        invariant forall i :: 0 <= i < served ==> (ended[|old(ended)| + i].outcome.NoId? <==> ids[i].None?)
        invariant spawned == old(spawned) && accepted == old(accepted)
        decreases |scheduledQueue|
      {
        var job := TakeJob(w);
        if job.None? {
          break;
        }
        ghost var before := ended;
        next := Serve(w, job.value, ids[served], next);
        served := served + 1;
        TakeOneMore(old(scheduledQueue), served);
        JobsAppend(before, ended[|before|]);
      }
    }

    // What the worker does with one job when nothing comes in between.
    method Serve(ghost w: nat, job: Job, id: Option<string>, handle: nat) returns (next: nat)
      requires w in workers && workers[w] == Taken(job) && handle == |tasks.started|
      requires Refusal(tasks.View(), Backup).None?
      modifies this, tasks
      ensures workers == old(workers)[w := Looking] && scheduledQueue == old(scheduledQueue)
      ensures scheduledWorkerRunning == old(scheduledWorkerRunning) && spawned == old(spawned) && accepted == old(accepted)
      ensures scheduledPending == old(scheduledPending) - {job.key}
      ensures ended == old(ended) + [Ended(job, if id.None? then NoId else Ran(handle))]
      ensures next == |tasks.started| && Refusal(tasks.View(), Backup).None?
    {
      next := handle;
      if id.None? {
        workers := workers[w := Clearing(job, NoId)];
        ClearPendingKey(w, job, NoId);
        return;
      }
      workers := workers[w := Starting(job, id.value)];
      var refused := TryStartBackup(w, job, id.value, handle);
      tasks.FunctionReturns(handle);
      workers := workers[w := Clearing(job, Ran(handle))];
      tasks.Complete(id.value, Backup, handle);
      ClearPendingKey(w, job, Ran(handle));
      next := handle + 1;
    }
  }

  lemma JobsAppend(ended: seq<Ended>, e: Ended)
    ensures Jobs(ended + [e]) == Jobs(ended) + [e.job]
  {
  }

  lemma TakeOneMore(jobs: seq<Job>, n: nat)
    requires 0 < n <= |jobs|
    ensures jobs[..n] == jobs[..n - 1] + [jobs[n - 1]]
    ensures KeysOf(jobs[..n]) == KeysOf(jobs[..n - 1]) + {jobs[n - 1].key}
  {
    assert forall i :: 0 <= i < n - 1 ==> jobs[..n - 1][i] == jobs[..n][i];
    assert jobs[..n][n - 1] == jobs[n - 1];
  }
}
