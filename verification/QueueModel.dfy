/**
 The queue of backups that schedules trigger, and the one goroutine that serves it.

 Every event is one critical section, or one thing that happens between two of them: a worker gets a
 message id, tries to start a backup, wakes when the backup's function has returned. Other tasks
 start, return and complete at any time in between.
 */
module QueueModel {
  import opened TaskModel
  import opened Wrappers

  datatype Outcome = Ran(handle: nat) | NoId

  datatype Ended = Ended(job: Job, outcome: Outcome)

  // How far a worker has come with the job it took.
  datatype Worker =
    | Looking
    | Taken(job: Job)
    | Starting(job: Job, messageId: string)
    | Waiting(job: Job, handle: nat)
    | Clearing(job: Job, outcome: Outcome)

  // `workers` are the live workers, numbered as they are spawned. `accepted` lists the triggers that
  // entered the queue, `ended` the jobs no longer pending, each with what became of it.
  datatype State = State(
    queue: seq<Job>,
    pending: set<string>,
    workerRunning: bool,
    workers: map<nat, Worker>,
    spawned: nat,
    tasks: Tasks,
    accepted: seq<Job>,
    ended: seq<Ended>)

  const INITIAL := State([], {}, false, map[], 0, NO_TASKS, [], [])

  datatype Event =
    | Trigger(job: Job)
    | Look(worker: nat)
    | GetId(worker: nat, id: Option<string>)
    | TryStart(worker: nat)
    | Wake(worker: nat)
    | Clear(worker: nat)
    | StartOther(messageId: string, taskType: TaskType)
    | FunctionReturns(handle: nat)
    | Completes(handle: nat)
    | CancelById(messageId: string)

  // A schedule fires. While a backup of the same schedule is pending, the trigger is dropped.
  function Accept(s: State, job: Job): State {
    if job.key in s.pending then s
    else
      var queued := s.(pending := s.pending + {job.key}, queue := s.queue + [job], accepted := s.accepted + [job]);
      if s.workerRunning then queued
      else queued.(workerRunning := true, workers := s.workers[s.spawned := Looking], spawned := s.spawned + 1)
  }

  function TakeNext(s: State, w: nat): State {
    if s.queue == [] then s.(workerRunning := false, workers := s.workers - {w})
    else s.(queue := s.queue[1..], workers := s.workers[w := Taken(s.queue[0])])
  }

  function StartBackup(s: State, w: nat, job: Job, m: string): State {
    if Refusal(s.tasks, Backup).Some? then s
    else s.(tasks := StartTask(s.tasks, m, Backup, Some(job)),
            workers := s.workers[w := Waiting(job, |s.tasks.started|)])
  }

  predicate HasReturned(s: Tasks, h: nat) { h < |s.started| && !s.started[h].phase.Running? }

  function ClearPending(s: State, w: nat, job: Job, outcome: Outcome): State {
    s.(pending := s.pending - {job.key}, workers := s.workers[w := Looking], ended := s.ended + [Ended(job, outcome)])
  }

  function Move(s: State, w: nat, e: Event): State
    requires w in s.workers
  {
    match s.workers[w]
    case Looking => if e.Look? then TakeNext(s, w) else s
    case Taken(job) =>
      if !e.GetId? then s
      else s.(workers := s.workers[w := if e.id.None? then Clearing(job, NoId) else Starting(job, e.id.value)])
    case Starting(job, m) => if e.TryStart? then StartBackup(s, w, job, m) else s
    case Waiting(job, h) =>
      if e.Wake? && HasReturned(s.tasks, h) then s.(workers := s.workers[w := Clearing(job, Ran(h))]) else s
    case Clearing(job, outcome) => if e.Clear? then ClearPending(s, w, job, outcome) else s
  }

  function Step(s: State, e: Event): State {
    match e
    case Trigger(job) => Accept(s, job)
    case StartOther(m, t) => s.(tasks := StartTask(s.tasks, m, t, None))
    case FunctionReturns(h) => s.(tasks := ReturnTask(s.tasks, h))
    case Completes(h) => s.(tasks := ReleaseTask(s.tasks, h))
    case CancelById(m) => s.(tasks := CancelTask(s.tasks, m))
    case _ => if e.worker in s.workers then Move(s, e.worker, e) else s
  }

  function Steps(s: State, run: seq<Event>): State {
    if run == [] then s else Step(Steps(s, run[..|run| - 1]), run[|run| - 1])
  }

  // ---- Readings ------------------------------------------------------------------------------

  function Jobs(ended: seq<Ended>): seq<Job> { seq(|ended|, i requires 0 <= i < |ended| => ended[i].job) }

  // The job in progress, if there is one.
  function Current(workers: map<nat, Worker>, w: nat): seq<Job> {
    if w !in workers || workers[w].Looking? then [] else [workers[w].job]
  }

  function Last(s: State): nat { if s.spawned == 0 then 0 else s.spawned - 1 }

  // The accepted jobs that have not ended, in the order in which they were accepted.
  function Open(s: State): seq<Job> { Current(s.workers, Last(s)) + s.queue }

  function KeysOf(jobs: seq<Job>): set<string> { set i | 0 <= i < |jobs| :: jobs[i].key }

  // The backups the queue started, in order.
  function Scheduled(started: seq<Goroutine>): seq<nat> {
    if started == [] then []
    else
      var rest := Scheduled(started[..|started| - 1]);
      if started[|started| - 1].job.Some? then rest + [|started| - 1] else rest
  }

  // The backups that ran for the jobs that have ended, in order.
  function Handles(ended: seq<Ended>): seq<nat> {
    if ended == [] then []
    else
      var rest := Handles(ended[..|ended| - 1]);
      var last := ended[|ended| - 1];
      if last.outcome.Ran? then rest + [last.outcome.handle] else rest
  }

  // The backup that was started for the job in progress.
  function CurrentHandle(workers: map<nat, Worker>, w: nat): seq<nat> {
    if w !in workers then []
    else match workers[w]
      case Waiting(_, h) => [h]
      case Clearing(_, Ran(h)) => [h]
      case _ => []
  }
}
