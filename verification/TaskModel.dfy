/**
 The agent's task manager: which background tasks may run together, and the table a cancel request
 looks them up in.

 A started goroutine is named by its place in `started`. Its function returns first; the deferred
 completion frees the slot and the table entry later, under the lock.
 */
module TaskModel {
  import opened Wrappers

  datatype TaskType = Backup | Restore | Verify | Query

  datatype TaskError = BackupAlreadyRunning | RestoreAlreadyRunning | VerifyAlreadyRunning

  // The copy of a policy that a schedule triggered; the key is the schedule's job id.
  datatype Job = Job(key: string, policy: int)

  datatype Phase = Running | Returned | Released

  // `job` is what the scheduled queue started it for, if it was the queue.
  datatype Goroutine = Goroutine(messageId: string, taskType: TaskType, job: Option<Job>, phase: Phase, cancelled: bool) {
    predicate Live() { !phase.Released? }
  }

  datatype Tasks = Tasks(
    tasks: map<string, nat>,
    backupSlot: bool,
    restoreSlot: bool,
    verifySlot: bool,
    started: seq<Goroutine>)

  const NO_TASKS := Tasks(map[], false, false, false, [])

  // ---- Operations ----------------------------------------------------------------------------

  // Why a task of type `t` may not start now.
  function Refusal(s: Tasks, t: TaskType): Option<TaskError> {
    match t
    case Backup => if s.backupSlot || s.verifySlot then Some(BackupAlreadyRunning) else None
    case Restore => if s.restoreSlot then Some(RestoreAlreadyRunning) else None
    case Verify => if s.backupSlot || s.verifySlot then Some(VerifyAlreadyRunning) else None
    case Query => None
  }

  function SetSlot(s: Tasks, t: TaskType, taken: bool): Tasks {
    match t
    case Backup => s.(backupSlot := taken)
    case Restore => s.(restoreSlot := taken)
    case Verify => s.(verifySlot := taken)
    case Query => s
  }

  function StartTask(s: Tasks, m: string, t: TaskType, job: Option<Job>): Tasks {
    if Refusal(s, t).Some? then s
    else SetSlot(s, t, true).(tasks := s.tasks[m := |s.started|],
                              started := s.started + [Goroutine(m, t, job, Running, false)])
  }

  predicate IsIn(s: Tasks, h: nat, phase: Phase) { h < |s.started| && s.started[h].phase == phase }

  function ReturnTask(s: Tasks, h: nat): Tasks {
    if IsIn(s, h, Running) then s.(started := s.started[h := s.started[h].(phase := Returned)]) else s
  }

  function ReleaseTask(s: Tasks, h: nat): Tasks {
    if !IsIn(s, h, Returned) then s
    else SetSlot(s, s.started[h].taskType, false).(tasks := s.tasks - {s.started[h].messageId},
                                                   started := s.started[h := s.started[h].(phase := Released)])
  }

  predicate Cancels(s: Tasks, m: string) { m in s.tasks && s.tasks[m] < |s.started| }

  function CancelTask(s: Tasks, m: string): Tasks {
    if Cancels(s, m) then s.(started := s.started[s.tasks[m] := s.started[s.tasks[m]].(cancelled := true)]) else s
  }

  // ---- What every operation keeps ------------------------------------------------------------

  predicate LiveAt(started: seq<Goroutine>, h: nat) { h < |started| && started[h].Live() }

  predicate Runs(started: seq<Goroutine>, h: nat, t: TaskType) { LiveAt(started, h) && started[h].taskType == t }

  predicate Exclusive(t: TaskType, u: TaskType) {
    ((t.Backup? || t.Verify?) && (u.Backup? || u.Verify?)) || (t.Restore? && u.Restore?)
  }

  ghost predicate AnyRuns(started: seq<Goroutine>, t: TaskType) { exists h: nat :: Runs(started, h, t) }

  ghost predicate AtMostOne(started: seq<Goroutine>) {
    forall h: nat, k: nat :: LiveAt(started, h) && LiveAt(started, k) && Exclusive(started[h].taskType, started[k].taskType) ==> h == k
  }

  predicate EntriesLive(tasks: map<string, nat>, started: seq<Goroutine>) {
    forall m :: m in tasks ==> LiveAt(started, tasks[m]) && started[tasks[m]].messageId == m
  }

  ghost predicate SlotsAgree(s: Tasks) {
    && (s.backupSlot <==> AnyRuns(s.started, Backup))
    && (s.restoreSlot <==> AnyRuns(s.started, Restore))
    && (s.verifySlot <==> AnyRuns(s.started, Verify))
  }

  ghost predicate TasksInv(s: Tasks) { SlotsAgree(s) && AtMostOne(s.started) && EntriesLive(s.tasks, s.started) }

  // Every live task can be found by its message id.
  predicate Exact(s: Tasks) {
    forall h :: 0 <= h < |s.started| && s.started[h].Live() ==> s.started[h].messageId in s.tasks && s.tasks[s.started[h].messageId] == h
  }

  lemma StartKept(s: Tasks, m: string, t: TaskType, job: Option<Job>)
    requires TasksInv(s)
    ensures TasksInv(StartTask(s, m, t, job))
  {
    var after := StartTask(s, m, t, job);
    if Refusal(s, t).None? {
      var n := |s.started|;
      forall u: TaskType
        ensures AnyRuns(after.started, u) <==> (AnyRuns(s.started, u) || u == t)
      {
        assert Runs(after.started, n, t);
        assert forall h: nat :: h != n ==> (Runs(after.started, h, u) <==> Runs(s.started, h, u));
        if AnyRuns(s.started, u) {
          var h: nat :| Runs(s.started, h, u);
          assert Runs(after.started, h, u);
        }
      }
      forall h: nat, k: nat | LiveAt(after.started, h) && LiveAt(after.started, k) && Exclusive(after.started[h].taskType, after.started[k].taskType)
        ensures h == k
      {
        assert h < n ==> Runs(s.started, h, s.started[h].taskType);
        assert k < n ==> Runs(s.started, k, s.started[k].taskType);
        assert h < n && k < n ==> LiveAt(s.started, h) && LiveAt(s.started, k);
      }
    }
  }

  lemma ReturnKept(s: Tasks, h: nat)
    requires TasksInv(s)
    ensures TasksInv(ReturnTask(s, h))
  {
    LivenessKept(s.started, ReturnTask(s, h).started);
  }

  lemma CancelKept(s: Tasks, m: string)
    requires TasksInv(s)
    ensures TasksInv(CancelTask(s, m))
  {
    LivenessKept(s.started, CancelTask(s, m).started);
  }

  lemma LivenessKept(before: seq<Goroutine>, after: seq<Goroutine>)
    requires |before| == |after|
    requires forall h :: 0 <= h < |before| ==> before[h].Live() == after[h].Live() && before[h].taskType == after[h].taskType
    ensures forall t: TaskType :: AnyRuns(before, t) <==> AnyRuns(after, t)
    ensures AtMostOne(before) ==> AtMostOne(after)
  {
    assert forall h: nat, t: TaskType :: Runs(before, h, t) <==> Runs(after, h, t);
    assert forall h: nat :: LiveAt(before, h) <==> LiveAt(after, h);
  }

  lemma ReleaseKept(s: Tasks, h: nat)
    requires TasksInv(s)
    ensures TasksInv(ReleaseTask(s, h))
  {
    if IsIn(s, h, Returned) {
      var after, t := ReleaseTask(s, h), s.started[h].taskType;
      assert LiveAt(s.started, h);
      forall u: TaskType
        ensures u != t ==> (AnyRuns(after.started, u) <==> AnyRuns(s.started, u))
        ensures u == t && !u.Query? ==> !AnyRuns(after.started, u)
      {
        assert forall k: nat :: Runs(after.started, k, u) ==> k != h && Runs(s.started, k, u) && LiveAt(s.started, k);
        assert forall k: nat :: k != h && Runs(s.started, k, u) ==> Runs(after.started, k, u);
      }
      assert forall k: nat :: LiveAt(after.started, k) <==> k != h && LiveAt(s.started, k);
    }
  }

  // ---- Theorems ------------------------------------------------------------------------------

  // A task is refused exactly when one it may not run beside is live, and the refusal names the
  // type that was asked for.
  lemma RefusedIffConflicting(s: Tasks, t: TaskType)
    requires TasksInv(s)
    ensures Refusal(s, t).Some? <==> exists h: nat :: LiveAt(s.started, h) && Exclusive(t, s.started[h].taskType)
    ensures Refusal(s, t).Some? ==>
              Refusal(s, t).value == match t
                                     case Backup => BackupAlreadyRunning
                                     case Restore => RestoreAlreadyRunning
                                     case _ => VerifyAlreadyRunning
  {
    if Refusal(s, t).Some? {
      if s.restoreSlot && t.Restore? {
        var h: nat :| Runs(s.started, h, Restore);
        assert LiveAt(s.started, h);
      } else if s.backupSlot {
        var h: nat :| Runs(s.started, h, Backup);
        assert LiveAt(s.started, h);
      } else {
        var h: nat :| Runs(s.started, h, Verify);
        assert LiveAt(s.started, h);
      }
    }
    forall h: nat | LiveAt(s.started, h) && Exclusive(t, s.started[h].taskType)
      ensures Refusal(s, t).Some?
    {
      assert Runs(s.started, h, s.started[h].taskType);
    }
  }

  // So a start changes nothing while a task is live that it may not run beside; else one task more runs,
  // not cancelled, under its id in the table.
  lemma StartAnswer(s: Tasks, m: string, t: TaskType, job: Option<Job>)
    requires TasksInv(s)
    ensures var r := StartTask(s, m, t, job);
            if exists h: nat :: LiveAt(s.started, h) && Exclusive(t, s.started[h].taskType) then r == s
            else r.started == s.started + [Goroutine(m, t, job, Running, false)] && r.tasks == s.tasks[m := |s.started|]
  {
    RefusedIffConflicting(s, t);
  }

  // The function of a running task returns; then its completion ends it, takes its entry away, and lets
  // every task start again that it kept out. Nothing else changes.
  lemma EndAnswer(s: Tasks, h: nat, t: TaskType)
    requires TasksInv(s)
    ensures var r := ReturnTask(s, h);
            r == if h < |s.started| && s.started[h].phase == Running then s.(started := s.started[h := s.started[h].(phase := Returned)]) else s
    ensures var r := ReleaseTask(s, h);
            if h < |s.started| && s.started[h].phase == Returned then
              && r.started == s.started[h := s.started[h].(phase := Released)] && r.tasks == s.tasks - {s.started[h].messageId}
              && (Exclusive(t, s.started[h].taskType) ==> Refusal(r, t).None?)
              && (!Exclusive(t, s.started[h].taskType) ==> Refusal(r, t) == Refusal(s, t))
            else r == s
  {
    if IsIn(s, h, Returned) {
      var r := ReleaseTask(s, h);
      ReleaseKept(s, h);
      RefusedIffConflicting(s, t);
      RefusedIffConflicting(r, t);
      assert LiveAt(s.started, h);
      assert forall k: nat :: LiveAt(r.started, k) <==> k != h && LiveAt(s.started, k);
      if !Exclusive(t, s.started[h].taskType) && Refusal(s, t).Some? {
        var k: nat :| LiveAt(s.started, k) && Exclusive(t, s.started[k].taskType);
        assert LiveAt(r.started, k) && Exclusive(t, r.started[k].taskType);
      }
    }
  }

  // A start leaves every live task findable exactly when it is refused or its message id names none
  // in the table: a second task under a live task's id takes that task's entry.
  lemma StartKeepsExactIff(s: Tasks, m: string, t: TaskType, job: Option<Job>)
    requires TasksInv(s) && Exact(s)
    ensures Exact(StartTask(s, m, t, job)) <==> Refusal(s, t).Some? || m !in s.tasks
  {
    var after := StartTask(s, m, t, job);
    if Refusal(s, t).None? {
      assert after.started[|s.started|].messageId == m;
      if m in s.tasks {
        var h := s.tasks[m];
        assert LiveAt(s.started, h) && after.started[h] == s.started[h];
      }
    }
  }

  lemma EndsKeepExact(s: Tasks, h: nat)
    requires TasksInv(s) && Exact(s)
    ensures Exact(ReturnTask(s, h)) && Exact(ReleaseTask(s, h))
  {
    if IsIn(s, h, Returned) {
      assert s.tasks[s.started[h].messageId] == h;
    }
  }

  // With the table exact, a cancel request finds a task exactly when one with its message id is
  // live, and cancels that one alone.
  lemma CancelFindsLiveTask(s: Tasks, m: string)
    requires TasksInv(s) && Exact(s)
    ensures Cancels(s, m) <==> exists h: nat :: LiveAt(s.started, h) && s.started[h].messageId == m
    ensures Exact(CancelTask(s, m))
    ensures forall h :: 0 <= h < |s.started| ==>
              CancelTask(s, m).started[h].cancelled == (s.started[h].cancelled || (s.started[h].Live() && s.started[h].messageId == m))
  {
    if Cancels(s, m) {
      assert LiveAt(s.started, s.tasks[m]);
    }
  }

  // Without that, a live task may be out of reach: two queries under one message id, one of which
  // has ended.
  lemma DuplicateIdHidesTask()
    ensures var s := ReleaseTask(ReturnTask(StartTask(StartTask(NO_TASKS, "a", Query, None), "a", Query, None), 0), 0);
            LiveAt(s.started, 1) && s.started[1].messageId == "a" && !Cancels(s, "a")
  {
    var two := StartTask(StartTask(NO_TASKS, "a", Query, None), "a", Query, None);
    assert two.started == [Goroutine("a", Query, None, Running, false), Goroutine("a", Query, None, Running, false)];
    assert IsIn(ReturnTask(two, 0), 0, Returned);
  }

  // ---- The manager ---------------------------------------------------------------------------

  class TaskManager {
    var tasks: map<string, nat>
    var backupSlot: bool
    var restoreSlot: bool
    var verifySlot: bool
    ghost var started: seq<Goroutine>

    ghost function View(): Tasks
      reads this
    {
      Tasks(tasks, backupSlot, restoreSlot, verifySlot, started)
    }

    constructor ()
      ensures View() == NO_TASKS
    {
      tasks := map[];
      backupSlot, restoreSlot, verifySlot := false, false, false;
      started := [];
    }

    // `handle` names the goroutine that is spawned.
    method Start(messageId: string, taskType: TaskType, handle: nat, ghost job: Option<Job>) returns (r: Option<TaskError>)
      requires handle == |started|
      modifies this
      ensures r == Refusal(old(View()), taskType)
      ensures View() == StartTask(old(View()), messageId, taskType, job)
    {
      match taskType {
        case Backup =>
          if backupSlot || verifySlot {
            return Some(BackupAlreadyRunning);
          }
          backupSlot := true;
        case Restore =>
          if restoreSlot {
            return Some(RestoreAlreadyRunning);
          }
          restoreSlot := true;
        case Verify =>
          if backupSlot || verifySlot {
            return Some(VerifyAlreadyRunning);
          }
          verifySlot := true;
        case Query =>
      }
      tasks := tasks[messageId := handle];
      started := started + [Goroutine(messageId, taskType, job, Running, false)];
      return None;
    }

    // The function of a goroutine returns.
    ghost method FunctionReturns(handle: nat)
      modifies this`started
      ensures View() == ReturnTask(old(View()), handle)
    {
      if IsIn(View(), handle, Running) {
        started := started[handle := started[handle].(phase := Returned)];
      }
    }

    // The deferred completion of a goroutine whose function has returned.
    method Complete(messageId: string, taskType: TaskType, handle: nat)
      requires IsIn(View(), handle, Returned) && started[handle].messageId == messageId && started[handle].taskType == taskType
      modifies this
      ensures View() == ReleaseTask(old(View()), handle)
    {
      tasks := tasks - {messageId};
      match taskType {
        case Backup => backupSlot := false;
        case Restore => restoreSlot := false;
        case Verify => verifySlot := false;
        case Query =>
      }
      started := started[handle := started[handle].(phase := Released)];
    }

    method Cancel(messageId: string) returns (found: bool)
      requires EntriesLive(tasks, started)
      modifies this
      ensures found == Cancels(old(View()), messageId)
      ensures View() == CancelTask(old(View()), messageId)
    {
      if messageId !in tasks {
        return false;
      }
      ghost var h := tasks[messageId];
      started := started[h := started[h].(cancelled := true)];
      return true;
    }
  }
}
