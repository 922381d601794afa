/** The command service over its tables, proved to take the steps of `CommandModel`. */
module CommandService {
  import M = CommandModel
  import opened CommandAnswers
  import opened CommandDispatch
  import opened CommandModel
  import opened CommandSafety
  import opened Wrappers

  class Service {
    var commands: seq<Command>
    var tasks: map<nat, Task>
    var histories: seq<History>
    var snapshots: set<(string, string)>
    ghost var dispatcher: Dispatcher
    ghost var sent: seq<nat>
    ghost var commits: seq<nat>

    ghost function View(): State
      reads this
    {
      State(commands, tasks, histories, snapshots, dispatcher, sent, commits)
    }

    constructor ()
      ensures View() == INITIAL
    {
      commands, tasks, histories, snapshots := [], map[], [], {};
      dispatcher, sent, commits := Idle, [], [];
    }

    method CreateCommand(input: CreateInput, now: nat) returns (created: Option<nat>)
      modifies this
      ensures View() == Step(old(View()), CreateEvent(input, now))
      ensures created.Some? <==> View() != old(View())
      ensures created.Some? ==> created.value == |old(commands)| < |commands|
    {
      if input.agentId == "" || input.ctype == OtherType("") || input.messageId == "" || HasMessage(commands, input.messageId) {
        return None;
      }
      var deadline := now + input.ctype.TimeToLive();
      if input.timeoutHours > 0 {
        deadline := now + input.timeoutHours * 3600;
      }
      var id := |commands|;
      commands := commands + [Command(input.agentId, input.ctype, Pending, input.messageId, input.payload, 0, deadline, None, None)];
      if input.taskType.Some? {
        var state := TaskPending;
        if input.taskState.Some? {
          state := input.taskState.value;
        }
        tasks := tasks[id := Task(input.taskType.value, state, None, None)];
      }
      return Some(id);
    }

    // The transaction behind a cancellation, a timeout and a dispatch that cannot happen.
    method EndWithTask(id: nat, status: CommandStatus, taskStatus: TaskStatus, now: nat)
      requires id < |commands|
      modifies this`commands, this`tasks
      ensures View() == FinishWithTask(old(View()), id, status, taskStatus, now)
    {
      commands := commands[id := commands[id].(status := status, completedAt := Some(now))];
      if id in tasks && Open(tasks[id]) {
        tasks := tasks[id := tasks[id].(status := taskStatus, finishedAt := Some(now))];
      }
    }

    method FailCommandAndTask(id: nat, now: nat)
      requires id < |commands|
      modifies this`commands, this`tasks
      ensures View() == M.FailCommandAndTask(old(View()), id, now)
    {
      if commands[id].status.Terminal() {
        return;
      }
      if !commands[id].ctype.LongRunning() {
        commands := commands[id := commands[id].(status := Failed, completedAt := Some(now))];
        return;
      }
      EndWithTask(id, Failed, TaskFailed, now);
    }

    method RecordDispatchSuccess(id: nat, now: nat) returns (recorded: bool)
      requires id < |commands|
      modifies this`commands, this`tasks
      ensures View() == RecordDispatch(old(View()), id, now)
      ensures recorded <==> !old(commands)[id].status.Terminal()
    {
      var c := commands[id];
      if c.status.Terminal() {
        return false;
      }
      var status := Dispatched;
      if c.ctype.LongRunning() {
        status := Running;
      }
      commands := commands[id := c.(attempts := c.attempts + 1, dispatchedAt := Some(now), status := status)];
      if c.ctype.LongRunning() && id in tasks && tasks[id].status.TaskPending? {
        tasks := tasks[id := tasks[id].(status := TaskRunning, startedAt := Some(now))];
      }
      return true;
    }

    method RecordDispatchFailure(id: nat, incrementAttempt: bool)
      requires id < |commands|
      modifies this`commands, this`tasks
      ensures View() == RecordFailure(old(View()), id, incrementAttempt)
    {
      var c := commands[id];
      if c.status.Terminal() {
        return;
      }
      var attempts := c.attempts;
      if incrementAttempt {
        attempts := attempts + 1;
      }
      commands := commands[id := c.(attempts := attempts, dispatchedAt := None, status := Pending)];
      if c.ctype.LongRunning() && id in tasks && tasks[id].status.TaskRunning? {
        tasks := tasks[id := tasks[id].(status := TaskPending, startedAt := None)];
      }
    }

    method PrepareForDispatch(id: nat, capability: Capability, now: nat) returns (ready: bool)
      requires dispatcher.Working? && dispatcher.todo != [] && dispatcher.todo[0] == id < |commands|
      modifies this
      ensures View() == Prepare(old(View()), capability, now)
      ensures |commands| == |old(commands)|
      ensures dispatcher == if ready then Prepared(id, old(dispatcher).todo[1..]) else Working(old(dispatcher).todo[1..])
    {
      ghost var todo := dispatcher.todo[1..];
      var c := commands[id];
      match PrepareCommand(c, capability) {
        case CapabilityUnknown =>
          dispatcher := Working(todo);
          return false;
        case CannotDispatch =>
          FailCommandAndTask(id, now);
          dispatcher := Working(todo);
          return false;
        case ReadySelective =>
          if !c.status.Terminal() {
            commands := commands[id := c.(ctype := SelectiveRestoreReq,
                                          payload := c.payload.(messageType := SelectiveRestoreReq))];
          }
          dispatcher := Prepared(id, todo);
          return true;
        case Ready =>
          dispatcher := Prepared(id, todo);
          return true;
      }
    }

    // Records the dispatch before the message goes out, and withdraws the record when it did not.
    method SendPrepared(id: nat, delivered: bool, now: nat)
      requires dispatcher.Prepared? && dispatcher.id == id < |commands|
      modifies this
      ensures View() == SendOrWithdraw(old(View()), delivered, now)
      ensures dispatcher == Working(old(dispatcher).todo) && |commands| == |old(commands)|
    {
      ghost var todo := dispatcher.todo;
      var dispatched := RecordDispatchSuccess(id, now);
      if dispatched {
        if delivered {
          sent := sent + [id];
        } else {
          RecordDispatchFailure(id, false);
        }
      }
      dispatcher := Working(todo);
    }

    method Dispatch(id: nat, answer: Answer)
      requires dispatcher.Working? && dispatcher.todo != [] && dispatcher.todo[0] == id < |commands|
      modifies this
      ensures View() == Turn(old(View()), answer)
      ensures dispatcher == Working(old(dispatcher).todo[1..]) && |commands| == |old(commands)|
    {
      var ready := PrepareForDispatch(id, answer.capability, answer.preparedAt);
      if ready {
        SendPrepared(id, answer.delivered, answer.recordedAt);
      }
    }

    // `answers` holds what each command would meet.
    method DispatchForAgent(agentId: string, limit: int, resend: bool, online: bool, now: nat, answers: seq<Answer>)
      requires dispatcher.Idle? && |answers| >= |commands|
      modifies this
      ensures View() == if agentId == "" || !online then old(View())
                        else Steps(old(View()), DispatchRun(old(commands), agentId, limit, resend, now, answers))
      ensures agentId != "" && online ==> IsDispatched(old(View()), View(), agentId, limit, resend, now, answers)
      ensures dispatcher.Idle?
    {
      if agentId == "" || !online {
        return;
      }
      ghost var before := View();
      ghost var first := [ListEvent(agentId, limit, resend, true, now)];
      var ids := Limited(ListFrom(commands, agentId, resend, now), limit);
      DispatchIs(before, agentId, limit, resend, now, answers);
      dispatcher := Working(ids);
      StepsAppend(before, [], first[0]);
      NoEvents(first);
      var n := 0;
      while n < |ids|
        invariant n <= |ids| && |commands| == |before.commands| && dispatcher == Working(ids[n..])
        invariant forall k :: 0 <= k < |ids| ==> ids[k] < |answers| && ids[k] < |commands|
        invariant View() == Steps(before, first + DispatchEvents(ids[..n], answers))
      {
        TailOfTail(ids, n);
        DispatchTurn(before, View(), first, ids, n, answers);
        Dispatch(ids[n], answers[ids[n]]);
        n := n + 1;
      }
      assert ids[..n] == ids;
      StepsAppend(before, first + DispatchEvents(ids, answers), PrepareEvent(Unknown, now));
      EndOfList(View(), Unknown, now);
      dispatcher := Idle;
    }

    // Answers true when the agent itself has to be asked to stop.
    method CancelCommand(id: nat, now: nat) returns (r: Result<bool, string>)
      modifies this`commands, this`tasks
      ensures View() == Step(old(View()), CancelEvent(id, now))
      ensures r.Err? <==> id >= |old(commands)| || old(commands)[id].status.Terminal()
      ensures r.Ok? ==> (r.value <==> !old(commands)[id].status.Pending?)
    {
      if id >= |commands| {
        return Err("record not found");
      }
      if commands[id].status.Terminal() {
        return Err("command already in terminal state");
      }
      if !commands[id].status.Pending? {
        return Ok(true);
      }
      EndWithTask(id, Cancelled, TaskCancelled, now);
      return Ok(false);
    }

    // The scan for expired commands; each is ended in a transaction of its own.
    method TimeoutExpired(now: nat) returns (count: nat)
      modifies this`commands, this`tasks
      ensures View() == Steps(old(View()), TimeoutEvents(|old(commands)|, now))
      ensures count == |Expired(old(commands), |old(commands)|, now)|
      ensures TimedOutUpTo(old(View()), View(), |old(commands)|, now)
    {
      ScanIs(View(), |commands|, now);
      count := 0;
      ghost var before := View();
      var id := 0;
      while id < |commands|
        invariant id <= |commands| == |before.commands| && commands[id..] == before.commands[id..]
        invariant View() == Steps(before, TimeoutEvents(id, now))
        invariant count == |Expired(before.commands, id, now)|
      {
        TimeoutTurn(before, View(), id, now);
        if !commands[id].status.Terminal() && commands[id].deadlineAt <= now {
          EndWithTask(id, Timeout, TaskTimeout, now);
          count := count + 1;
        }
        id := id + 1;
      }
    }

    method FindCommand(agentId: string, messageId: string) returns (r: Option<nat>)
      ensures r == Find(commands, agentId, messageId)
    {
      r := None;
      for k := 0 to |commands|
        invariant r == Find(commands[..k], agentId, messageId)
      {
        assert commands[..k + 1][..k] == commands[..k];
        if r.None? && Matches(commands[k], agentId, messageId) {
          r := Some(k);
        }
      }
      assert commands[..|commands|] == commands;
    }

    method CompleteTaskResultWith(id: nat, result: TaskResult, now: nat) returns (completed: bool)
      requires id < |commands|
      modifies this
      ensures completed <==> Accepts(old(commands)[id], result)
      ensures View() == if completed then Complete(old(View()), id, result, now) else old(View())
      ensures completed <==> Awaits(old(commands)[id], result)
      ensures completed ==> TakenOver(old(View()), View(), id, result, now)
    {
      AwaitsIsAccepts(commands[id], result);
      TakenOverIs(View(), id, result, now);
      var c := commands[id];
      if !c.ctype.LongRunning() || c.status.Terminal() {
        return false;
      }
      if c.ctype.TaskType() != Some(result.taskType) {
        return false;
      }
      if result.taskType.BackupTask? && result.status.TaskSuccess? && id in tasks {
        snapshots := Upsert(snapshots, c.agentId, result.snapshotIds);
      }
      var commandStatus := Failed;
      if result.status.TaskSuccess? {
        commandStatus := Succeeded;
      } else if result.status.TaskCancelled? {
        commandStatus := Cancelled;
      }
      commands := commands[id := c.(status := commandStatus, completedAt := Some(now))];
      if id in tasks {
        var task := tasks[id].(status := result.status, finishedAt := result.finishedAt);
        if result.finishedAt.None? && TaskTerminal(result.status) {
          task := task.(finishedAt := Some(now));
        }
        if result.startedAt.Some? {
          task := task.(startedAt := result.startedAt);
        }
        tasks := tasks[id := task];
      }
      commits := commits + [id];
      return true;
    }

    method RecordTaskResult(agentId: string, messageId: string, result: TaskResult)
      modifies this`histories, this`snapshots
      ensures View() == RecordHistory(old(View()), agentId, messageId, result)
      ensures Recorded(old(View()), View(), agentId, messageId, result)
    {
      RecordedIs(View(), agentId, messageId, result);
      if result.taskType.RestoreTask? && messageId != "" {
        var known := FindHistory(histories, agentId, messageId);
        if known.Some? {
          histories := histories[known.value := histories[known.value].(status := result.status)];
          return;
        }
      }
      histories := histories + [History(agentId, messageId, result.taskType, result.status)];
      if CarriesSnapshots(result) {
        snapshots := Upsert(snapshots, agentId, result.snapshotIds);
      }
    }

    // The processor for task results that agents send.
    method ProcessTaskResult(agentId: string, messageId: string, result: TaskResult, localized: bool, now: nat)
      modifies this
      ensures View() == Step(old(View()), ResultEvent(agentId, messageId, result, localized, now))
      ensures Rows(old(View())) ==> Processed(old(View()), View(), agentId, messageId, result, localized, now)
    {
      ProcessedIs(View(), agentId, messageId, result, localized, now);
      if messageId != "" {
        var found := FindCommand(agentId, messageId);
        if found.Some? {
          var completed := CompleteTaskResultWith(found.value, result, now);
          return;
        }
      }
      if localized {
        RecordTaskResult(agentId, messageId, result);
      }
    }

    // Fails when there is no such push; a push that has ended is left as it is.
    method CompletePolicyAck(agentId: string, messageId: string, success: bool, now: nat) returns (error: Option<string>)
      modifies this`commands
      ensures View() == Step(old(View()), PolicyAckEvent(agentId, messageId, success, now))
      ensures Rows(old(View())) ==> Acknowledged(old(View()), View(), agentId, messageId, success, now)
      ensures var found := Find(old(commands), agentId, messageId);
              error.Some? <==> agentId != "" && messageId != "" && (found.None? || !old(commands)[found.value].ctype.PolicyPush?)
    {
      if Rows(View()) {
        PolicyAckAnswer(View(), agentId, messageId, success, now);
      }
      if agentId == "" || messageId == "" {
        return None;
      }
      var found := FindCommand(agentId, messageId);
      if found.None? || !commands[found.value].ctype.PolicyPush? {
        return Some("policy command not found");
      }
      if !commands[found.value].status.Terminal() {
        var status := Succeeded;
        if !success {
          status := Failed;
        }
        commands := commands[found.value := commands[found.value].(status := status, completedAt := Some(now))];
      }
      return None;
    }
  }

  // What becomes of a result: the command it is about takes it over if it waits for it; with no command
  // to it, it is recorded on its own.
  ghost predicate Processed(s: State, r: State, agentId: string, messageId: string, result: TaskResult, localized: bool, now: nat) {
    && (forall id: nat | messageId != "" && IsOf(s, id, agentId, messageId) :: Delivered(s, r, id, result, now))
    && (messageId == "" || !Known(s, agentId, messageId) ==>
          if localized then Recorded(s, r, agentId, messageId, result) else r == s)
  }

  lemma ProcessedIs(s: State, agentId: string, messageId: string, result: TaskResult, localized: bool, now: nat)
    ensures Rows(s) ==> Processed(s, Step(s, ResultEvent(agentId, messageId, result, localized, now)), agentId, messageId, result, localized, now)
  {
    if Rows(s) {
      var e := ResultEvent(agentId, messageId, result, localized, now);
      forall id: nat | messageId != "" && IsOf(s, id, agentId, messageId) ensures Delivered(s, Step(s, e), id, result, now) {
        ResultAnswer(s, id, e);
      }
      if messageId == "" || !Known(s, agentId, messageId) {
        HistoryAnswer(s, e);
      }
    }
  }

  // Of the first `n` commands those that are late have timed out, with their tasks; nothing else changed.
  ghost predicate TimedOutUpTo(s: State, r: State, n: nat, now: nat) {
    && r == s.(commands := r.commands, tasks := r.tasks) && |r.commands| == |s.commands| && r.tasks.Keys == s.tasks.Keys
    && (forall i :: 0 <= i < |s.commands| ==>
          r.commands[i] == if i < n && IsLate(s.commands[i], now) then s.commands[i].(status := Timeout, completedAt := Some(now))
                           else s.commands[i])
    && (forall i :: i in s.tasks ==>
          r.tasks[i] == if i < n && i < |s.commands| && IsLate(s.commands[i], now) && TaskGoesOn(s.tasks[i])
                        then s.tasks[i].(status := TaskTimeout, finishedAt := Some(now)) else s.tasks[i])
  }

  predicate IsLate(c: Command, now: nat) { !Ended(c.status) && c.deadlineAt <= now }

  lemma {:induction false} ScanIs(s: State, n: nat, now: nat)
    requires n <= |s.commands|
    ensures TimedOutUpTo(s, Steps(s, TimeoutEvents(n, now)), n, now)
  {
    if n > 0 {
      ScanIs(s, n - 1, now);
      var before := Steps(s, TimeoutEvents(n - 1, now));
      StepsAppend(s, TimeoutEvents(n - 1, now), TimeoutEvent(n - 1, now));
      TimeoutAnswer(before, n - 1, now);
      OneMoreLate(s, before, Step(before, TimeoutEvent(n - 1, now)), n - 1, now);
    }
  }

  lemma OneMoreLate(s: State, m: State, r: State, n: nat, now: nat)
    requires n < |s.commands| && TimedOutUpTo(s, m, n, now)
    requires if IsLate(m.commands[n], now) then EndsWithTask(m, r, n, Timeout, TaskTimeout, now) else r == m
    ensures TimedOutUpTo(s, r, n + 1, now)
  {
  }

  // The unfinished commands past their deadline among the first `n`.
  function Expired(commands: seq<Command>, n: nat, now: nat): set<nat>
    requires n <= |commands|
  {
    set id: nat | 0 <= id < n && !commands[id].status.Terminal() && commands[id].deadlineAt <= now
  }

  predicate IsExpired(c: Command, now: nat) { !c.status.Terminal() && c.deadlineAt <= now }

  // The state after the turn of the scan for command `id`.
  function TimedOut(s: State, id: nat, now: nat): State
    requires id < |s.commands|
  {
    if IsExpired(s.commands[id], now) then FinishWithTask(s, id, Timeout, TaskTimeout, now) else s
  }

  lemma SameTail(a: seq<Command>, b: seq<Command>, n: nat, c: Command)
    requires n < |a| == |b| && a[n..] == b[n..]
    ensures a[n] == b[n] && a[n + 1..] == b[n + 1..] && a[n := c][n + 1..] == b[n + 1..]
  {
    assert a[n] == a[n..][0] && b[n] == b[n..][0];
    assert a[n + 1..] == a[n..][1..] && b[n + 1..] == b[n..][1..];
  }

  lemma TimeoutTurn(before: State, s: State, id: nat, now: nat)
    requires id < |s.commands| == |before.commands| && s.commands[id..] == before.commands[id..]
    requires s == Steps(before, TimeoutEvents(id, now))
    ensures var r := TimedOut(s, id, now);
            r == Steps(before, TimeoutEvents(id + 1, now)) && |r.commands| == |s.commands| && r.commands[id + 1..] == before.commands[id + 1..]
    ensures |Expired(before.commands, id + 1, now)| == |Expired(before.commands, id, now)| + if IsExpired(s.commands[id], now) then 1 else 0
  {
    StepsAppend(before, TimeoutEvents(id, now), TimeoutEvent(id, now));
    TimeoutStepIs(s, id, now);
    SameTail(s.commands, before.commands, id, Finish(s.commands[id], Timeout, now));
    ExpiredMore(before.commands, id, now);
  }

  lemma TimeoutStepIs(s: State, id: nat, now: nat)
    requires id < |s.commands|
    ensures Step(s, TimeoutEvent(id, now)) == TimedOut(s, id, now)
  {
  }

  lemma ExpiredMore(commands: seq<Command>, n: nat, now: nat)
    requires n < |commands|
    ensures Expired(commands, n + 1, now)
         == Expired(commands, n, now) + if !commands[n].status.Terminal() && commands[n].deadlineAt <= now then {n} else {}
    ensures n !in Expired(commands, n, now)
  {
  }

  function TimeoutEvents(n: nat, now: nat): seq<Event> {
    if n == 0 then [] else TimeoutEvents(n - 1, now) + [TimeoutEvent(n - 1, now)]
  }
}
