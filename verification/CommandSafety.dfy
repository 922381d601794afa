/** What every transaction of the command service keeps. */
module CommandSafety {
  import opened CommandModel
  import opened Wrappers

  // ---- The invariant -------------------------------------------------------------------------

  // A command and its task always tell the same story.
  predicate Agrees(c: CommandStatus, t: TaskStatus) {
    match c
    case Pending => t.TaskPending?
    case Dispatched => false
    case Running => t.TaskRunning?
    case Succeeded => t.TaskSuccess?
    case Failed => t.TaskFailed? || t.TaskPartialSuccess?
    case Timeout => t.TaskTimeout?
    case Cancelled => t.TaskCancelled?
  }

  ghost predicate RowOk(c: Command) {
    && (c.completedAt.Some? <==> c.status.Terminal())
    && (c.status.Running? ==> c.ctype.LongRunning())
    && (c.status.Dispatched? ==> !c.ctype.LongRunning())
  }

  ghost predicate Rows(s: State) {
    && (forall i :: 0 <= i < |s.commands| ==> RowOk(s.commands[i]))
    && (forall i, j :: 0 <= i < j < |s.commands| ==> s.commands[i].messageId != s.commands[j].messageId)
  }

  ghost predicate TaskOk(s: State, id: nat)
    requires id in s.tasks
  {
    && id < |s.commands|
    && s.commands[id].ctype.TaskType() == Some(s.tasks[id].taskType)
    && Agrees(s.commands[id].status, s.tasks[id].status)
  }

  ghost predicate Coupled(s: State) {
    forall id :: id in s.tasks ==> TaskOk(s, id)
  }

  predicate Long(s: State, id: nat) { id < |s.commands| && s.commands[id].ctype.LongRunning() }

  // Long-running commands go out at most once, and not while they are pending.
  ghost predicate SentOnce(s: State) {
    && (forall k :: 0 <= k < |s.sent| ==> s.sent[k] < |s.commands|)
    && (forall id: nat :: Long(s, id) ==>
          multiset(s.sent)[id] <= 1 && (s.commands[id].status.Pending? ==> id !in s.sent))
  }

  // A long-running command that has not gone out.
  ghost predicate Unsent(s: State, id: nat) { id < |s.commands| && (s.commands[id].ctype.LongRunning() ==> id !in s.sent) }

  ghost predicate Todo(s: State, todo: seq<nat>) {
    && (forall k :: 0 <= k < |todo| ==> Unsent(s, todo[k]))
    && (forall j, k :: 0 <= j < k < |todo| ==> todo[j] < todo[k])
  }

  // What the dispatcher is about to send has not gone out, and is recorded.
  ghost predicate Dispatching(s: State) {
    match s.dispatcher
    case Idle => true
    case Working(todo) => Todo(s, todo)
    case Prepared(id, todo) => Unsent(s, id) && Todo(s, todo) && forall k :: 0 <= k < |todo| ==> id < todo[k]
    case Sending(id, todo) =>
      && Unsent(s, id) && (Long(s, id) ==> !s.commands[id].status.Pending?)
      && Todo(s, todo) && forall k :: 0 <= k < |todo| ==> id < todo[k]
    case RollingBack(id, todo) => Unsent(s, id) && Todo(s, todo) && forall k :: 0 <= k < |todo| ==> id < todo[k]
  }

  ghost predicate Sends(s: State) { SentOnce(s) && Dispatching(s) }

  // Results are committed at most once, and only for commands that have ended.
  ghost predicate Committed(s: State) {
    && (forall k :: 0 <= k < |s.commits| ==> s.commits[k] < |s.commands| && s.commands[s.commits[k]].status.Terminal())
    && (forall j, k :: 0 <= j < k < |s.commits| ==> s.commits[j] != s.commits[k])
  }

  // ---- What a transaction may do to a row ----------------------------------------------------

  predicate SameIdentity(a: Command, b: Command) {
    && a.agentId == b.agentId
    && a.messageId == b.messageId
    && a.deadlineAt == b.deadlineAt
    && a.ctype.LongRunning() == b.ctype.LongRunning()
    && a.ctype.TaskType() == b.ctype.TaskType()
  }

  // A finished command keeps its status and its completion time.
  predicate RowStep(a: Command, b: Command) {
    SameIdentity(a, b) && (a.status.Terminal() ==> b.status == a.status && b.completedAt == a.completedAt)
  }

  predicate RowsStep(a: State, b: State) {
    |a.commands| <= |b.commands| && forall i :: 0 <= i < |a.commands| ==> RowStep(a.commands[i], b.commands[i])
  }

  lemma OneRowStep(s: State, r: State, id: nat, c: Command)
    requires id < |s.commands| && r.commands == s.commands[id := c] && RowStep(s.commands[id], c)
    ensures RowsStep(s, r)
  {
  }

  lemma PrepareRows(s: State, capability: Capability, now: nat)
    ensures RowsStep(s, Prepare(s, capability, now))
  {
    if s.dispatcher.Working? && s.dispatcher.todo != [] && s.dispatcher.todo[0] < |s.commands| {
      var id := s.dispatcher.todo[0];
      OneRowStep(s, Prepare(s, capability, now), id, Prepare(s, capability, now).commands[id]);
    }
  }

  lemma RecordRows(s: State, id: nat, now: nat, incrementAttempt: bool)
    requires id < |s.commands|
    ensures RowsStep(s, RecordDispatch(s, id, now)) && RowsStep(s, RecordFailure(s, id, incrementAttempt))
  {
  }

  lemma DispatchRows(s: State, e: Event)
    requires e.RecordEvent? || e.SendEvent? || e.RollbackEvent? || e.StopEvent? || e.RecordByIdEvent? || e.RecordFailureByIdEvent?
    ensures RowsStep(s, Step(s, e))
  {
    if e.RecordByIdEvent? || e.RecordFailureByIdEvent? {
      if e.id < |s.commands| {
        RecordRows(s, e.id, if e.RecordByIdEvent? then e.now else 0, true);
      }
    } else if s.dispatcher.Prepared? || s.dispatcher.RollingBack? {
      if s.dispatcher.id < |s.commands| {
        RecordRows(s, s.dispatcher.id, if e.RecordEvent? then e.now else 0, false);
      }
    }
  }

  lemma ResultRows(s: State, e: Event)
    requires e.ResultEvent? || e.PolicyAckEvent? || e.SnapshotListEvent?
    ensures RowsStep(s, Step(s, e))
  {
  }

  // Every step, proper or not, leaves finished commands as they are.
  lemma StepRows(s: State, e: Event)
    ensures RowsStep(s, Step(s, e))
  {
    if e.PrepareEvent? {
      PrepareRows(s, e.capability, e.now);
    } else if e.ResultEvent? || e.PolicyAckEvent? || e.SnapshotListEvent? {
      ResultRows(s, e);
    } else if e.CreateEvent? || e.ListEvent? || e.RestartEvent? || e.CancelEvent? || e.TimeoutEvent? || e.FinishEvent? || e.RetireEvent? {
    } else {
      DispatchRows(s, e);
    }
  }

  // ---- Rows and commits, whatever happens ----------------------------------------------------

  lemma RowReplaced(s: State, r: State, id: nat, c: Command)
    requires Rows(s) && id < |s.commands| && r.commands == s.commands[id := c]
    requires RowOk(c) && c.messageId == s.commands[id].messageId
    ensures Rows(r)
  {
  }

  lemma DispatchRowsKept(s: State, e: Event)
    requires Rows(s)
    requires e.RecordEvent? || e.SendEvent? || e.RollbackEvent? || e.RecordByIdEvent? || e.RecordFailureByIdEvent?
    ensures Rows(Step(s, e))
  {
    var r := Step(s, e);
    if r.commands != s.commands {
      var id := if e.RecordByIdEvent? || e.RecordFailureByIdEvent? then e.id else s.dispatcher.id;
      RowReplaced(s, r, id, r.commands[id]);
    }
  }

  lemma PrepareRowsKept(s: State, capability: Capability, now: nat)
    requires Rows(s)
    ensures Rows(Prepare(s, capability, now))
  {
    var r := Prepare(s, capability, now);
    if r.commands != s.commands {
      RowReplaced(s, r, s.dispatcher.todo[0], r.commands[s.dispatcher.todo[0]]);
    }
  }

  lemma AnswerRowsKept(s: State, e: Event)
    requires Rows(s) && (e.ResultEvent? || e.PolicyAckEvent? || e.SnapshotListEvent? || e.FinishEvent?)
    ensures Rows(Step(s, e))
  {
    var r := Step(s, e);
    var found := if e.FinishEvent? then FinishTarget(s, e.agentId, e.messageId, e.ctype) else Find(s.commands, e.agentId, e.messageId);
    if r.commands != s.commands {
      RowReplaced(s, r, found.value, r.commands[found.value]);
    }
  }

  lemma RowsKept(s: State, e: Event)
    requires Rows(s)
    ensures Rows(Step(s, e))
  {
    match e
    case CreateEvent(_, _) =>
    case ListEvent(_, _, _, _, _) =>
    case PrepareEvent(capability, now) => PrepareRowsKept(s, capability, now);
    case StopEvent =>
    case RestartEvent =>
    case CancelEvent(id, _) =>
      if id < |s.commands| { RowReplacedOrSame(s, Step(s, e), id); }
    case TimeoutEvent(id, _) =>
      if id < |s.commands| { RowReplacedOrSame(s, Step(s, e), id); }
    case RetireEvent(ids, now) => RetireRowsKept(s, ids, now);
    case ResultEvent(_, _, _, _, _) => AnswerRowsKept(s, e);
    case PolicyAckEvent(_, _, _, _) => AnswerRowsKept(s, e);
    case SnapshotListEvent(_, _, _, _) => AnswerRowsKept(s, e);
    case FinishEvent(_, _, _, _, _) => AnswerRowsKept(s, e);
    case _ => DispatchRowsKept(s, e);
  }

  lemma RowReplacedOrSame(s: State, r: State, id: nat)
    requires Rows(s) && id < |s.commands| && |r.commands| == |s.commands|
    requires r.commands == s.commands || (r.commands == s.commands[id := r.commands[id]]
                                          && RowOk(r.commands[id]) && r.commands[id].messageId == s.commands[id].messageId)
    ensures Rows(r)
  {
  }

  lemma RetireRowsKept(s: State, ids: set<nat>, now: nat)
    requires Rows(s)
    ensures Rows(s.(commands := Retire(s.commands, ids, now)))
  {
    var r := Retire(s.commands, ids, now);
    assert forall i :: 0 <= i < |r| ==> RowOk(s.commands[i]) && r[i].messageId == s.commands[i].messageId;
  }

  lemma CommittedKept(s: State, e: Event)
    requires Committed(s)
    ensures Committed(Step(s, e))
  {
    var r := Step(s, e);
    StepRows(s, e);
    CommitsGrow(s, e);
    forall k | 0 <= k < |s.commits|
      ensures r.commands[s.commits[k]].status.Terminal()
    {
      assert RowStep(s.commands[s.commits[k]], r.commands[s.commits[k]]);
    }
  }

  // Only a result for a command that waits for it is committed.
  lemma CommitsGrow(s: State, e: Event)
    ensures var r := Step(s, e);
            || r.commits == s.commits
            || exists id: nat :: id < |s.commands| && !s.commands[id].status.Terminal() && id < |r.commands|
                 && r.commands[id].status.Terminal() && r.commits == s.commits + [id]
  {
    if e.ResultEvent? {
      var found := Find(s.commands, e.agentId, e.messageId);
      if e.messageId != "" && found.Some? && Accepts(s.commands[found.value], e.result) {
        assert Step(s, e).commits == s.commits + [found.value];
      }
    }
  }

  // ---- Tasks -----------------------------------------------------------------------------------

  // One command changes, together with whatever becomes of its task.
  lemma OneTaskKept(s: State, r: State, id: nat, c: Command)
    requires Coupled(s) && id < |s.commands| && r.commands == s.commands[id := c]
    requires c.ctype.TaskType() == s.commands[id].ctype.TaskType()
    requires r.tasks.Keys == s.tasks.Keys && forall k :: k in s.tasks && k != id ==> r.tasks[k] == s.tasks[k]
    requires id in s.tasks ==> r.tasks[id].taskType == s.tasks[id].taskType && Agrees(c.status, r.tasks[id].status)
    ensures Coupled(r)
  {
    forall k | k in r.tasks ensures TaskOk(r, k) {
      assert TaskOk(s, k);
    }
  }

  lemma SameTasks(s: State, r: State)
    requires Coupled(s) && r.commands == s.commands && r.tasks == s.tasks
    ensures Coupled(r)
  {
    forall k | k in r.tasks ensures TaskOk(r, k) {
      assert TaskOk(s, k);
    }
  }

  lemma CreateCoupled(s: State, input: CreateInput, now: nat)
    requires Coupled(s) && KeepsTasks(s, CreateEvent(input, now))
    ensures Coupled(Create(s, input, now))
  {
    var r := Create(s, input, now);
    forall id | id in r.tasks ensures TaskOk(r, id) {
      if id in s.tasks {
        assert TaskOk(s, id);
      }
    }
  }

  lemma FinishWithTaskCoupled(s: State, id: nat, status: CommandStatus, taskStatus: TaskStatus, now: nat)
    requires Coupled(s) && id < |s.commands| && !s.commands[id].status.Terminal() && Agrees(status, taskStatus)
    ensures Coupled(FinishWithTask(s, id, status, taskStatus, now))
  {
    var r := FinishWithTask(s, id, status, taskStatus, now);
    assert id in s.tasks ==> TaskOk(s, id);
    OneTaskKept(s, r, id, r.commands[id]);
  }

  lemma FailCoupled(s: State, id: nat, now: nat)
    requires Coupled(s) && id < |s.commands|
    ensures Coupled(FailCommandAndTask(s, id, now))
  {
    if !s.commands[id].status.Terminal() {
      if s.commands[id].ctype.LongRunning() {
        FinishWithTaskCoupled(s, id, Failed, TaskFailed, now);
      } else {
        var r := FailCommandAndTask(s, id, now);
        assert id in s.tasks ==> TaskOk(s, id);
        OneTaskKept(s, r, id, r.commands[id]);
      }
    }
  }

  lemma PrepareCoupled(s: State, capability: Capability, now: nat)
    requires Coupled(s)
    ensures Coupled(Prepare(s, capability, now))
  {
    var r := Prepare(s, capability, now);
    if s.dispatcher.Working? && s.dispatcher.todo != [] && s.dispatcher.todo[0] < |s.commands| {
      var id := s.dispatcher.todo[0];
      match PrepareCommand(s.commands[id], capability) {
        case CannotDispatch =>
          FailCoupled(s, id, now);
          SameTasks(FailCommandAndTask(s, id, now), r);
        case ReadySelective =>
          assert id in s.tasks ==> TaskOk(s, id);
          OneTaskKept(s, r, id, r.commands[id]);
        case Ready => SameTasks(s, r);
        case CapabilityUnknown => SameTasks(s, r);
      }
    } else {
      SameTasks(s, r);
    }
  }

  // A dispatch record, or its withdrawal, moves command and task together.
  lemma RecordCoupled(s: State, id: nat, now: nat, incrementAttempt: bool)
    requires Coupled(s) && id < |s.commands|
    ensures Coupled(RecordDispatch(s, id, now)) && Coupled(RecordFailure(s, id, incrementAttempt))
  {
    assert id in s.tasks ==> TaskOk(s, id);
    if !s.commands[id].status.Terminal() {
      var a, b := RecordDispatch(s, id, now), RecordFailure(s, id, incrementAttempt);
      OneTaskKept(s, a, id, a.commands[id]);
      OneTaskKept(s, b, id, b.commands[id]);
    }
  }

  lemma DispatchCoupled(s: State, e: Event)
    requires Coupled(s)
    requires e.RecordEvent? || e.SendEvent? || e.RollbackEvent? || e.RecordByIdEvent? || e.RecordFailureByIdEvent?
    ensures Coupled(Step(s, e))
  {
    var r := Step(s, e);
    if e.RecordByIdEvent? || e.RecordFailureByIdEvent? {
      if e.id < |s.commands| {
        RecordCoupled(s, e.id, if e.RecordByIdEvent? then e.now else 0, true);
      }
    } else if e.RecordEvent? && s.dispatcher.Prepared? && s.dispatcher.id < |s.commands| {
      RecordCoupled(s, s.dispatcher.id, e.now, false);
      SameTasks(RecordDispatch(s, s.dispatcher.id, e.now), r);
    } else if e.RollbackEvent? && s.dispatcher.RollingBack? && s.dispatcher.id < |s.commands| {
      RecordCoupled(s, s.dispatcher.id, 0, false);
      SameTasks(RecordFailure(s, s.dispatcher.id, false), r);
    } else {
      SameTasks(s, r);
    }
  }

  lemma DeliverCoupled(s: State, agentId: string, messageId: string, result: TaskResult, localized: bool, now: nat)
    requires Coupled(s) && ReportedStatus(result.status)
    ensures Coupled(Deliver(s, agentId, messageId, result, localized, now))
  {
    var r := Deliver(s, agentId, messageId, result, localized, now);
    var found := if messageId == "" then None else Find(s.commands, agentId, messageId);
    if found.Some? && Accepts(s.commands[found.value], result) {
      OneTaskKept(s, r, found.value, r.commands[found.value]);
    } else {
      SameTasks(s, r);
    }
  }

  // Commands that have no task are ended on their own.
  lemma AnswerCoupled(s: State, e: Event)
    requires Coupled(s) && KeepsTasks(s, e) && (e.PolicyAckEvent? || e.SnapshotListEvent? || e.FinishEvent?)
    ensures Coupled(Step(s, e))
  {
    var r := Step(s, e);
    var found := if e.FinishEvent? then FinishTarget(s, e.agentId, e.messageId, e.ctype) else Find(s.commands, e.agentId, e.messageId);
    if r.commands != s.commands {
      assert found.value in s.tasks ==> TaskOk(s, found.value);
      OneTaskKept(s, r, found.value, r.commands[found.value]);
    } else {
      SameTasks(s, r);
    }
  }

  lemma RetireCoupled(s: State, ids: set<nat>, now: nat)
    requires Coupled(s)
    ensures Coupled(s.(commands := Retire(s.commands, ids, now)))
  {
    var r := s.(commands := Retire(s.commands, ids, now));
    forall k | k in r.tasks ensures TaskOk(r, k) {
      assert TaskOk(s, k);
    }
  }

  lemma CoupledKept(s: State, e: Event)
    requires Coupled(s) && KeepsTasks(s, e)
    ensures Coupled(Step(s, e))
  {
    match e
    case CreateEvent(input, now) => CreateCoupled(s, input, now);
    case ListEvent(_, _, _, _, _) => SameTasks(s, Step(s, e));
    case PrepareEvent(capability, now) => PrepareCoupled(s, capability, now);
    case StopEvent => SameTasks(s, Step(s, e));
    case RestartEvent => SameTasks(s, Step(s, e));
    case CancelEvent(id, now) =>
      if id < |s.commands| && s.commands[id].status.Pending? {
        FinishWithTaskCoupled(s, id, Cancelled, TaskCancelled, now);
      }
    case TimeoutEvent(id, now) =>
      if id < |s.commands| && !s.commands[id].status.Terminal() && s.commands[id].deadlineAt <= now {
        FinishWithTaskCoupled(s, id, Timeout, TaskTimeout, now);
      }
    case ResultEvent(agentId, messageId, result, localized, now) =>
      DeliverCoupled(s, agentId, messageId, result, localized, now);
    case RetireEvent(ids, now) => RetireCoupled(s, ids, now);
    case PolicyAckEvent(_, _, _, _) => AnswerCoupled(s, e);
    case SnapshotListEvent(_, _, _, _) => AnswerCoupled(s, e);
    case FinishEvent(_, _, _, _, _) => AnswerCoupled(s, e);
    case _ => DispatchCoupled(s, e);
  }

  // ---- Sends -----------------------------------------------------------------------------------

  // The row of a long-running command does not return to pending.
  predicate StaysOut(a: Command, b: Command) {
    a.ctype.LongRunning() == b.ctype.LongRunning()
    && (a.ctype.LongRunning() && b.status.Pending? ==> a.status.Pending?)
  }

  // Such changes, and new rows, disturb neither the dispatcher nor the send log.
  lemma SendsSame(a: State, b: State)
    requires Sends(a) && |a.commands| <= |b.commands| && b.sent == a.sent && b.dispatcher == a.dispatcher
    requires forall i :: 0 <= i < |a.commands| ==> StaysOut(a.commands[i], b.commands[i])
    ensures Sends(b)
  {
    forall id: nat | Unsent(a, id)
      ensures Unsent(b, id)
    {
      assert StaysOut(a.commands[id], b.commands[id]);
    }
    forall id: nat | Long(b, id)
      ensures multiset(b.sent)[id] <= 1 && (b.commands[id].status.Pending? ==> id !in b.sent)
    {
      if id < |a.commands| {
        assert StaysOut(a.commands[id], b.commands[id]) && Long(a, id);
      }
    }
    if a.dispatcher.Sending? {
      assert StaysOut(a.commands[a.dispatcher.id], b.commands[a.dispatcher.id]);
    }
  }

  predicate IsDispatchEvent(e: Event) {
    e.ListEvent? || e.PrepareEvent? || e.RecordEvent? || e.SendEvent? || e.RollbackEvent? || e.StopEvent?
    || e.RestartEvent?
  }

  lemma AnswersStayOut(s: State, e: Event)
    requires e.ResultEvent? || e.PolicyAckEvent? || e.SnapshotListEvent? || e.FinishEvent?
    ensures var r := Step(s, e);
            && |s.commands| == |r.commands| && r.sent == s.sent && r.dispatcher == s.dispatcher
            && forall i :: 0 <= i < |s.commands| ==> StaysOut(s.commands[i], r.commands[i])
  {
  }

  // Everything but the dispatcher and a withdrawal leaves rows out that are out.
  lemma OthersStayOut(s: State, e: Event)
    requires !IsDispatchEvent(e) && !e.RecordFailureByIdEvent?
    ensures var r := Step(s, e);
            && |s.commands| <= |r.commands| && r.sent == s.sent && r.dispatcher == s.dispatcher
            && forall i :: 0 <= i < |s.commands| ==> StaysOut(s.commands[i], r.commands[i])
  {
    if e.ResultEvent? || e.PolicyAckEvent? || e.SnapshotListEvent? || e.FinishEvent? {
      AnswersStayOut(s, e);
    }
  }

  lemma WithdrawKept(s: State, id: nat)
    requires Sends(s) && id < |s.commands| && !GoneOut(s, id)
    ensures Sends(RecordFailure(s, id, true))
  {
    var r := RecordFailure(s, id, true);
    forall k: nat | Unsent(s, k) ensures Unsent(r, k) {
    }
    forall k: nat | Long(r, k)
      ensures multiset(r.sent)[k] <= 1 && (r.commands[k].status.Pending? ==> k !in r.sent)
    {
      assert Long(s, k);
    }
  }

  lemma ListSends(s: State, agentId: string, limit: int, resend: bool, online: bool, now: nat)
    requires Rows(s) && Sends(s)
    ensures Sends(List(s, agentId, limit, resend, online, now))
  {
    var r := List(s, agentId, limit, resend, online, now);
    if r != s {
      var ids := ListFrom(s.commands, agentId, resend, now);
      forall k | 0 <= k < |r.dispatcher.todo| ensures Unsent(r, r.dispatcher.todo[k]) {
        assert r.dispatcher.todo[k] == ids[k];
        assert Listed(s.commands[ids[k]], agentId, resend, now) && RowOk(s.commands[ids[k]]);
        assert Long(s, ids[k]) ==> s.commands[ids[k]].status.Pending?;
      }
      MovedSends(s, r);
    }
  }

  lemma MovedSends(s: State, r: State)
    requires SentOnce(s) && r.commands == s.commands && r.sent == s.sent && Dispatching(r)
    ensures Sends(r)
  {
    assert forall id: nat :: Long(r, id) ==> Long(s, id);
  }

  // The dispatcher goes on with the rest of its list.
  lemma TodoTail(s: State, r: State, todo: seq<nat>)
    requires Todo(s, todo) && todo != [] && |r.commands| == |s.commands| && r.sent == s.sent
    requires forall i :: 0 <= i < |s.commands| ==> s.commands[i].ctype.LongRunning() == r.commands[i].ctype.LongRunning()
    ensures Unsent(r, todo[0]) && Todo(r, todo[1..]) && forall k :: 0 <= k < |todo| - 1 ==> todo[0] < todo[1..][k]
  {
    forall k | 0 <= k < |todo| - 1 ensures Unsent(r, todo[1..][k]) {
      assert Unsent(s, todo[k + 1]);
    }
  }

  lemma PreparedStaysOut(s: State, id: nat, now: nat)
    requires id < |s.commands|
    ensures var a := FailCommandAndTask(s, id, now);
            a.dispatcher == s.dispatcher && a.sent == s.sent && |a.commands| == |s.commands|
            && forall i :: 0 <= i < |s.commands| ==> StaysOut(s.commands[i], a.commands[i])
    ensures s.commands[id].ctype == RestoreReq ==>
              var b := PersistSelective(s, id);
              b.dispatcher == s.dispatcher && b.sent == s.sent && |b.commands| == |s.commands|
              && forall i :: 0 <= i < |s.commands| ==> StaysOut(s.commands[i], b.commands[i])
  {
  }

  lemma PrepareSends(s: State, capability: Capability, now: nat)
    requires Sends(s)
    ensures Sends(Prepare(s, capability, now))
  {
    if s.dispatcher.Working? {
      if s.dispatcher.todo == [] {
        MovedSends(s, s.(dispatcher := Idle));
      } else {
        var id := s.dispatcher.todo[0];
        assert Unsent(s, id);
        PreparedStaysOut(s, id, now);
        match PrepareCommand(s.commands[id], capability) {
          case Ready => NextSends(s, true);
          case ReadySelective =>
            SendsSame(s, PersistSelective(s, id));
            NextSends(PersistSelective(s, id), true);
          case CapabilityUnknown => NextSends(s, false);
          case CannotDispatch =>
            SendsSame(s, FailCommandAndTask(s, id, now));
            NextSends(FailCommandAndTask(s, id, now), false);
        }
      }
    }
  }

  lemma NextSends(s: State, prepared: bool)
    requires Sends(s) && s.dispatcher.Working? && s.dispatcher.todo != []
    ensures var todo := s.dispatcher.todo;
            Sends(s.(dispatcher := if prepared then Prepared(todo[0], todo[1..]) else Working(todo[1..])))
  {
    var todo := s.dispatcher.todo;
    var r := s.(dispatcher := if prepared then Prepared(todo[0], todo[1..]) else Working(todo[1..]));
    TodoTail(s, r, todo);
    MovedSends(s, r);
  }

  lemma RecordStaysOut(s: State, id: nat, now: nat)
    requires id < |s.commands|
    ensures var r := RecordDispatch(s, id, now);
            && r.dispatcher == s.dispatcher && r.sent == s.sent && |r.commands| == |s.commands|
            && (Long(r, id) ==> !r.commands[id].status.Pending?)
            && forall i :: 0 <= i < |s.commands| ==> StaysOut(s.commands[i], r.commands[i])
  {
  }

  lemma RecordSends(s: State, now: nat)
    requires Sends(s)
    ensures Sends(Record(s, now))
  {
    if s.dispatcher.Prepared? {
      var id := s.dispatcher.id;
      var recorded := RecordDispatch(s, id, now);
      RecordStaysOut(s, id, now);
      SendsSame(s, recorded);
      MovedSends(recorded, Record(s, now));
    }
  }

  lemma SendSends(s: State, delivered: bool)
    requires Sends(s)
    ensures Sends(Send(s, delivered))
  {
    if s.dispatcher.Sending? {
      var id, todo := s.dispatcher.id, s.dispatcher.todo;
      var r := Send(s, delivered);
      forall k: nat | Unsent(s, k) && k != id ensures Unsent(r, k) {
      }
      forall k: nat | Long(r, k) ensures multiset(r.sent)[k] <= 1 && (r.commands[k].status.Pending? ==> k !in r.sent) {
        assert Long(s, k);
        if k == id {
          assert multiset(s.sent)[id] == 0;
        }
      }
    }
  }

  lemma RollbackSends(s: State)
    requires Sends(s)
    ensures Sends(Rollback(s))
  {
    if s.dispatcher.RollingBack? {
      var r := Rollback(s);
      forall k: nat | Unsent(s, k) ensures Unsent(r, k) {
      }
      forall k: nat | Long(r, k) ensures multiset(r.sent)[k] <= 1 && (r.commands[k].status.Pending? ==> k !in r.sent) {
        assert Long(s, k);
      }
    }
  }

  lemma SendsKept(s: State, e: Event)
    requires Rows(s) && Sends(s) && KeepsSends(s, e)
    ensures Sends(Step(s, e))
  {
    match e
    case ListEvent(agentId, limit, resend, online, now) => ListSends(s, agentId, limit, resend, online, now);
    case PrepareEvent(capability, now) => PrepareSends(s, capability, now);
    case RecordEvent(now) => RecordSends(s, now);
    case SendEvent(delivered) => SendSends(s, delivered);
    case RollbackEvent => RollbackSends(s);
    case StopEvent => MovedSends(s, Step(s, e));
    case RestartEvent => MovedSends(s, Step(s, e));
    case RecordFailureByIdEvent(id) =>
      if id < |s.commands| {
        WithdrawKept(s, id);
      }
    case _ =>
      OthersStayOut(s, e);
      SendsSame(s, Step(s, e));
  }

  // ---- Runs ------------------------------------------------------------------------------------

  // Whatever happens.
  lemma {:induction false} AlwaysKept(s: State, run: seq<Event>)
    requires Rows(s) && Committed(s)
    ensures Rows(Steps(s, run)) && Committed(Steps(s, run))
  {
    if run != [] {
      AlwaysKept(s, run[..|run| - 1]);
      RowsKept(Steps(s, run[..|run| - 1]), run[|run| - 1]);
      CommittedKept(Steps(s, run[..|run| - 1]), run[|run| - 1]);
    }
  }

  lemma {:induction false} SendsRunKept(s: State, run: seq<Event>)
    requires Rows(s) && Committed(s) && Sends(s) && SendsRun(s, run)
    ensures Sends(Steps(s, run))
  {
    if run != [] {
      SendsRunKept(s, run[..|run| - 1]);
      AlwaysKept(s, run[..|run| - 1]);
      SendsKept(Steps(s, run[..|run| - 1]), run[|run| - 1]);
    }
  }

  lemma {:induction false} TasksReachable(run: seq<Event>)
    requires TasksRun(run)
    ensures Coupled(Steps(INITIAL, run))
  {
    if run != [] {
      TasksReachable(run[..|run| - 1]);
      CoupledKept(Steps(INITIAL, run[..|run| - 1]), run[|run| - 1]);
    }
  }
}
