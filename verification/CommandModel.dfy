/**
 Rows and guarded transactions of the durable command service, with the linked task history, the
 task-result processor and the dispatcher.

 Every transaction is one step. A dispatch is cut at the points where other transactions may come
 in between: it lists, prepares, records, sends and, when the send failed, rolls back. The master may
 restart at any of them.
 */
module CommandModel {
  import opened Wrappers

  // ---- Rows ----------------------------------------------------------------------------------

  datatype CommandType =
    | PolicyPush
    | SnapshotListReq
    | BackupNow
    | BackupVerifyReq
    | RestoreReq
    | SelectiveRestoreReq
    | OtherType(name: string)
  {
    predicate LongRunning() { BackupNow? || BackupVerifyReq? || RestoreReq? || SelectiveRestoreReq? }

    function TaskType(): Option<TaskType> {
      match this
      case BackupNow => Some(BackupTask)
      case BackupVerifyReq => Some(VerifyTask)
      case RestoreReq => Some(RestoreTask)
      case SelectiveRestoreReq => Some(RestoreTask)
      case _ => None
    }

    // Seconds until the deadline of a command of this type.
    function TimeToLive(): nat {
      match this
      case PolicyPush => 5 * 60
      case SnapshotListReq => 2 * 60
      case BackupNow => 6 * 3600
      case BackupVerifyReq => 6 * 3600
      case RestoreReq => 6 * 3600
      case SelectiveRestoreReq => 6 * 3600
      case OtherType(_) => 30 * 60
    }
  }

  datatype CommandStatus = Pending | Dispatched | Running | Succeeded | Failed | Timeout | Cancelled {
    predicate Terminal() { Succeeded? || Failed? || Timeout? || Cancelled? }
  }

  datatype TaskType = BackupTask | VerifyTask | RestoreTask

  // A task's status is whatever text an agent reports; the named ones are those the master knows.
  datatype TaskStatus =
    | TaskPending
    | TaskRunning
    | TaskSuccess
    | TaskPartialSuccess
    | TaskFailed
    | TaskTimeout
    | TaskCancelled
    | OtherStatus(text: string)

  // The stored message of a command, as far as dispatching looks into it.
  datatype Payload = Payload(readable: bool, messageType: CommandType, hasIncludePaths: bool)

  datatype Command = Command(
    agentId: string,
    ctype: CommandType,
    status: CommandStatus,
    messageId: string,
    payload: Payload,
    attempts: nat,
    deadlineAt: nat,
    dispatchedAt: Option<nat>,
    completedAt: Option<nat>)

  datatype Task = Task(taskType: TaskType, status: TaskStatus, startedAt: Option<nat>, finishedAt: Option<nat>)

  // A history row that belongs to no command.
  datatype History = History(agentId: string, messageId: string, taskType: TaskType, status: TaskStatus)

  // Where the dispatcher is; it holds the dispatch lock unless it is idle.
  datatype Dispatcher =
    | Idle
    | Working(todo: seq<nat>)
    | Prepared(id: nat, todo: seq<nat>)
    | Sending(id: nat, todo: seq<nat>)
    | RollingBack(id: nat, todo: seq<nat>)

  // `commands` is in creation order and a command's id is its position; `tasks` holds the history
  // row linked to a command. `sent` and `commits` record the sends that succeeded and the results
  // whose effects were committed.
  datatype State = State(
    commands: seq<Command>,
    tasks: map<nat, Task>,
    histories: seq<History>,
    snapshots: set<(string, string)>,
    dispatcher: Dispatcher,
    sent: seq<nat>,
    commits: seq<nat>)

  const INITIAL := State([], map[], [], {}, Idle, [], [])

  // ---- Events --------------------------------------------------------------------------------

  datatype CreateInput = CreateInput(
    agentId: string,
    ctype: CommandType,
    messageId: string,
    payload: Payload,
    taskType: Option<TaskType>,
    taskState: Option<TaskStatus>,
    timeoutHours: int)

  datatype TaskResult = TaskResult(
    taskType: TaskType,
    status: TaskStatus,
    snapshotIds: set<string>,
    startedAt: Option<nat>,
    finishedAt: Option<nat>)

  datatype Capability = Supported | Unsupported | Unknown

  datatype Event =
    | CreateEvent(input: CreateInput, now: nat)
    | ListEvent(agentId: string, limit: int, resend: bool, online: bool, now: nat)
    | PrepareEvent(capability: Capability, now: nat)
    | RecordEvent(now: nat)
    | SendEvent(delivered: bool)
    | RollbackEvent
    | StopEvent
    | RestartEvent
    | CancelEvent(id: nat, now: nat)
    | TimeoutEvent(id: nat, now: nat)
    | ResultEvent(agentId: string, messageId: string, result: TaskResult, localized: bool, now: nat)
    | PolicyAckEvent(agentId: string, messageId: string, success: bool, now: nat)
    | SnapshotListEvent(agentId: string, messageId: string, snapshotIds: set<string>, now: nat)
    | FinishEvent(agentId: string, messageId: string, ctype: Option<CommandType>, timedOut: bool, now: nat)
    | RecordByIdEvent(id: nat, now: nat)
    | RecordFailureByIdEvent(id: nat)
    | RetireEvent(ids: set<nat>, now: nat)

  // ---- Updates -------------------------------------------------------------------------------

  function Finish(c: Command, status: CommandStatus, now: nat): Command {
    c.(status := status, completedAt := Some(now))
  }

  function TaskTo(t: Task, status: TaskStatus, now: nat): Task {
    t.(status := status, finishedAt := Some(now))
  }

  predicate Open(t: Task) { t.status.TaskPending? || t.status.TaskRunning? }

  // Ends a command, and its task when that is still open.
  function FinishWithTask(s: State, id: nat, status: CommandStatus, taskStatus: TaskStatus, now: nat): State
    requires id < |s.commands|
  {
    s.(commands := s.commands[id := Finish(s.commands[id], status, now)],
       tasks := if id in s.tasks && Open(s.tasks[id]) then s.tasks[id := TaskTo(s.tasks[id], taskStatus, now)] else s.tasks)
  }

  predicate HasMessage(commands: seq<Command>, messageId: string) {
    exists i :: 0 <= i < |commands| && commands[i].messageId == messageId
  }

  function Create(s: State, input: CreateInput, now: nat): State {
    if input.agentId == "" || input.ctype == OtherType("") || input.messageId == "" || HasMessage(s.commands, input.messageId) then s
    else
      var deadline := now + if input.timeoutHours > 0 then input.timeoutHours * 3600 else input.ctype.TimeToLive();
      var c := Command(input.agentId, input.ctype, Pending, input.messageId, input.payload, 0, deadline, None, None);
      s.(commands := s.commands + [c],
         tasks := if input.taskType.None? then s.tasks
                  else s.tasks[|s.commands| := Task(input.taskType.value,
                                                    if input.taskState.None? then TaskPending else input.taskState.value,
                                                    None, None)])
  }

  // ---- Dispatching ---------------------------------------------------------------------------

  predicate Listed(c: Command, agentId: string, resend: bool, now: nat) {
    c.agentId == agentId && (c.status.Pending? || (resend && c.status.Dispatched?)) && c.deadlineAt > now
  }

  function ListFrom(commands: seq<Command>, agentId: string, resend: bool, now: nat): (ids: seq<nat>)
    ensures forall k :: 0 <= k < |ids| ==> ids[k] < |commands| && Listed(commands[ids[k]], agentId, resend, now)
    ensures forall j, k :: 0 <= j < k < |ids| ==> ids[j] < ids[k]
  {
    if commands == [] then []
    else
      var n := |commands| - 1;
      var before := ListFrom(commands[..n], agentId, resend, now);
      if Listed(commands[n], agentId, resend, now) then before + [n] else before
  }

  function Limited(ids: seq<nat>, limit: int): (r: seq<nat>)
    ensures r <= ids
  {
    var max := if limit <= 0 then 100 else limit;
    if |ids| <= max then ids else ids[..max]
  }

  function List(s: State, agentId: string, limit: int, resend: bool, online: bool, now: nat): State {
    if !s.dispatcher.Idle? || agentId == "" || !online then s
    else s.(dispatcher := Working(Limited(ListFrom(s.commands, agentId, resend, now), limit)))
  }

  datatype Preparation = Ready | ReadySelective | CapabilityUnknown | CannotDispatch

  function PrepareCommand(c: Command, capability: Capability): Preparation {
    if !c.payload.readable then CannotDispatch
    else if c.ctype != RestoreReq || c.payload.messageType != RestoreReq || !c.payload.hasIncludePaths then Ready
    else match capability
      case Supported => ReadySelective
      case Unsupported => CannotDispatch
      case Unknown => CapabilityUnknown
  }

  function FailCommandAndTask(s: State, id: nat, now: nat): State
    requires id < |s.commands|
  {
    if s.commands[id].status.Terminal() then s
    else if s.commands[id].ctype.LongRunning() then FinishWithTask(s, id, Failed, TaskFailed, now)
    else s.(commands := s.commands[id := Finish(s.commands[id], Failed, now)])
  }

  // A restore of selected paths is stored under its own type before it goes out.
  function PersistSelective(s: State, id: nat): State
    requires id < |s.commands|
  {
    var c := s.commands[id];
    if c.status.Terminal() then s
    else s.(commands := s.commands[id := c.(ctype := SelectiveRestoreReq,
                                            payload := c.payload.(messageType := SelectiveRestoreReq))])
  }

  function Prepare(s: State, capability: Capability, now: nat): State {
    if !s.dispatcher.Working? then s
    else if s.dispatcher.todo == [] then s.(dispatcher := Idle)
    else
      var id, todo := s.dispatcher.todo[0], s.dispatcher.todo[1..];
      if id >= |s.commands| then s
      else match PrepareCommand(s.commands[id], capability)
        case Ready => s.(dispatcher := Prepared(id, todo))
        case ReadySelective => PersistSelective(s, id).(dispatcher := Prepared(id, todo))
        case CapabilityUnknown => s.(dispatcher := Working(todo))
        case CannotDispatch => FailCommandAndTask(s, id, now).(dispatcher := Working(todo))
  }

  function RecordDispatch(s: State, id: nat, now: nat): State
    requires id < |s.commands|
  {
    var c := s.commands[id];
    if c.status.Terminal() then s
    else
      var long := c.ctype.LongRunning();
      s.(commands := s.commands[id := c.(attempts := c.attempts + 1, dispatchedAt := Some(now),
                                         status := if long then Running else Dispatched)],
         tasks := if long && id in s.tasks && s.tasks[id].status.TaskPending?
                  then s.tasks[id := s.tasks[id].(status := TaskRunning, startedAt := Some(now))] else s.tasks)
  }

  function RecordFailure(s: State, id: nat, incrementAttempt: bool): State
    requires id < |s.commands|
  {
    var c := s.commands[id];
    if c.status.Terminal() then s
    else
      s.(commands := s.commands[id := c.(attempts := c.attempts + (if incrementAttempt then 1 else 0),
                                         dispatchedAt := None, status := Pending)],
         tasks := if c.ctype.LongRunning() && id in s.tasks && s.tasks[id].status.TaskRunning?
                  then s.tasks[id := s.tasks[id].(status := TaskPending, startedAt := None)] else s.tasks)
  }

  function Record(s: State, now: nat): State {
    if !s.dispatcher.Prepared? || s.dispatcher.id >= |s.commands| then s
    else
      var id, todo := s.dispatcher.id, s.dispatcher.todo;
      if s.commands[id].status.Terminal() then s.(dispatcher := Working(todo))
      else RecordDispatch(s, id, now).(dispatcher := Sending(id, todo))
  }

  function Send(s: State, delivered: bool): State {
    if !s.dispatcher.Sending? then s
    else
      var id, todo := s.dispatcher.id, s.dispatcher.todo;
      if delivered then s.(sent := s.sent + [id], dispatcher := Working(todo))
      else s.(dispatcher := RollingBack(id, todo))
  }

  function Rollback(s: State): State {
    if !s.dispatcher.RollingBack? || s.dispatcher.id >= |s.commands| then s
    else RecordFailure(s, s.dispatcher.id, false).(dispatcher := Working(s.dispatcher.todo))
  }

  // ---- Results -------------------------------------------------------------------------------

  predicate Matches(c: Command, agentId: string, messageId: string) {
    c.agentId == agentId && c.messageId == messageId
  }

  // The position of the command an agent's message belongs to; message ids are unique.
  function Find(commands: seq<Command>, agentId: string, messageId: string): (r: Option<nat>)
    ensures r.Some? ==> r.value < |commands| && Matches(commands[r.value], agentId, messageId)
    ensures r.None? ==> forall i :: 0 <= i < |commands| ==> !Matches(commands[i], agentId, messageId)
  {
    if commands == [] then None
    else
      var n := |commands| - 1;
      var before := Find(commands[..n], agentId, messageId);
      if before.Some? then before
      else if Matches(commands[n], agentId, messageId) then Some(n) else None
  }

  function ResultCommandStatus(status: TaskStatus): CommandStatus {
    match status
    case TaskSuccess => Succeeded
    case TaskCancelled => Cancelled
    case _ => Failed
  }

  predicate TaskTerminal(status: TaskStatus) {
    status.TaskSuccess? || status.TaskPartialSuccess? || status.TaskFailed? || status.TaskTimeout? || status.TaskCancelled?
  }

  // Whether a delivered result is the one its command is waiting for.
  predicate Accepts(c: Command, result: TaskResult) {
    c.ctype.LongRunning() && !c.status.Terminal() && c.ctype.TaskType() == Some(result.taskType)
  }

  function ResultTask(t: Task, result: TaskResult, now: nat): Task {
    t.(status := result.status,
       startedAt := if result.startedAt.Some? then result.startedAt else t.startedAt,
       finishedAt := if result.finishedAt.None? && TaskTerminal(result.status) then Some(now) else result.finishedAt)
  }

  predicate CarriesSnapshots(result: TaskResult) { result.taskType.BackupTask? && result.status.TaskSuccess? }

  function Upsert(s: set<(string, string)>, agentId: string, ids: set<string>): set<(string, string)> {
    s + (set x | x in ids && x != "" :: (agentId, x))
  }

  function Complete(s: State, id: nat, result: TaskResult, now: nat): State
    requires id < |s.commands|
  {
    s.(commands := s.commands[id := Finish(s.commands[id], ResultCommandStatus(result.status), now)],
       tasks := if id in s.tasks then s.tasks[id := ResultTask(s.tasks[id], result, now)] else s.tasks,
       snapshots := if CarriesSnapshots(result) && id in s.tasks
                    then Upsert(s.snapshots, s.commands[id].agentId, result.snapshotIds) else s.snapshots,
       commits := s.commits + [id])
  }

  predicate RunningRestore(h: History, agentId: string, messageId: string) {
    h.agentId == agentId && h.taskType.RestoreTask? && h.status.TaskRunning? && h.messageId == messageId
  }

  function FindHistory(hs: seq<History>, agentId: string, messageId: string): (r: Option<nat>)
    ensures r.Some? ==> r.value < |hs| && RunningRestore(hs[r.value], agentId, messageId)
  {
    if hs == [] then None
    else
      var before := FindHistory(hs[..|hs| - 1], agentId, messageId);
      if before.Some? then before
      else if RunningRestore(hs[|hs| - 1], agentId, messageId) then Some(|hs| - 1) else None
  }

  // A result no command knows about is kept as a history row of its own.
  function RecordHistory(s: State, agentId: string, messageId: string, result: TaskResult): State {
    var row := History(agentId, messageId, result.taskType, result.status);
    var known := if result.taskType.RestoreTask? && messageId != "" then FindHistory(s.histories, agentId, messageId) else None;
    if known.Some? then s.(histories := s.histories[known.value := s.histories[known.value].(status := result.status)])
    else s.(histories := s.histories + [row],
            snapshots := if CarriesSnapshots(result) then Upsert(s.snapshots, agentId, result.snapshotIds) else s.snapshots)
  }

  // What the master does with one delivered task result.
  function Deliver(s: State, agentId: string, messageId: string, result: TaskResult, localized: bool, now: nat): State {
    var found := if messageId == "" then None else Find(s.commands, agentId, messageId);
    if found.Some? then
      if Accepts(s.commands[found.value], result) then Complete(s, found.value, result, now) else s
    else if localized then RecordHistory(s, agentId, messageId, result)
    else s
  }

  // ---- Steps ---------------------------------------------------------------------------------

  function Step(s: State, e: Event): State {
    match e
    case CreateEvent(input, now) => Create(s, input, now)
    case ListEvent(agentId, limit, resend, online, now) => List(s, agentId, limit, resend, online, now)
    case PrepareEvent(capability, now) => Prepare(s, capability, now)
    case RecordEvent(now) => Record(s, now)
    case SendEvent(delivered) => Send(s, delivered)
    case RollbackEvent => Rollback(s)
    case StopEvent => if s.dispatcher.Working? || s.dispatcher.Prepared? then s.(dispatcher := Idle) else s
    case RestartEvent => s.(dispatcher := Idle)
    case CancelEvent(id, now) =>
      if id < |s.commands| && s.commands[id].status.Pending? then FinishWithTask(s, id, Cancelled, TaskCancelled, now) else s
    case TimeoutEvent(id, now) =>
      if id < |s.commands| && !s.commands[id].status.Terminal() && s.commands[id].deadlineAt <= now
      then FinishWithTask(s, id, Timeout, TaskTimeout, now) else s
    case ResultEvent(agentId, messageId, result, localized, now) => Deliver(s, agentId, messageId, result, localized, now)
    case PolicyAckEvent(agentId, messageId, success, now) =>
      var found := Find(s.commands, agentId, messageId);
      if agentId != "" && messageId != "" && found.Some? && s.commands[found.value].ctype.PolicyPush? && !s.commands[found.value].status.Terminal()
      then s.(commands := s.commands[found.value := Finish(s.commands[found.value], if success then Succeeded else Failed, now)])
      else s
    case SnapshotListEvent(agentId, messageId, ids, now) =>
      var found := Find(s.commands, agentId, messageId);
      if messageId != "" && found.Some? && s.commands[found.value].ctype.SnapshotListReq? && !s.commands[found.value].status.Terminal()
      then s.(commands := s.commands[found.value := Finish(s.commands[found.value], Succeeded, now)],
              snapshots := Upsert(s.snapshots, agentId, ids))
      else s
    case FinishEvent(agentId, messageId, ctype, timedOut, now) =>
      var found := FinishTarget(s, agentId, messageId, ctype);
      if found.Some?
      then s.(commands := s.commands[found.value := Finish(s.commands[found.value], if timedOut then Timeout else Failed, now)])
      else s
    case RecordByIdEvent(id, now) => if id < |s.commands| then RecordDispatch(s, id, now) else s
    case RecordFailureByIdEvent(id) => if id < |s.commands| then RecordFailure(s, id, true) else s
    case RetireEvent(ids, now) => s.(commands := Retire(s.commands, ids, now))
  }

  // The position of the command with a message, whichever agent it is for.
  function FindMessage(commands: seq<Command>, messageId: string): (r: Option<nat>)
    ensures r.Some? ==> r.value < |commands| && commands[r.value].messageId == messageId
    ensures r.None? ==> forall i :: 0 <= i < |commands| ==> commands[i].messageId != messageId
  {
    if commands == [] then None
    else
      var n := |commands| - 1;
      var before := FindMessage(commands[..n], messageId);
      if before.Some? then before
      else if commands[n].messageId == messageId then Some(n) else None
  }

  // The live command that `FailCommand`, `FailCommandOfType` or `TimeoutCommand` ends. Without an agent
  // id the message alone names it.
  function FinishTarget(s: State, agentId: string, messageId: string, ctype: Option<CommandType>): (r: Option<nat>)
    ensures r.Some? ==> r.value < |s.commands| && !s.commands[r.value].status.Terminal()
  {
    var found := if agentId == "" then FindMessage(s.commands, messageId) else Find(s.commands, agentId, messageId);
    if messageId != "" && found.Some? && !s.commands[found.value].status.Terminal()
       && (ctype.None? || s.commands[found.value].ctype == ctype.value)
    then found else None
  }

  // Ends superseded policy pushes.
  function Retire(commands: seq<Command>, ids: set<nat>, now: nat): (r: seq<Command>)
    ensures |r| == |commands|
    ensures forall i :: 0 <= i < |commands| ==>
              r[i] == if i in ids && commands[i].ctype.PolicyPush? && !commands[i].status.Terminal()
                      then Finish(commands[i], Failed, now) else commands[i]
  {
    seq(|commands|, i requires 0 <= i < |commands| =>
      if i in ids && commands[i].ctype.PolicyPush? && !commands[i].status.Terminal()
      then Finish(commands[i], Failed, now) else commands[i])
  }

  function Steps(s: State, run: seq<Event>): State {
    if run == [] then s else Step(Steps(s, run[..|run| - 1]), run[|run| - 1])
  }

  // What callers see to for the sake of tasks; nothing in the service checks it.
  predicate KeepsTasks(s: State, e: Event) {
    match e
    case CreateEvent(input, _) =>
      input.taskType.Some? ==> input.ctype.TaskType() == input.taskType
                               && (input.taskState.None? || input.taskState.value.TaskPending?)
    case ResultEvent(_, _, result, _, _) => ReportedStatus(result.status)
    case FinishEvent(agentId, messageId, ctype, _, _) =>
      var found := FinishTarget(s, agentId, messageId, ctype);
      found.Some? ==> found.value !in s.tasks
    case _ => true
  }

  // The dispatch of an unfinished long-running command that has gone out, or is about to.
  predicate GoneOut(s: State, id: nat) {
    id < |s.commands| && s.commands[id].ctype.LongRunning() && !s.commands[id].status.Terminal()
    && (id in s.sent || (s.dispatcher.Sending? && s.dispatcher.id == id))
  }

  // And for the sake of sends: such a dispatch is not withdrawn by hand.
  predicate KeepsSends(s: State, e: Event) { e.RecordFailureByIdEvent? ==> !GoneOut(s, e.id) }

  // The statuses agents report results with.
  predicate ReportedStatus(status: TaskStatus) {
    status.TaskSuccess? || status.TaskPartialSuccess? || status.TaskFailed? || status.TaskCancelled?
  }

  predicate TasksRun(run: seq<Event>) {
    run == [] || (TasksRun(run[..|run| - 1]) && KeepsTasks(Steps(INITIAL, run[..|run| - 1]), run[|run| - 1]))
  }

  predicate SendsRun(s: State, run: seq<Event>) {
    run == [] || (SendsRun(s, run[..|run| - 1]) && KeepsSends(Steps(s, run[..|run| - 1]), run[|run| - 1]))
  }
}
