/** What each transaction of the command service makes of the rows, told in their fields alone. */
module CommandAnswers {
  import opened CommandDispatch
  import opened CommandModel
  import opened CommandSafety
  import opened CommandTheorems
  import opened Wrappers

  // ---- Vocabulary ----------------------------------------------------------------------------

  predicate Ended(status: CommandStatus) { status == Succeeded || status == Failed || status == Timeout || status == Cancelled }

  predicate TaskGoesOn(t: Task) { t.status == TaskPending || t.status == TaskRunning }

  // Command `id` is the one that the agent's message is about.
  predicate IsOf(s: State, id: nat, agentId: string, messageId: string) {
    id < |s.commands| && s.commands[id].agentId == agentId && s.commands[id].messageId == messageId
  }

  ghost predicate Known(s: State, agentId: string, messageId: string) { exists id: nat :: IsOf(s, id, agentId, messageId) }

  // One command and its task, and nothing else, become these.
  ghost predicate OnlyBecomes(s: State, r: State, id: nat, c: Command, task: Task -> Task)
    requires id < |s.commands|
  {
    && r.commands == s.commands[id := c]
    && r == s.(commands := r.commands, tasks := r.tasks)
    && r.tasks.Keys == s.tasks.Keys
    && forall k :: k in s.tasks ==> r.tasks[k] == if k == id then task(s.tasks[k]) else s.tasks[k]
  }

  // A command ends on its own.
  predicate OnlyEnds(s: State, r: State, id: nat, status: CommandStatus, now: nat)
    requires id < |s.commands|
  {
    r == s.(commands := s.commands[id := s.commands[id].(status := status, completedAt := Some(now))])
  }

  // A command ends, and with it its task if that goes on.
  ghost predicate EndsWithTask(s: State, r: State, id: nat, status: CommandStatus, taskStatus: TaskStatus, now: nat)
    requires id < |s.commands|
  {
    OnlyBecomes(s, r, id, s.commands[id].(status := status, completedAt := Some(now)),
                (t: Task) => if TaskGoesOn(t) then t.(status := taskStatus, finishedAt := Some(now)) else t)
  }

  lemma FindIs(s: State, agentId: string, messageId: string)
    requires Rows(s)
    ensures forall id: nat :: IsOf(s, id, agentId, messageId) <==> Find(s.commands, agentId, messageId) == Some(id)
    ensures Known(s, agentId, messageId) <==> Find(s.commands, agentId, messageId).Some?
  {
    var found := Find(s.commands, agentId, messageId);
    if found.Some? {
      assert IsOf(s, found.value, agentId, messageId);
    }
  }

  // ---- Commands of their own -----------------------------------------------------------------

  // Seconds a command of the type has.
  function TimeFor(t: CommandType): nat {
    if t == PolicyPush then 300 else if t == SnapshotListReq then 120 else if IsLong(t) then 21600 else 1800
  }

  predicate Acceptable(s: State, input: CreateInput) {
    && input.agentId != "" && input.ctype != OtherType("") && input.messageId != ""
    && forall i :: 0 <= i < |s.commands| ==> s.commands[i].messageId != input.messageId
  }

  // A command is created unless something is missing or its message is known. It waits to be sent, until
  // the deadline of its type or the one that was asked for.
  lemma CreateAnswer(s: State, input: CreateInput, now: nat)
    ensures var r := Step(s, CommandModel.CreateEvent(input, now));
            var hours := input.timeoutHours;
            && (!Acceptable(s, input) ==> r == s)
            && (Acceptable(s, input) ==>
                  && r == s.(commands := r.commands, tasks := r.tasks)
                  && r.commands == s.commands + [Command(input.agentId, input.ctype, Pending, input.messageId, input.payload, 0,
                                                         now + (if hours > 0 then hours * 3600 else TimeFor(input.ctype)), None, None)]
                  && r.tasks == (if input.taskType == None then s.tasks
                                 else s.tasks[|s.commands| := Task(input.taskType.value,
                                                                   if input.taskState == None then TaskPending else input.taskState.value,
                                                                   None, None)]))
  {
  }

  // A command that waits to be sent is cancelled, with its task; any other is left alone.
  lemma CancelAnswer(s: State, id: nat, now: nat)
    ensures var r := Step(s, CancelEvent(id, now));
            && (id < |s.commands| && s.commands[id].status == Pending ==> EndsWithTask(s, r, id, Cancelled, TaskCancelled, now))
            && (id >= |s.commands| || s.commands[id].status != Pending ==> r == s)
  {
  }

  // A command times out exactly when it has not ended and its deadline has come.
  lemma TimeoutAnswer(s: State, id: nat, now: nat)
    ensures var r := Step(s, TimeoutEvent(id, now));
            var late := id < |s.commands| && !Ended(s.commands[id].status) && s.commands[id].deadlineAt <= now;
            && (late ==> EndsWithTask(s, r, id, Timeout, TaskTimeout, now))
            && (!late ==> r == s)
  {
  }

  // `FailCommand` and `TimeoutCommand` end the unfinished command of the message, of the agent if one is
  // given and of the type if one is given.
  lemma FinishAnswer(s: State, agentId: string, messageId: string, ctype: Option<CommandType>, timedOut: bool, now: nat)
    requires Rows(s)
    ensures var r := Step(s, FinishEvent(agentId, messageId, ctype, timedOut, now));
            && (forall id: nat | FinishNames(s, id, agentId, messageId, ctype) :: OnlyEnds(s, r, id, if timedOut then Timeout else Failed, now))
            && ((forall id: nat :: !FinishNames(s, id, agentId, messageId, ctype)) ==> r == s)
  {
    var found := FinishTarget(s, agentId, messageId, ctype);
    FinishTargetIs(s, agentId, messageId, ctype);
    if found.Some? {
      assert FinishNames(s, found.value, agentId, messageId, ctype);
    }
  }

  predicate FinishNames(s: State, id: nat, agentId: string, messageId: string, ctype: Option<CommandType>) {
    && id < |s.commands| && messageId != "" && s.commands[id].messageId == messageId && !Ended(s.commands[id].status)
    && (agentId == "" || s.commands[id].agentId == agentId) && (ctype == None || s.commands[id].ctype == ctype.value)
  }

  lemma FinishTargetIs(s: State, agentId: string, messageId: string, ctype: Option<CommandType>)
    requires Rows(s)
    ensures forall id: nat :: FinishNames(s, id, agentId, messageId, ctype) <==> FinishTarget(s, agentId, messageId, ctype) == Some(id)
  {
  }

  // Retiring pushes ends those that have not ended, and only pushes.
  lemma RetireAnswer(s: State, ids: set<nat>, now: nat)
    ensures var r := Step(s, RetireEvent(ids, now));
            && r == s.(commands := r.commands) && |r.commands| == |s.commands|
            && forall i :: 0 <= i < |s.commands| ==>
                 r.commands[i] == if i in ids && s.commands[i].ctype == PolicyPush && !Ended(s.commands[i].status)
                                  then s.commands[i].(status := Failed, completedAt := Some(now)) else s.commands[i]
  {
  }

  // ---- Acknowledgements ----------------------------------------------------------------------

  // An acknowledgement ends the unfinished push it is about, well if and only if it reports success;
  // every other acknowledgement changes nothing.
  lemma PolicyAckAnswer(s: State, agentId: string, messageId: string, success: bool, now: nat)
    requires Rows(s)
    ensures Acknowledged(s, Step(s, PolicyAckEvent(agentId, messageId, success, now)), agentId, messageId, success, now)
  {
    FindIs(s, agentId, messageId);
    var found := Find(s.commands, agentId, messageId);
    if found.Some? {
      assert IsOf(s, found.value, agentId, messageId);
      assert !IsPushOf(s, found.value, agentId, messageId) ==> Step(s, PolicyAckEvent(agentId, messageId, success, now)) == s;
    }
  }

  ghost predicate Acknowledged(s: State, r: State, agentId: string, messageId: string, success: bool, now: nat) {
    && (forall id: nat | IsPushOf(s, id, agentId, messageId) :: OnlyEnds(s, r, id, if success then Succeeded else Failed, now))
    && ((forall id: nat :: !IsPushOf(s, id, agentId, messageId)) ==> r == s)
  }

  predicate IsPushOf(s: State, id: nat, agentId: string, messageId: string) {
    && IsOf(s, id, agentId, messageId) && agentId != "" && messageId != ""
    && s.commands[id].ctype == PolicyPush && !Ended(s.commands[id].status)
  }

  // After it, and whatever follows, the push has succeeded if and only if the acknowledgement says so.
  lemma AcknowledgedForGood(run: seq<Event>, id: nat, agentId: string, messageId: string, success: bool, now: nat, later: seq<Event>)
    requires IsPushOf(Steps(INITIAL, run), id, agentId, messageId)
    ensures var r := Steps(Step(Steps(INITIAL, run), PolicyAckEvent(agentId, messageId, success, now)), later);
            && id < |r.commands|
            && (r.commands[id].status == Succeeded <==> success) && (r.commands[id].status == Failed <==> !success)
            && r.commands[id].completedAt == Some(now)
  {
    var s := Steps(INITIAL, run);
    AlwaysKept(INITIAL, run);
    PolicyAckAnswer(s, agentId, messageId, success, now);
    var t := Step(s, PolicyAckEvent(agentId, messageId, success, now));
    FinishedIsFinal(t, later);
    assert RowStep(t.commands[id], Steps(t, later).commands[id]);
  }

  // A list of snapshots ends the request it answers, and all its ids are kept for the agent.
  lemma SnapshotListAnswer(s: State, agentId: string, messageId: string, ids: set<string>, now: nat)
    requires Rows(s)
    ensures var r := Step(s, SnapshotListEvent(agentId, messageId, ids, now));
            && (forall id: nat | IsRequestOf(s, id, agentId, messageId) ::
                  && r == s.(commands := s.commands[id := s.commands[id].(status := Succeeded, completedAt := Some(now))],
                             snapshots := r.snapshots)
                  && Stored(s.snapshots, r.snapshots, agentId, ids))
            && ((forall id: nat :: !IsRequestOf(s, id, agentId, messageId)) ==> r == s)
  {
    FindIs(s, agentId, messageId);
    var found := Find(s.commands, agentId, messageId);
    if found.Some? {
      assert IsOf(s, found.value, agentId, messageId);
      assert !IsRequestOf(s, found.value, agentId, messageId) ==> Step(s, SnapshotListEvent(agentId, messageId, ids, now)) == s;
    }
  }

  predicate IsRequestOf(s: State, id: nat, agentId: string, messageId: string) {
    && IsOf(s, id, agentId, messageId) && messageId != ""
    && s.commands[id].ctype == SnapshotListReq && !Ended(s.commands[id].status)
  }

  // The agent's snapshots of these ids have joined those there were; an empty id is none.
  ghost predicate Stored(before: set<(string, string)>, after: set<(string, string)>, agentId: string, ids: set<string>) {
    forall a: string, x: string :: (a, x) in after <==> (a, x) in before || (a == agentId && x in ids && x != "")
  }

  lemma UpsertIs(snapshots: set<(string, string)>, agentId: string, ids: set<string>)
    ensures Stored(snapshots, Upsert(snapshots, agentId, ids), agentId, ids)
  {
  }

  // ---- Results -------------------------------------------------------------------------------

  // The task a command of this type does.
  predicate DoesTask(t: CommandType, task: TaskType) {
    || (t == BackupNow && task == BackupTask)
    || (t == BackupVerifyReq && task == VerifyTask)
    || ((t == RestoreReq || t == SelectiveRestoreReq) && task == RestoreTask)
  }

  // The command waits for this result.
  predicate Awaits(c: Command, result: TaskResult) { DoesTask(c.ctype, result.taskType) && !Ended(c.status) }

  function EndStatus(status: TaskStatus): CommandStatus {
    if status == TaskSuccess then Succeeded else if status == TaskCancelled then Cancelled else Failed
  }

  function TaskWith(t: Task, result: TaskResult, now: nat): Task {
    t.(status := result.status,
       startedAt := if result.startedAt != None then result.startedAt else t.startedAt,
       finishedAt := if result.finishedAt == None
                        && result.status in {TaskSuccess, TaskPartialSuccess, TaskFailed, TaskTimeout, TaskCancelled}
                     then Some(now) else result.finishedAt)
  }

  predicate IsBackup(result: TaskResult) { result.taskType == BackupTask && result.status == TaskSuccess }

  lemma AwaitsIsAccepts(c: Command, result: TaskResult)
    ensures Awaits(c, result) <==> Accepts(c, result)
  {
  }

  // A result for a command that waits for it: the command ends as the result says, its task takes the
  // result over, a successful backup with a task leaves its snapshots, and nothing else changes. A
  // result for a command that does not wait for it changes nothing.
  lemma ResultAnswer(s: State, id: nat, e: Event)
    requires Rows(s) && e.ResultEvent? && e.messageId != "" && IsOf(s, id, e.agentId, e.messageId)
    ensures Delivered(s, Step(s, e), id, e.result, e.now)
  {
    FindIs(s, e.agentId, e.messageId);
    AwaitsIsAccepts(s.commands[id], e.result);
    if Awaits(s.commands[id], e.result) {
      TakenOverIs(s, id, e.result, e.now);
    }
  }

  ghost predicate Delivered(s: State, r: State, id: nat, result: TaskResult, now: nat)
    requires id < |s.commands|
  {
    if Awaits(s.commands[id], result) then TakenOver(s, r, id, result, now) else r == s
  }

  // The result is taken over, for good.
  ghost predicate TakenOver(s: State, r: State, id: nat, result: TaskResult, now: nat)
    requires id < |s.commands|
  {
    && r == s.(commands := r.commands, tasks := r.tasks, snapshots := r.snapshots, commits := s.commits + [id])
    && r.commands == s.commands[id := s.commands[id].(status := EndStatus(result.status), completedAt := Some(now))]
    && r.tasks.Keys == s.tasks.Keys
    && (forall k :: k in s.tasks ==> r.tasks[k] == if k == id then TaskWith(s.tasks[k], result, now) else s.tasks[k])
    && (if IsBackup(result) && id in s.tasks then Stored(s.snapshots, r.snapshots, s.commands[id].agentId, result.snapshotIds)
        else r.snapshots == s.snapshots)
  }

  lemma TakenOverIs(s: State, id: nat, result: TaskResult, now: nat)
    requires id < |s.commands|
    ensures TakenOver(s, Complete(s, id, result, now), id, result, now)
  {
    UpsertIs(s.snapshots, s.commands[id].agentId, result.snapshotIds);
  }

  // The row of a restore under way that this result would end.
  predicate RestoresFor(h: History, agentId: string, messageId: string) {
    h.agentId == agentId && h.messageId == messageId && h.taskType == RestoreTask && h.status == TaskRunning
  }

  // The first such row, when a restore reports under a message.
  predicate EndsRow(hs: seq<History>, k: nat, agentId: string, messageId: string, result: TaskResult) {
    && messageId != "" && result.taskType == RestoreTask && k < |hs| && RestoresFor(hs[k], agentId, messageId)
    && forall j :: 0 <= j < k ==> !RestoresFor(hs[j], agentId, messageId)
  }

  // A result that belongs to no command ends a restore under way, or becomes a row of its own; then a
  // successful backup leaves its snapshots.
  ghost predicate Recorded(s: State, r: State, agentId: string, messageId: string, result: TaskResult) {
    && (forall k: nat | EndsRow(s.histories, k, agentId, messageId, result) ::
          r == s.(histories := s.histories[k := s.histories[k].(status := result.status)]))
    && ((forall k: nat :: !EndsRow(s.histories, k, agentId, messageId, result)) ==>
          && r == s.(histories := s.histories + [History(agentId, messageId, result.taskType, result.status)], snapshots := r.snapshots)
          && (if IsBackup(result) then Stored(s.snapshots, r.snapshots, agentId, result.snapshotIds) else r.snapshots == s.snapshots))
  }

  lemma RecordedIs(s: State, agentId: string, messageId: string, result: TaskResult)
    ensures Recorded(s, RecordHistory(s, agentId, messageId, result), agentId, messageId, result)
  {
    HistoryRowIs(s.histories, agentId, messageId, result);
    UpsertIs(s.snapshots, agentId, result.snapshotIds);
  }

  // A result that belongs to no command: without its artifact it is dropped.
  lemma HistoryAnswer(s: State, e: Event)
    requires Rows(s) && e.ResultEvent? && (e.messageId == "" || !Known(s, e.agentId, e.messageId))
    ensures if e.localized then Recorded(s, Step(s, e), e.agentId, e.messageId, e.result) else Step(s, e) == s
  {
    FindIs(s, e.agentId, e.messageId);
    if e.localized {
      assert Step(s, e) == RecordHistory(s, e.agentId, e.messageId, e.result);
      RecordedIs(s, e.agentId, e.messageId, e.result);
    }
  }

  lemma HistoryRowIs(hs: seq<History>, agentId: string, messageId: string, result: TaskResult)
    ensures var known := if result.taskType == RestoreTask && messageId != "" then FindHistory(hs, agentId, messageId) else None;
            forall k: nat :: EndsRow(hs, k, agentId, messageId, result) <==> known == Some(k)
  {
    FirstRow(hs, agentId, messageId);
  }

  lemma {:induction false} FirstRow(hs: seq<History>, agentId: string, messageId: string)
    ensures var known := FindHistory(hs, agentId, messageId);
            && (known.None? ==> forall j :: 0 <= j < |hs| ==> !RestoresFor(hs[j], agentId, messageId))
            && (known.Some? ==> forall j :: 0 <= j < known.value ==> !RestoresFor(hs[j], agentId, messageId))
  {
    if hs != [] {
      FirstRow(hs[..|hs| - 1], agentId, messageId);
    }
  }

  // ---- Dispatching ---------------------------------------------------------------------------

  // A free dispatcher that is asked for a connected agent takes up exactly the commands that wait, or may
  // be sent again, before their deadline: the first ones, in the order of their creation.
  lemma ListAnswer(s: State, agentId: string, limit: int, resend: bool, online: bool, now: nat)
    ensures var r := Step(s, ListEvent(agentId, limit, resend, online, now));
            && r == s.(dispatcher := r.dispatcher)
            && (s.dispatcher != Idle || agentId == "" || !online ==> r == s)
            && (s.dispatcher == Idle && agentId != "" && online ==>
                  && r.dispatcher.Working? && Increasing(r.dispatcher.todo)
                  && forall id: nat :: id in r.dispatcher.todo <==> TakenUp(s.commands, id, agentId, limit, resend, now))
  {
    ListedAreTakenUp(s.commands, agentId, limit, resend, now);
  }

  // The dispatcher prepares the next command of its list: it fails one that cannot go, with its task,
  // leaves one for later whose agent's capability is unknown, stores a restore of selected paths under its
  // own type, and goes on with the others as they are. One that has ended is not changed.
  lemma PrepareAnswer(s: State, id: nat, todo: seq<nat>, a: Answer)
    requires s.dispatcher == Working([id] + todo) && id < |s.commands|
    ensures var c, r := s.commands[id], Step(s, PrepareEvent(a.capability, a.preparedAt));
            && r.dispatcher == (if CanGo(c, a) then Prepared(id, todo) else Working(todo))
            && (IsLeft(c, a) || Ended(c.status) || (CanGo(c, a) && !Selective(c)) ==> r == s.(dispatcher := r.dispatcher))
            && (!Ended(c.status) && !CanGo(c, a) && !IsLeft(c, a) ==>
                  OnlyBecomes(s, r.(dispatcher := s.dispatcher), id, c.(status := Failed, completedAt := Some(a.preparedAt)),
                              (t: Task) => if IsLong(c.ctype) && TaskGoesOn(t) then t.(status := TaskFailed, finishedAt := Some(a.preparedAt)) else t))
            && (!Ended(c.status) && CanGo(c, a) && Selective(c) ==>
                  r == s.(commands := s.commands[id := c.(ctype := SelectiveRestoreReq,
                                                          payload := c.payload.(messageType := SelectiveRestoreReq))],
                          dispatcher := r.dispatcher))
  {
    assert ([id] + todo)[0] == id && ([id] + todo)[1..] == todo;
  }

  // At the end of its list the dispatcher is free; so it is when it stops, between commands, or when the
  // master restarts, at any time.
  lemma FreeAnswer(s: State, a: Answer)
    ensures s.dispatcher == Working([]) ==> Step(s, PrepareEvent(a.capability, a.preparedAt)) == s.(dispatcher := Idle)
    ensures s.dispatcher.Working? || s.dispatcher.Prepared? ==> Step(s, StopEvent) == s.(dispatcher := Idle)
    ensures Step(s, RestartEvent) == s.(dispatcher := Idle)
  {
  }

  // The dispatcher records a prepared command before it is sent, and leaves one alone that has ended.
  lemma RecordAnswer(s: State, id: nat, todo: seq<nat>, now: nat)
    requires s.dispatcher == Prepared(id, todo) && id < |s.commands|
    ensures var c, r := s.commands[id], Step(s, RecordEvent(now));
            && (Ended(c.status) ==> r == s.(dispatcher := Working(todo)))
            && (!Ended(c.status) ==>
                  && r.dispatcher == Sending(id, todo)
                  && OnlyBecomes(s, r.(dispatcher := s.dispatcher), id,
                                 c.(attempts := c.attempts + 1, dispatchedAt := Some(now), status := if IsLong(c.ctype) then Running else Dispatched),
                                 (t: Task) => if IsLong(c.ctype) && t.status == TaskPending then t.(status := TaskRunning, startedAt := Some(now)) else t))
  {
  }

  // A send counts when the hub takes it; else the record is withdrawn, unless the command has ended.
  lemma SendAnswer(s: State, id: nat, todo: seq<nat>)
    requires s.dispatcher == Sending(id, todo)
    ensures Step(s, SendEvent(true)) == s.(sent := s.sent + [id], dispatcher := Working(todo))
    ensures Step(s, SendEvent(false)) == s.(dispatcher := RollingBack(id, todo))
  {
  }

  lemma RollbackAnswer(s: State, id: nat, todo: seq<nat>)
    requires s.dispatcher == RollingBack(id, todo) && id < |s.commands|
    ensures var c, r := s.commands[id], Step(s, RollbackEvent);
            && r.dispatcher == Working(todo)
            && (Ended(c.status) ==> r == s.(dispatcher := Working(todo)))
            && (!Ended(c.status) ==> Withdrawn(s, r.(dispatcher := s.dispatcher), id, c.attempts))
  {
  }

  // The command waits again, and its task with it.
  ghost predicate Withdrawn(s: State, r: State, id: nat, attempts: nat)
    requires id < |s.commands|
  {
    var c := s.commands[id];
    OnlyBecomes(s, r, id, c.(attempts := attempts, dispatchedAt := None, status := Pending),
                (t: Task) => if IsLong(c.ctype) && t.status == TaskRunning then t.(status := TaskPending, startedAt := None) else t)
  }

  // The same by hand: a record, and a withdrawal, which counts as one more attempt.
  lemma ByHandAnswer(s: State, id: nat, now: nat)
    ensures id >= |s.commands| || Ended(s.commands[id].status) ==> Step(s, RecordByIdEvent(id, now)) == s && Step(s, RecordFailureByIdEvent(id)) == s
    ensures id < |s.commands| && !Ended(s.commands[id].status) ==>
              && Withdrawn(s, Step(s, RecordFailureByIdEvent(id)), id, s.commands[id].attempts + 1)
              && var c := s.commands[id];
                 OnlyBecomes(s, Step(s, RecordByIdEvent(id, now)), id,
                             c.(attempts := c.attempts + 1, dispatchedAt := Some(now), status := if IsLong(c.ctype) then Running else Dispatched),
                             (t: Task) => if IsLong(c.ctype) && t.status == TaskPending then t.(status := TaskRunning, startedAt := Some(now)) else t)
  {
  }

  // ---- What is sent --------------------------------------------------------------------------

  predicate UnderWay(s: State, id: nat) { s.dispatcher.Sending? && s.dispatcher.id == id }

  lemma EndedStaysIn(s: State, e: Event, id: nat)
    requires id < |s.commands| && Ended(s.commands[id].status) && !UnderWay(s, id)
    ensures var r := Step(s, e);
            && id < |r.commands| && Ended(r.commands[id].status) && !UnderWay(r, id)
            && multiset(r.sent)[id] == multiset(s.sent)[id]
  {
    StepRows(s, e);
    assert RowStep(s.commands[id], Step(s, e).commands[id]);
    if IsDispatchEvent(e) {
      DispatcherMoves(s, e, id);
    } else {
      OthersLeaveDispatcher(s, e);
    }
  }

  lemma DispatcherMoves(s: State, e: Event, id: nat)
    requires IsDispatchEvent(e) && id < |s.commands| && Ended(s.commands[id].status) && !UnderWay(s, id)
    ensures !UnderWay(Step(s, e), id) && multiset(Step(s, e).sent)[id] == multiset(s.sent)[id]
  {
  }

  lemma OthersLeaveDispatcher(s: State, e: Event)
    requires !IsDispatchEvent(e)
    ensures Step(s, e).dispatcher == s.dispatcher && Step(s, e).sent == s.sent
  {
    if !e.RecordFailureByIdEvent? {
      OthersStayOut(s, e);
    }
  }

  // A command that has ended does not go out any more, whatever follows, unless its send is under way.
  lemma {:induction false} EndedIsNotSent(s: State, later: seq<Event>, id: nat)
    requires id < |s.commands| && Ended(s.commands[id].status) && !UnderWay(s, id)
    ensures var r := Steps(s, later);
            && id < |r.commands| && Ended(r.commands[id].status) && !UnderWay(r, id)
            && multiset(r.sent)[id] == multiset(s.sent)[id]
  {
    if later != [] {
      EndedIsNotSent(s, later[..|later| - 1], id);
      EndedStaysIn(Steps(s, later[..|later| - 1]), later[|later| - 1], id);
    }
  }

  // Cancelling a command that waits to be sent is final: it stays cancelled, with the task that went on,
  // and goes out no more, whatever follows, unless its send was under way.
  lemma CancelledForGood(s: State, id: nat, now: nat, later: seq<Event>)
    requires id < |s.commands| && s.commands[id].status == Pending
    ensures var t, r := Step(s, CancelEvent(id, now)), Steps(Step(s, CancelEvent(id, now)), later);
            && EndsWithTask(s, t, id, Cancelled, TaskCancelled, now)
            && id < |r.commands| && r.commands[id].status == Cancelled && r.commands[id].completedAt == Some(now)
            && (!UnderWay(s, id) ==> multiset(r.sent)[id] == multiset(s.sent)[id])
  {
    var t := Step(s, CancelEvent(id, now));
    CancelAnswer(s, id, now);
    FinishedIsFinal(t, later);
    assert RowStep(t.commands[id], Steps(t, later).commands[id]);
    if !UnderWay(s, id) {
      EndedIsNotSent(t, later, id);
    }
  }

  // At some time in the run the dispatcher took the command up because it was due.
  ghost predicate WasTakenUp(run: seq<Event>, id: nat) { exists k: nat :: TakenUpAt(run, k, id) }

  predicate TakenUpAt(run: seq<Event>, k: nat, id: nat) {
    && k < |run| && run[k].ListEvent? && run[k].online
    && TakenUp(Steps(INITIAL, run[..k]).commands, id, run[k].agentId, run[k].limit, run[k].resend, run[k].now)
  }

  // What the dispatcher still has to do.
  function InHand(d: Dispatcher): set<nat> {
    match d
    case Idle => {}
    case Working(todo) => set id | id in todo
    case Prepared(id, todo) => {id} + set i | i in todo
    case Sending(id, todo) => {id} + set i | i in todo
    case RollingBack(id, todo) => {id} + set i | i in todo
  }

  lemma NothingNewInHand(s: State, e: Event)
    requires !e.ListEvent?
    ensures var r := Step(s, e);
            && InHand(r.dispatcher) <= InHand(s.dispatcher)
            && forall id :: id in r.sent ==> id in s.sent || id in InHand(s.dispatcher)
  {
    if !IsDispatchEvent(e) {
      OthersLeaveDispatcher(s, e);
    } else if s.dispatcher.Working? && s.dispatcher.todo != [] {
      var todo := s.dispatcher.todo;
      assert forall id :: id in todo <==> id == todo[0] || id in todo[1..];
    }
  }

  lemma StillTakenUp(run: seq<Event>, e: Event, id: nat)
    requires WasTakenUp(run, id)
    ensures WasTakenUp(run + [e], id)
  {
    var k: nat :| TakenUpAt(run, k, id);
    assert (run + [e])[..k] == run[..k];
    assert TakenUpAt(run + [e], k, id);
  }

  // In every run: whatever was sent, or is in the dispatcher's hands, was taken up because it was due at
  // that time, for the agent that was asked for.
  lemma {:induction false} SentWasDue(run: seq<Event>)
    ensures var s := Steps(INITIAL, run);
            && (forall id :: id in s.sent ==> WasTakenUp(run, id))
            && (forall id :: id in InHand(s.dispatcher) ==> WasTakenUp(run, id))
  {
    if run != [] {
      var n := |run| - 1;
      SentWasDue(run[..n]);
      assert run == run[..n] + [run[n]];
      SentWasDueNext(run[..n], run[n]);
    }
  }

  lemma SentWasDueNext(run: seq<Event>, e: Event)
    requires var s := Steps(INITIAL, run);
             && (forall id :: id in s.sent ==> WasTakenUp(run, id))
             && (forall id :: id in InHand(s.dispatcher) ==> WasTakenUp(run, id))
    ensures var r := Steps(INITIAL, run + [e]);
            && (forall id :: id in r.sent ==> WasTakenUp(run + [e], id))
            && (forall id :: id in InHand(r.dispatcher) ==> WasTakenUp(run + [e], id))
  {
    var s := Steps(INITIAL, run);
    StepsAppend(INITIAL, run, e);
    forall id: nat | WasTakenUp(run, id) ensures WasTakenUp(run + [e], id) {
      StillTakenUp(run, e, id);
    }
    if e.ListEvent? {
      ListAnswer(s, e.agentId, e.limit, e.resend, e.online, e.now);
      if Step(s, e) != s {
        forall id | id in Step(s, e).dispatcher.todo ensures WasTakenUp(run + [e], id) {
          assert (run + [e])[..|run|] == run;
          assert TakenUpAt(run + [e], |run|, id);
        }
      }
    } else {
      NothingNewInHand(s, e);
    }
  }
}
