/** A dispatch that nothing comes in between of: which commands it takes up, and what becomes of them. */
module CommandDispatch {
  import opened CommandModel
  import opened CommandSafety
  import opened Wrappers

  // ---- The steps of a dispatch ---------------------------------------------------------------

  // What the dispatch of one command meets: the answer about the agent's capability, the readings of
  // the clock, and whether the hub takes the message.
  datatype Answer = Answer(capability: Capability, preparedAt: nat, recordedAt: nat, delivered: bool)

  function TurnEvents(a: Answer): seq<Event> {
    [PrepareEvent(a.capability, a.preparedAt), RecordEvent(a.recordedAt), SendEvent(a.delivered), RollbackEvent]
  }

  // The steps for listed commands, each with its own answer.
  function DispatchEvents(ids: seq<nat>, answers: seq<Answer>): seq<Event>
    requires forall k :: 0 <= k < |ids| ==> ids[k] < |answers|
  {
    if ids == [] then [] else DispatchEvents(ids[..|ids| - 1], answers) + TurnEvents(answers[ids[|ids| - 1]])
  }

  // All steps of a dispatch for an agent that is connected.
  function DispatchRun(commands: seq<Command>, agentId: string, limit: int, resend: bool, now: nat, answers: seq<Answer>): seq<Event>
    requires |answers| >= |commands|
  {
    [ListEvent(agentId, limit, resend, true, now)]
    + DispatchEvents(Limited(ListFrom(commands, agentId, resend, now), limit), answers)
    + [PrepareEvent(Unknown, now)]
  }

  lemma DispatchEventsMore(first: seq<Event>, ids: seq<nat>, n: nat, answers: seq<Answer>)
    requires n < |ids| && forall k :: 0 <= k < |ids| ==> ids[k] < |answers|
    ensures first + DispatchEvents(ids[..n + 1], answers) == first + DispatchEvents(ids[..n], answers) + TurnEvents(answers[ids[n]])
  {
    assert ids[..n + 1][..n] == ids[..n];
  }

  lemma StepsAppend(s: State, run: seq<Event>, e: Event)
    ensures Steps(s, run + [e]) == Step(Steps(s, run), e)
  {
    assert (run + [e])[..|run|] == run;
  }

  // One turn of the dispatch loop with nothing in between.
  function Turn(s: State, a: Answer): State {
    SendOrWithdraw(Prepare(s, a.capability, a.preparedAt), a.delivered, a.recordedAt)
  }

  function SendOrWithdraw(s: State, delivered: bool, now: nat): State {
    Rollback(Send(Record(s, now), delivered))
  }

  lemma TurnIsFourSteps(s: State, run: seq<Event>, x: Answer)
    ensures Steps(s, run + TurnEvents(x)) == Turn(Steps(s, run), x)
  {
    var a, b, c, d := PrepareEvent(x.capability, x.preparedAt), RecordEvent(x.recordedAt), SendEvent(x.delivered), RollbackEvent;
    var s0 := Steps(s, run);
    StepsAppend(s, run, a);
    StepsAppend(s, run + [a], b);
    StepsAppend(s, run + [a] + [b], c);
    StepsAppend(s, run + [a] + [b] + [c], d);
    var s1 := Prepare(s0, x.capability, x.preparedAt);
    var s2 := Record(s1, x.recordedAt);
    PlainSteps(s0, x.capability, x.delivered, x.preparedAt);
    PlainSteps(s1, x.capability, x.delivered, x.recordedAt);
    PlainSteps(s2, x.capability, x.delivered, 0);
    PlainSteps(Send(s2, x.delivered), x.capability, x.delivered, 0);
    assert run + [a] + [b] + [c] + [d] == run + TurnEvents(x);
  }

  lemma DispatchTurn(before: State, s: State, first: seq<Event>, ids: seq<nat>, n: nat, answers: seq<Answer>)
    requires n < |ids| && forall k :: 0 <= k < |ids| ==> ids[k] < |answers|
    requires s == Steps(before, first + DispatchEvents(ids[..n], answers))
    ensures Turn(s, answers[ids[n]]) == Steps(before, first + DispatchEvents(ids[..n + 1], answers))
  {
    TurnIsFourSteps(before, first + DispatchEvents(ids[..n], answers), answers[ids[n]]);
    DispatchEventsMore(first, ids, n, answers);
  }

  lemma PlainSteps(s: State, capability: Capability, delivered: bool, now: nat)
    ensures Step(s, PrepareEvent(capability, now)) == Prepare(s, capability, now)
    ensures Step(s, RecordEvent(now)) == Record(s, now)
    ensures Step(s, SendEvent(delivered)) == Send(s, delivered)
    ensures Step(s, RollbackEvent) == Rollback(s)
  {
  }

  lemma NoEvents(run: seq<Event>)
    ensures [] + run == run && run + [] == run
  {
  }

  lemma EndOfList(s: State, capability: Capability, now: nat)
    requires s.dispatcher == Working([])
    ensures Step(s, PrepareEvent(capability, now)) == s.(dispatcher := Idle)
  {
  }

  lemma TailOfTail(ids: seq<nat>, n: nat)
    requires n < |ids|
    ensures ids[n..][0] == ids[n] && ids[n..][1..] == ids[n + 1..]
  {
  }

  // ---- Which commands are taken up -------------------------------------------------------------

  // A command of the agent that waits to be sent, or may be sent again, and is not past its deadline.
  predicate Due(c: Command, agentId: string, resend: bool, now: nat) {
    c.agentId == agentId && (c.status == Pending || (resend && c.status == Dispatched)) && c.deadlineAt > now
  }

  // How many of the first `n` commands are due.
  function DueBefore(commands: seq<Command>, n: nat, agentId: string, resend: bool, now: nat): nat
    requires n <= |commands|
  {
    if n == 0 then 0
    else DueBefore(commands, n - 1, agentId, resend, now) + if Due(commands[n - 1], agentId, resend, now) then 1 else 0
  }

  // Due, and among the first `limit` that are; a limit that is not positive stands for a hundred.
  predicate TakenUp(commands: seq<Command>, id: nat, agentId: string, limit: int, resend: bool, now: nat) {
    && id < |commands| && Due(commands[id], agentId, resend, now)
    && DueBefore(commands, id, agentId, resend, now) < if limit <= 0 then 100 else limit
  }

  predicate Increasing(ids: seq<nat>) { forall j, k :: 0 <= j < k < |ids| ==> ids[j] < ids[k] }

  lemma {:induction false} DueBeforePrefix(commands: seq<Command>, n: nat, m: nat, agentId: string, resend: bool, now: nat)
    requires n <= m <= |commands|
    ensures DueBefore(commands[..m], n, agentId, resend, now) == DueBefore(commands, n, agentId, resend, now)
  {
    if n > 0 {
      DueBeforePrefix(commands, n - 1, m, agentId, resend, now);
    }
  }

  lemma {:induction false} ListedCount(commands: seq<Command>, agentId: string, resend: bool, now: nat)
    ensures |ListFrom(commands, agentId, resend, now)| == DueBefore(commands, |commands|, agentId, resend, now)
  {
    if commands != [] {
      var n := |commands| - 1;
      ListedCount(commands[..n], agentId, resend, now);
      DueBeforePrefix(commands, n, n, agentId, resend, now);
    }
  }

  // Each command that is due has the place in the list that its number gives it.
  lemma {:induction false} ListedInPlace(commands: seq<Command>, id: nat, agentId: string, resend: bool, now: nat)
    requires id < |commands| && Due(commands[id], agentId, resend, now)
    ensures var ids, place := ListFrom(commands, agentId, resend, now), DueBefore(commands, id, agentId, resend, now);
            place < |ids| && ids[place] == id
  {
    var n := |commands| - 1;
    DueBeforePrefix(commands, id, n, agentId, resend, now);
    if id < n {
      ListedInPlace(commands[..n], id, agentId, resend, now);
    } else {
      ListedCount(commands[..n], agentId, resend, now);
    }
  }

  // The list holds exactly the commands that are taken up, in the order of their creation.
  lemma ListedAreTakenUp(commands: seq<Command>, agentId: string, limit: int, resend: bool, now: nat)
    ensures var ids := Limited(ListFrom(commands, agentId, resend, now), limit);
            && Increasing(ids)
            && forall id: nat :: id in ids <==> TakenUp(commands, id, agentId, limit, resend, now)
  {
    var all := ListFrom(commands, agentId, resend, now);
    var ids := Limited(all, limit);
    assert forall k :: 0 <= k < |ids| ==> ids[k] == all[k];
    forall id: nat ensures id in ids <==> TakenUp(commands, id, agentId, limit, resend, now) {
      if id in ids {
        var k :| 0 <= k < |ids| && ids[k] == id;
        InPlaceOf(commands, all, k, agentId, resend, now);
      }
      if TakenUp(commands, id, agentId, limit, resend, now) {
        ListedInPlace(commands, id, agentId, resend, now);
        assert ids[DueBefore(commands, id, agentId, resend, now)] == id;
      }
    }
  }

  lemma InPlaceOf(commands: seq<Command>, all: seq<nat>, k: nat, agentId: string, resend: bool, now: nat)
    requires k < |all| && all == ListFrom(commands, agentId, resend, now)
    ensures Due(commands[all[k]], agentId, resend, now) && DueBefore(commands, all[k], agentId, resend, now) == k
  {
    ListedInPlace(commands, all[k], agentId, resend, now);
    var place := DueBefore(commands, all[k], agentId, resend, now);
    assert all[place] == all[k];
  }

  // ---- What becomes of them ------------------------------------------------------------------

  predicate IsLong(t: CommandType) { t == BackupNow || t == BackupVerifyReq || t == RestoreReq || t == SelectiveRestoreReq }

  // A restore of selected paths that is still stored as a plain restore.
  predicate Selective(c: Command) { c.ctype == RestoreReq && c.payload.messageType == RestoreReq && c.payload.hasIncludePaths }

  // It can be read, and what it needs is known of the agent.
  predicate CanGo(c: Command, a: Answer) { c.payload.readable && (Selective(c) ==> a.capability == Supported) }

  predicate IsLeft(c: Command, a: Answer) { c.payload.readable && Selective(c) && a.capability == Unknown }

  predicate GoesOut(c: Command, a: Answer) { CanGo(c, a) && a.delivered }

  // The row of a command after its turn.
  function RowAfter(c: Command, a: Answer): Command {
    if IsLeft(c, a) then c
    else if !CanGo(c, a) then c.(status := Failed, completedAt := Some(a.preparedAt))
    else
      var out := if Selective(c) then c.(ctype := SelectiveRestoreReq, payload := c.payload.(messageType := SelectiveRestoreReq)) else c;
      out.(attempts := c.attempts + 1,
           dispatchedAt := if a.delivered then Some(a.recordedAt) else None,
           status := if !a.delivered then Pending else if IsLong(c.ctype) then Running else Dispatched)
  }

  // And that of its task.
  function TaskAfter(c: Command, t: Task, a: Answer): Task {
    if IsLeft(c, a) || !IsLong(c.ctype) || (t.status != TaskPending && t.status != TaskRunning) then t
    else if !CanGo(c, a) then t.(status := TaskFailed, finishedAt := Some(a.preparedAt))
    else if !a.delivered then t.(status := TaskPending, startedAt := None)
    else if t.status == TaskPending then t.(status := TaskRunning, startedAt := Some(a.recordedAt))
    else t
  }

  predicate Unfinished(c: Command) { c.status == Pending || c.status == Dispatched }

  lemma RecordIs(s: State, id: nat, now: nat)
    requires id < |s.commands| && Unfinished(s.commands[id])
    ensures var c := s.commands[id];
            RecordDispatch(s, id, now) ==
            s.(commands := s.commands[id := c.(attempts := c.attempts + 1, dispatchedAt := Some(now),
                                               status := if IsLong(c.ctype) then Running else Dispatched)],
               tasks := if IsLong(c.ctype) && id in s.tasks && s.tasks[id].status == TaskPending
                        then s.tasks[id := s.tasks[id].(status := TaskRunning, startedAt := Some(now))] else s.tasks)
  {
  }

  lemma WithdrawIs(s: State, id: nat)
    requires id < |s.commands| && (s.commands[id].status == Running || s.commands[id].status == Dispatched)
    ensures var c := s.commands[id];
            RecordFailure(s, id, false) ==
            s.(commands := s.commands[id := c.(dispatchedAt := None, status := Pending)],
               tasks := if IsLong(c.ctype) && id in s.tasks && s.tasks[id].status == TaskRunning
                        then s.tasks[id := s.tasks[id].(status := TaskPending, startedAt := None)] else s.tasks)
  {
  }

  // A prepared command that goes out, or not.
  lemma SendOrWithdrawIs(s: State, id: nat, todo: seq<nat>, delivered: bool, now: nat)
    requires s.dispatcher == Prepared(id, todo) && id < |s.commands| && Unfinished(s.commands[id])
    ensures var c, r := s.commands[id], SendOrWithdraw(s, delivered, now);
            && r == s.(commands := r.commands, tasks := r.tasks, sent := r.sent, dispatcher := Working(todo))
            && r.commands == s.commands[id := c.(attempts := c.attempts + 1,
                                                 dispatchedAt := if delivered then Some(now) else None,
                                                 status := if !delivered then Pending else if IsLong(c.ctype) then Running else Dispatched)]
            && r.sent == (if delivered then s.sent + [id] else s.sent)
            && r.tasks.Keys == s.tasks.Keys
            && (forall k :: k in s.tasks && k != id ==> r.tasks[k] == s.tasks[k])
            && (id in s.tasks ==>
                  r.tasks[id] == if !IsLong(c.ctype) || (s.tasks[id].status != TaskPending && s.tasks[id].status != TaskRunning) then s.tasks[id]
                                 else if !delivered then s.tasks[id].(status := TaskPending, startedAt := None)
                                 else if s.tasks[id].status == TaskPending then s.tasks[id].(status := TaskRunning, startedAt := Some(now))
                                 else s.tasks[id])
  {
    RecordIs(s, id, now);
    var recorded := RecordDispatch(s, id, now);
    if !delivered {
      WithdrawIs(recorded.(dispatcher := RollingBack(id, todo)), id);
    }
  }

  // What one turn changes.
  ghost predicate IsTurn(s: State, r: State, id: nat, todo: seq<nat>, a: Answer)
    requires id < |s.commands|
  {
    && r == s.(commands := r.commands, tasks := r.tasks, sent := r.sent, dispatcher := Working(todo))
    && r.commands == s.commands[id := RowAfter(s.commands[id], a)]
    && r.sent == (if GoesOut(s.commands[id], a) then s.sent + [id] else s.sent)
    && r.tasks.Keys == s.tasks.Keys
    && (forall k :: k in s.tasks && k != id ==> r.tasks[k] == s.tasks[k])
    && (id in s.tasks ==> r.tasks[id] == TaskAfter(s.commands[id], s.tasks[id], a))
  }

  lemma PrepareIs(s: State, id: nat, todo: seq<nat>, capability: Capability, now: nat)
    requires s.dispatcher == Working([id] + todo) && id < |s.commands| && Unfinished(s.commands[id])
    ensures var c, r := s.commands[id], Prepare(s, capability, now);
            if !c.payload.readable || (Selective(c) && capability == Unsupported) then
              && r == s.(commands := s.commands[id := c.(status := Failed, completedAt := Some(now))], tasks := r.tasks, dispatcher := Working(todo))
              && r.tasks == if IsLong(c.ctype) && id in s.tasks && (s.tasks[id].status == TaskPending || s.tasks[id].status == TaskRunning)
                            then s.tasks[id := s.tasks[id].(status := TaskFailed, finishedAt := Some(now))] else s.tasks
            else if Selective(c) && capability == Unknown then r == s.(dispatcher := Working(todo))
            else if Selective(c) then
              r == s.(commands := s.commands[id := c.(ctype := SelectiveRestoreReq, payload := c.payload.(messageType := SelectiveRestoreReq))],
                      dispatcher := Prepared(id, todo))
            else r == s.(dispatcher := Prepared(id, todo))
  {
    assert ([id] + todo)[0] == id && ([id] + todo)[1..] == todo;
  }

  lemma NoTurn(s: State, todo: seq<nat>, delivered: bool, now: nat)
    requires s.dispatcher == Working(todo)
    ensures SendOrWithdraw(s, delivered, now) == s
  {
  }

  lemma TurnIs(s: State, id: nat, todo: seq<nat>, a: Answer)
    requires s.dispatcher == Working([id] + todo) && id < |s.commands| && Unfinished(s.commands[id])
    ensures IsTurn(s, Turn(s, a), id, todo, a)
  {
    PrepareIs(s, id, todo, a.capability, a.preparedAt);
    if CanGo(s.commands[id], a) {
      GoesOn(s, Prepare(s, a.capability, a.preparedAt), id, todo, a);
    } else {
      NoTurn(Prepare(s, a.capability, a.preparedAt), todo, a.delivered, a.recordedAt);
    }
  }

  lemma GoesOn(s: State, prepared: State, id: nat, todo: seq<nat>, a: Answer)
    requires id < |s.commands| && Unfinished(s.commands[id]) && CanGo(s.commands[id], a)
    requires var c := s.commands[id];
             prepared == s.(commands := if Selective(c)
                                        then s.commands[id := c.(ctype := SelectiveRestoreReq,
                                                                 payload := c.payload.(messageType := SelectiveRestoreReq))]
                                        else s.commands,
                            dispatcher := Prepared(id, todo))
    ensures IsTurn(s, SendOrWithdraw(prepared, a.delivered, a.recordedAt), id, todo, a)
  {
    SendOrWithdrawIs(prepared, id, todo, a.delivered, a.recordedAt);
  }

  // ---- The whole dispatch --------------------------------------------------------------------

  // The commands at `ids` had their turns, and those that went out did so in this order.
  ghost predicate HadTurns(s: State, r: State, ids: seq<nat>, answers: seq<Answer>)
    requires |answers| >= |s.commands|
  {
    && r == s.(commands := r.commands, tasks := r.tasks, sent := r.sent, dispatcher := r.dispatcher)
    && |r.commands| == |s.commands|
    && (forall i :: 0 <= i < |s.commands| ==> r.commands[i] == if i in ids then RowAfter(s.commands[i], answers[i]) else s.commands[i])
    && r.tasks.Keys == s.tasks.Keys
    && (forall i :: i in s.tasks ==>
          r.tasks[i] == if i in ids && i < |s.commands| then TaskAfter(s.commands[i], s.tasks[i], answers[i]) else s.tasks[i])
    && s.sent <= r.sent
    && Increasing(r.sent[|s.sent|..])
    && forall i: nat :: i in r.sent[|s.sent|..] <==> i in ids && i < |s.commands| && GoesOut(s.commands[i], answers[i])
  }

  // What a dispatch does: to each command that is taken up, to its task, and to nothing else.
  ghost predicate IsDispatched(s: State, r: State, agentId: string, limit: int, resend: bool, now: nat, answers: seq<Answer>)
    requires |answers| >= |s.commands|
  {
    && r == s.(commands := r.commands, tasks := r.tasks, sent := r.sent)
    && |r.commands| == |s.commands|
    && (forall i :: 0 <= i < |s.commands| ==>
          r.commands[i] == if TakenUp(s.commands, i, agentId, limit, resend, now) then RowAfter(s.commands[i], answers[i]) else s.commands[i])
    && r.tasks.Keys == s.tasks.Keys
    && (forall i :: i in s.tasks ==>
          r.tasks[i] == if TakenUp(s.commands, i, agentId, limit, resend, now) then TaskAfter(s.commands[i], s.tasks[i], answers[i]) else s.tasks[i])
    && s.sent <= r.sent
    && Increasing(r.sent[|s.sent|..])
    && forall i: nat :: i in r.sent[|s.sent|..] <==>
         TakenUp(s.commands, i, agentId, limit, resend, now) && GoesOut(s.commands[i], answers[i])
  }

  lemma OneMoreTurn(s: State, m: State, r: State, done: seq<nat>, id: nat, todo: seq<nat>, answers: seq<Answer>)
    requires |answers| >= |s.commands| && HadTurns(s, m, done, answers)
    requires id < |s.commands| && IsTurn(m, r, id, todo, answers[id])
    requires forall k :: 0 <= k < |done| ==> done[k] < id
    ensures HadTurns(s, r, done + [id], answers)
  {
    assert m.commands[id] == s.commands[id];
    assert forall i :: i in done + [id] <==> i in done || i == id;
    SentMore(s.sent, m.sent, r.sent, id, done);
  }

  lemma SentMore(a: seq<nat>, m: seq<nat>, r: seq<nat>, id: nat, done: seq<nat>)
    requires a <= m && Increasing(m[|a|..]) && (r == m || r == m + [id])
    requires forall i: nat :: i in m[|a|..] ==> i in done
    requires forall k :: 0 <= k < |done| ==> done[k] < id
    ensures a <= r && Increasing(r[|a|..])
    ensures forall i: nat :: i in r[|a|..] <==> i in m[|a|..] || (r == m + [id] && r != m && i == id)
  {
    var more := m[|a|..];
    if r == m + [id] {
      assert r[|a|..] == more + [id];
      forall k | 0 <= k < |more| ensures more[k] < id {
        assert more[k] in more;
      }
    }
  }

  // After `n` turns.
  lemma {:induction false} TurnsAre(before: State, s: State, first: seq<Event>, ids: seq<nat>, n: nat, answers: seq<Answer>)
    requires |answers| >= |s.commands| && n <= |ids| && Increasing(ids)
    requires s == Steps(before, first) && s.dispatcher == Working(ids)
    requires forall k :: 0 <= k < |ids| ==> ids[k] < |s.commands| && Unfinished(s.commands[ids[k]])
    ensures var r := Steps(before, first + DispatchEvents(ids[..n], answers));
            HadTurns(s, r, ids[..n], answers) && r.dispatcher == Working(ids[n..])
    decreases n
  {
    if n == 0 {
      NoEvents(first);
      assert ids[..0] == [] && ids[0..] == ids;
    } else {
      TurnsAre(before, s, first, ids, n - 1, answers);
      var m := Steps(before, first + DispatchEvents(ids[..n - 1], answers));
      DispatchTurn(before, m, first, ids, n - 1, answers);
      TailOfTail(ids, n - 1);
      NextTurn(s, m, ids, n - 1, answers);
    }
  }

  lemma NextTurn(s: State, m: State, ids: seq<nat>, n: nat, answers: seq<Answer>)
    requires |answers| >= |s.commands| && n < |ids| && Increasing(ids)
    requires forall k :: 0 <= k < |ids| ==> ids[k] < |s.commands| && Unfinished(s.commands[ids[k]])
    requires HadTurns(s, m, ids[..n], answers) && m.dispatcher == Working(ids[n..])
    ensures HadTurns(s, Turn(m, answers[ids[n]]), ids[..n + 1], answers)
    ensures Turn(m, answers[ids[n]]).dispatcher == Working(ids[n + 1..])
  {
    var id := ids[n];
    assert ids[n..] == [id] + ids[n + 1..];
    assert ids[..n + 1] == ids[..n] + [id];
    assert forall k :: 0 <= k < n ==> ids[..n][k] == ids[k] && ids[k] < id;
    assert m.commands[id] == s.commands[id];
    TurnIs(m, id, ids[n + 1..], answers[id]);
    OneMoreTurn(s, m, Turn(m, answers[id]), ids[..n], id, ids[n + 1..], answers);
  }

  lemma TakenUpAreDispatched(s: State, r: State, ids: seq<nat>, agentId: string, limit: int, resend: bool, now: nat, answers: seq<Answer>)
    requires |answers| >= |s.commands| && HadTurns(s.(dispatcher := Working(ids)), r, ids, answers) && s.dispatcher.Idle?
    requires forall id: nat :: id in ids <==> TakenUp(s.commands, id, agentId, limit, resend, now)
    ensures IsDispatched(s, r.(dispatcher := Idle), agentId, limit, resend, now, answers)
  {
  }

  lemma ListIs(s: State, agentId: string, limit: int, resend: bool, now: nat)
    requires s.dispatcher.Idle? && agentId != ""
    ensures Step(s, ListEvent(agentId, limit, resend, true, now))
         == s.(dispatcher := Working(Limited(ListFrom(s.commands, agentId, resend, now), limit)))
  {
  }

  // The whole of a dispatch for an agent that is connected.
  lemma DispatchIs(s: State, agentId: string, limit: int, resend: bool, now: nat, answers: seq<Answer>)
    requires s.dispatcher.Idle? && agentId != "" && |answers| >= |s.commands|
    ensures IsDispatched(s, Steps(s, DispatchRun(s.commands, agentId, limit, resend, now, answers)), agentId, limit, resend, now, answers)
  {
    var e := ListEvent(agentId, limit, resend, true, now);
    var ids := Limited(ListFrom(s.commands, agentId, resend, now), limit);
    ListedAreTakenUp(s.commands, agentId, limit, resend, now);
    ListIs(s, agentId, limit, resend, now);
    StepsAppend(s, [], e);
    NoEvents([e]);
    assert forall k :: 0 <= k < |ids| ==> ids[k] in ids;
    AllTurnsAre(s, e, ids, answers, now);
    TakenUpAreDispatched(s, Steps(s, [e] + DispatchEvents(ids, answers)), ids, agentId, limit, resend, now, answers);
  }

  lemma AllTurnsAre(s: State, e: Event, ids: seq<nat>, answers: seq<Answer>, now: nat)
    requires |answers| >= |s.commands| && Increasing(ids) && Steps(s, [e]) == s.(dispatcher := Working(ids))
    requires forall k :: 0 <= k < |ids| ==> ids[k] < |s.commands| && Unfinished(s.commands[ids[k]])
    ensures var r := Steps(s, [e] + DispatchEvents(ids, answers));
            && HadTurns(s.(dispatcher := Working(ids)), r, ids, answers)
            && Steps(s, [e] + DispatchEvents(ids, answers) + [PrepareEvent(Unknown, now)]) == r.(dispatcher := Idle)
  {
    TurnsAre(s, s.(dispatcher := Working(ids)), [e], ids, |ids|, answers);
    assert ids[..|ids|] == ids && ids[|ids|..] == [];
    StepsAppend(s, [e] + DispatchEvents(ids, answers), PrepareEvent(Unknown, now));
    EndOfList(Steps(s, [e] + DispatchEvents(ids, answers)), Unknown, now);
  }
}
