/** The promises of the command service, over every interleaving of its transactions. */
module CommandTheorems {
  import opened CommandModel
  import opened CommandSafety
  import opened Wrappers

  // ---- Finished commands ---------------------------------------------------------------------

  lemma RowsStepTransitive(a: State, b: State, c: State)
    requires RowsStep(a, b) && RowsStep(b, c)
    ensures RowsStep(a, c)
  {
    forall i | 0 <= i < |a.commands| ensures RowStep(a.commands[i], c.commands[i]) {
      assert RowStep(a.commands[i], b.commands[i]) && RowStep(b.commands[i], c.commands[i]);
    }
  }

  // From any state on, whatever happens, a finished command keeps its status and completion time.
  lemma {:induction false} FinishedIsFinal(s: State, run: seq<Event>)
    ensures RowsStep(s, Steps(s, run))
  {
    if run != [] {
      FinishedIsFinal(s, run[..|run| - 1]);
      StepRows(Steps(s, run[..|run| - 1]), run[|run| - 1]);
      RowsStepTransitive(s, Steps(s, run[..|run| - 1]), Steps(s, run));
    }
  }

  lemma StatusesInDomain(run: seq<Event>, id: nat)
    requires id < |Steps(INITIAL, run).commands|
    ensures var c := Steps(INITIAL, run).commands[id];
            && (c.completedAt.Some? <==> c.status.Terminal())
            && (c.status.Running? ==> c.ctype.LongRunning())
            && (c.status.Dispatched? ==> !c.ctype.LongRunning())
  {
    AlwaysKept(INITIAL, run);
    assert RowOk(Steps(INITIAL, run).commands[id]);
  }

  // ---- Commands and their tasks --------------------------------------------------------------

  lemma CommandAndTaskAgree(run: seq<Event>, id: nat)
    requires TasksRun(run) && id in Steps(INITIAL, run).tasks
    ensures var s := Steps(INITIAL, run);
            && id < |s.commands| && s.commands[id].ctype.LongRunning()
            && Agrees(s.commands[id].status, s.tasks[id].status)
  {
    TasksReachable(run);
    assert TaskOk(Steps(INITIAL, run), id);
  }

  // The task update of an accepted result carries no guard of its own; it never needs one.
  lemma ResultFindsOpenTask(run: seq<Event>, id: nat, result: TaskResult)
    requires TasksRun(run) && id < |Steps(INITIAL, run).commands|
    requires Accepts(Steps(INITIAL, run).commands[id], result) && id in Steps(INITIAL, run).tasks
    ensures Open(Steps(INITIAL, run).tasks[id])
    ensures Steps(INITIAL, run).tasks[id].taskType == result.taskType
  {
    TasksReachable(run);
    assert TaskOk(Steps(INITIAL, run), id);
  }

  // `FailCommand` and `TimeoutCommand` leave the task row alone, so they keep the agreement exactly
  // when the command they end has no task.
  lemma FinishKeepsAgreement(s: State, e: Event)
    requires Coupled(s) && e.FinishEvent?
    ensures var found := FinishTarget(s, e.agentId, e.messageId, e.ctype);
            Coupled(Step(s, e)) <==> (found.None? || found.value !in s.tasks)
  {
    var found := FinishTarget(s, e.agentId, e.messageId, e.ctype);
    if found.None? || found.value !in s.tasks {
      CoupledKept(s, e);
    } else {
      assert TaskOk(s, found.value);
      assert !TaskOk(Step(s, e), found.value);
    }
  }

  // An accepted result keeps the agreement exactly when it reports one of the four statuses that
  // agents use.
  lemma ResultKeepsAgreement(s: State, id: nat, result: TaskResult, now: nat)
    requires Coupled(s) && id in s.tasks && id < |s.commands| && Accepts(s.commands[id], result)
    ensures Coupled(Complete(s, id, result, now)) <==> ReportedStatus(result.status)
  {
    var r := Complete(s, id, result, now);
    assert TaskOk(s, id);
    if ReportedStatus(result.status) {
      OneTaskKept(s, r, id, r.commands[id]);
    } else {
      assert !TaskOk(r, id);
    }
  }

  // ---- At most one send ----------------------------------------------------------------------

  lemma SentAtMostOnce(run: seq<Event>, id: nat)
    requires SendsRun(INITIAL, run) && Long(Steps(INITIAL, run), id)
    ensures multiset(Steps(INITIAL, run).sent)[id] <= 1
    ensures Steps(INITIAL, run).commands[id].status.Pending? ==> multiset(Steps(INITIAL, run).sent)[id] == 0
  {
    SendsRunKept(INITIAL, run);
  }

  // A withdrawal of a dispatch by hand leaves every continuation with at most one send, and none while
  // pending, exactly when the dispatch is not that of an unfinished long-running command that has gone
  // out or is about to.
  lemma WithdrawalIsSafeIff(s: State, id: nat)
    requires Rows(s) && Committed(s) && Sends(s)
    ensures (forall later :: SendsRun(Step(s, RecordFailureByIdEvent(id)), later) ==>
               SentOnce(Steps(Step(s, RecordFailureByIdEvent(id)), later)))
       <==> !GoneOut(s, id)
  {
    var e := RecordFailureByIdEvent(id);
    var r := Step(s, e);
    RowsKept(s, e);
    CommittedKept(s, e);
    if !GoneOut(s, id) {
      SendsKept(s, e);
      forall later | SendsRun(r, later)
        ensures SentOnce(Steps(r, later))
      {
        SendsRunKept(r, later);
      }
    } else {
      var later := WithdrawnGoesWrong(s, id);
      assert !SentOnce(Steps(r, later));
    }
  }

  // It goes wrong at once when the command has gone out, and else when the send that is under way
  // succeeds.
  lemma WithdrawnGoesWrong(s: State, id: nat) returns (later: seq<Event>)
    requires GoneOut(s, id)
    ensures var r := Step(s, RecordFailureByIdEvent(id));
            SendsRun(r, later) && !SentOnce(Steps(r, later))
  {
    var r := Step(s, RecordFailureByIdEvent(id));
    assert Long(r, id) && r.commands[id].status.Pending?;
    if id in s.sent {
      later := [];
      assert Steps(r, []) == r;
    } else {
      later := [SendEvent(true)];
      assert later[..0] == [] && Steps(r, []) == r && SendsRun(r, []);
      var t := Step(r, SendEvent(true));
      assert Steps(r, later) == t;
      assert t.sent[|t.sent| - 1] == id && Long(t, id) && t.commands[id].status.Pending?;
    }
  }

  // ---- Results take effect once --------------------------------------------------------------

  // A result for a known command that is not waiting for it changes nothing at all.
  lemma LateResultIsIgnored(s: State, e: Event)
    requires e.ResultEvent? && e.messageId != ""
    requires var found := Find(s.commands, e.agentId, e.messageId);
             found.Some? && !Accepts(s.commands[found.value], e.result)
    ensures Step(s, e) == s
  {
  }

  function DeliverAgain(s: State, e: Event, times: nat): State
    requires e.ResultEvent?
  {
    if times == 0 then s else Step(DeliverAgain(s, e, times - 1), e)
  }

  lemma FindStable(s: State, r: State, agentId: string, messageId: string, id: nat)
    requires Rows(r) && RowsStep(s, r) && id < |s.commands| && Matches(s.commands[id], agentId, messageId)
    ensures Find(r.commands, agentId, messageId) == Some(id)
  {
    assert RowStep(s.commands[id], r.commands[id]);
    assert Matches(r.commands[id], agentId, messageId);
  }

  lemma NotWaitingAfter(s: State, e: Event, id: nat)
    requires e.ResultEvent? && e.messageId != "" && Find(s.commands, e.agentId, e.messageId) == Some(id)
    ensures id < |Step(s, e).commands| && !Accepts(Step(s, e).commands[id], e.result)
  {
  }

  lemma SecondDeliveryIgnored(s: State, e: Event)
    requires Rows(s) && e.ResultEvent? && e.messageId != "" && Find(s.commands, e.agentId, e.messageId).Some?
    ensures Step(Step(s, e), e) == Step(s, e)
  {
    var id := Find(s.commands, e.agentId, e.messageId).value;
    RowsKept(s, e);
    StepRows(s, e);
    FindStable(s, Step(s, e), e.agentId, e.messageId, id);
    NotWaitingAfter(s, e, id);
    LateResultIsIgnored(Step(s, e), e);
  }

  // A result without a command is kept as a history row by every delivery that brings its artifact
  // home.
  lemma UnknownResultAddsRow(s: State, e: Event)
    requires e.ResultEvent? && (e.messageId == "" || Find(s.commands, e.agentId, e.messageId).None?)
    requires e.localized && ReportedStatus(e.result.status)
    ensures Step(Step(s, e), e).histories != Step(s, e).histories
  {
    var r := Step(s, e);
    assert r == RecordHistory(s, e.agentId, e.messageId, e.result);
    var again := RecordHistory(r, e.agentId, e.messageId, e.result);
    if e.result.taskType.RestoreTask? && e.messageId != "" {
      var known := FindHistory(r.histories, e.agentId, e.messageId);
      if known.Some? {
        assert again.histories[known.value].status == e.result.status && r.histories[known.value].status.TaskRunning?;
      } else {
        assert |again.histories| == |r.histories| + 1;
      }
    } else {
      assert |again.histories| == |r.histories| + 1;
    }
  }

  // Delivering a result again changes nothing exactly when it belongs to a command, or its artifact
  // could not be brought home.
  lemma RedeliveryChangesNothingIff(s: State, e: Event)
    requires Rows(s) && e.ResultEvent? && ReportedStatus(e.result.status)
    ensures Step(Step(s, e), e) == Step(s, e)
       <==> (e.messageId != "" && Find(s.commands, e.agentId, e.messageId).Some?) || !e.localized
  {
    if e.messageId != "" && Find(s.commands, e.agentId, e.messageId).Some? {
      SecondDeliveryIgnored(s, e);
    } else if e.localized {
      UnknownResultAddsRow(s, e);
    }
  }

  // Delivering the same result of a command any number of times is delivering it once.
  lemma {:induction false} RedeliveryChangesNothing(s: State, e: Event, times: nat)
    requires Rows(s) && e.ResultEvent? && e.messageId != "" && times > 0
    requires Find(s.commands, e.agentId, e.messageId).Some?
    ensures DeliverAgain(s, e, times) == Step(s, e)
  {
    if times == 1 {
      assert DeliverAgain(s, e, 0) == s;
    } else {
      RedeliveryChangesNothing(s, e, times - 1);
      SecondDeliveryIgnored(s, e);
    }
  }

  // In no run are two results of one command committed, and a committed command stays finished.
  lemma CommittedAtMostOnce(run: seq<Event>, j: nat, k: nat)
    requires j < k < |Steps(INITIAL, run).commits|
    ensures Steps(INITIAL, run).commits[j] != Steps(INITIAL, run).commits[k]
    ensures Steps(INITIAL, run).commits[j] < |Steps(INITIAL, run).commands|
    ensures Steps(INITIAL, run).commands[Steps(INITIAL, run).commits[j]].status.Terminal()
  {
    AlwaysKept(INITIAL, run);
  }

  // Once a matching result was delivered, the command has ended, and it stays ended.
  lemma DeliveredMeansSettled(run: seq<Event>, e: Event, later: seq<Event>)
    requires e.ResultEvent? && e.messageId != ""
    requires var found := Find(Steps(INITIAL, run).commands, e.agentId, e.messageId);
             found.Some? && Steps(INITIAL, run).commands[found.value].ctype.TaskType() == Some(e.result.taskType)
    ensures var s := Steps(INITIAL, run);
            var id := Find(s.commands, e.agentId, e.messageId).value;
            var r := Steps(Step(s, e), later);
            && id < |r.commands| && r.commands[id].status.Terminal()
            && r.commands[id].status == Step(s, e).commands[id].status
  {
    var s := Steps(INITIAL, run);
    var id := Find(s.commands, e.agentId, e.messageId).value;
    FinishedIsFinal(Step(s, e), later);
    StepRows(s, e);
    assert RowStep(Step(s, e).commands[id], Steps(Step(s, e), later).commands[id]);
  }

  // ---- History rows --------------------------------------------------------------------------

  // The history rows of one agent's message.
  function CountHistory(hs: seq<History>, agentId: string, messageId: string): nat {
    if hs == [] then 0
    else
      var last := hs[|hs| - 1];
      CountHistory(hs[..|hs| - 1], agentId, messageId) + if last.agentId == agentId && last.messageId == messageId then 1 else 0
  }

  lemma {:induction false} CountOfUpdate(hs: seq<History>, k: nat, h: History, agentId: string, messageId: string)
    requires k < |hs| && h.agentId == hs[k].agentId && h.messageId == hs[k].messageId
    ensures CountHistory(hs[k := h], agentId, messageId) == CountHistory(hs, agentId, messageId)
  {
    var n := |hs| - 1;
    if k == n {
      assert hs[k := h][..n] == hs[..n];
    } else {
      CountOfUpdate(hs[..n], k, h, agentId, messageId);
      assert hs[k := h][..n] == hs[..n][k := h];
    }
  }

  lemma CountAfterRecord(s: State, agentId: string, messageId: string, result: TaskResult, a: string, m: string)
    requires agentId != a || messageId != m
    ensures CountHistory(RecordHistory(s, agentId, messageId, result).histories, a, m) == CountHistory(s.histories, a, m)
  {
    var hs := s.histories;
    var known := if result.taskType.RestoreTask? && messageId != "" then FindHistory(hs, agentId, messageId) else None;
    if known.Some? {
      CountOfUpdate(hs, known.value, hs[known.value].(status := result.status), a, m);
    } else {
      var row := History(agentId, messageId, result.taskType, result.status);
      assert (hs + [row])[..|hs|] == hs;
    }
  }

  lemma StillFound(s: State, r: State, agentId: string, messageId: string)
    requires RowsStep(s, r) && Find(s.commands, agentId, messageId).Some?
    ensures Find(r.commands, agentId, messageId).Some?
  {
    var id := Find(s.commands, agentId, messageId).value;
    assert RowStep(s.commands[id], r.commands[id]);
    assert Matches(r.commands[id], agentId, messageId);
  }

  lemma HistoryStaysNext(s: State, e: Event, agentId: string, messageId: string)
    requires messageId != "" && Find(s.commands, agentId, messageId).Some?
    ensures CountHistory(Step(s, e).histories, agentId, messageId) == CountHistory(s.histories, agentId, messageId)
  {
    if e.ResultEvent? {
      var found := if e.messageId == "" then None else Find(s.commands, e.agentId, e.messageId);
      if found.None? && e.localized {
        CountAfterRecord(s, e.agentId, e.messageId, e.result, agentId, messageId);
      }
    }
  }

  // Once a command with a message exists, its agent's history rows for that message stay as many as
  // they were, whatever follows: no result of the command adds a second one.
  lemma {:induction false} NoSecondHistoryRow(s: State, run: seq<Event>, agentId: string, messageId: string)
    requires messageId != "" && Find(s.commands, agentId, messageId).Some?
    ensures CountHistory(Steps(s, run).histories, agentId, messageId) == CountHistory(s.histories, agentId, messageId)
    ensures Find(Steps(s, run).commands, agentId, messageId).Some?
  {
    if run != [] {
      var before, e := Steps(s, run[..|run| - 1]), run[|run| - 1];
      NoSecondHistoryRow(s, run[..|run| - 1], agentId, messageId);
      HistoryStaysNext(before, e, agentId, messageId);
      StepRows(before, e);
      StillFound(before, Step(before, e), agentId, messageId);
    }
  }
}
