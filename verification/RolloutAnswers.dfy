/** What each call of the rollout service makes of the rows, told in their fields alone. */
module RolloutAnswers {
  import opened RolloutModel
  import opened RolloutPlan
  import opened RolloutSafety
  import opened RolloutSteps
  import opened RolloutRuns
  import opened RolloutTheorems
  import Text
  import opened Wrappers

  // ---- Vocabulary ----------------------------------------------------------------------------

  predicate Alive(status: RolloutStatus) { status == RPending || status == RRunning }

  predicate AnyIs(items: seq<Item>, status: ItemStatus) { exists i :: 0 <= i < |items| && items[i].status == status }

  // Told to upgrade, not heard of since, and past its deadline.
  predicate Late(it: Item, now: nat) { it.status == Running && it.deadlineAt.Some? && it.deadlineAt.value <= now }

  predicate AnyLate(items: seq<Item>, now: nat) { exists i :: 0 <= i < |items| && Late(items[i], now) }

  function Rank(it: Item): nat { if it.phase == Batch then it.batchIndex else 0 }

  // Pending, with nothing pending in an earlier wave.
  predicate IsNext(items: seq<Item>, i: nat) {
    && i < |items| && items[i].status == Pending
    && forall j :: 0 <= j < |items| && items[j].status == Pending ==> Rank(items[i]) <= Rank(items[j])
  }

  predicate Answers(env: Env, agentId: string, outcome: HubOutcome) { agentId in env.hub && env.hub[agentId] == outcome }

  // No request goes out to the agent.
  predicate Unreachable(env: Env, agentId: string) {
    agentId !in env.hub || env.hub[agentId] == Offline || env.hub[agentId] == EncodeError
  }

  // What an item becomes when it is its turn to be started.
  function Answered(it: Item, env: Env): Item {
    if Unreachable(env, it.agentId) then it.(status := Failed)
    else it.(status := if Answers(env, it.agentId, Accepted) || Answers(env, it.agentId, ContextDone) then Running else Failed,
             startedAt := Some(env.now),
             deadlineAt := Some(env.now + env.itemTimeout))
  }

  // The call gets as far as item `i`: its context did not end while it waited for one before.
  predicate Asked(items: seq<Item>, i: nat, env: Env) {
    IsNext(items, i) && forall j :: 0 <= j < i && IsNext(items, j) ==> !Answers(env, items[j].agentId, ContextDone)
  }

  ghost predicate AskedInVain(items: seq<Item>, env: Env) {
    exists i: nat :: Asked(items, i, env) && Answered(items[i], env).status == Failed
  }

  // The call ends early because its context does.
  ghost predicate Hung(ro: Rollout, env: Env) {
    && Alive(ro.status) && !AnyIs(ro.items, Running)
    && exists i: nat :: IsNext(ro.items, i) && Answers(env, ro.items[i].agentId, ContextDone)
  }

  // `b` is what an advance makes of `a`.
  ghost predicate Advanced(a: Rollout, b: Rollout, env: Env) {
    && b == a.(status := b.status, items := b.items) && |b.items| == |a.items|
    && if AnyLate(a.items, env.now) then
         && b.status == (if Alive(a.status) then RFailed else a.status)
         && forall i :: 0 <= i < |a.items| ==>
              b.items[i] == if Late(a.items[i], env.now) then a.items[i].(status := Failed)
                            else if a.items[i].status == Pending then a.items[i].(status := Skipped)
                            else a.items[i]
       else if !Alive(a.status) then b == a
       else if AnyIs(a.items, Running) then b == a.(status := RRunning)
       else if !AnyIs(a.items, Pending) then b == a.(status := RSucceeded)
       else
         && b.status == (if AskedInVain(a.items, env) then RFailed else RRunning)
         && forall i :: 0 <= i < |a.items| ==>
              b.items[i] == if Asked(a.items, i, env) then Answered(a.items[i], env)
                            else if AskedInVain(a.items, env) && a.items[i].status == Pending then a.items[i].(status := Skipped)
                            else a.items[i]
  }

  // ---- One advance ---------------------------------------------------------------------------

  lemma LateAreSelected(ro: Rollout, now: nat, sel: seq<nat>)
    requires sel == Matching(ro.items, (it: Item) => IsExpired(it, now))
    ensures forall i :: 0 <= i < |ro.items| ==> (i in sel <==> Late(ro.items[i], now))
    ensures sel != [] <==> AnyLate(ro.items, now)
  {
    if AnyLate(ro.items, now) {
      var i :| 0 <= i < |ro.items| && Late(ro.items[i], now);
      assert i in sel;
    }
    if sel != [] {
      assert Late(ro.items[sel[0]], now);
    }
  }

  // What was late has failed, and with it the rollout, whose pending items are skipped.
  predicate LateFailed(a: Rollout, b: Rollout, now: nat) {
    && b == a.(status := b.status, items := b.items) && |b.items| == |a.items|
    && b.status == (if AnyLate(a.items, now) && Alive(a.status) then RFailed else a.status)
    && forall i :: 0 <= i < |a.items| ==>
         b.items[i] == if Late(a.items[i], now) then a.items[i].(status := Failed)
                       else if AnyLate(a.items, now) && a.items[i].status == Pending then a.items[i].(status := Skipped)
                       else a.items[i]
  }

  lemma ExpireIs(ro: Rollout, r: Rollout, now: nat)
    requires r == Expire(ro, now)
    ensures LateFailed(ro, r, now)
    ensures !AnyLate(ro.items, now) ==> r == ro
  {
    var sel := Matching(ro.items, (it: Item) => IsExpired(it, now));
    LateAreSelected(ro, now, sel);
    FailAllEffect(ro, sel);
    if !AnyLate(ro.items, now) {
      assert r.items == ro.items;
    }
  }

  lemma StartedIsAnswered(it: Item, env: Env)
    ensures Started(it, env) == Answered(it, env)
    ensures Stops(it, env) <==> Answers(env, it.agentId, ContextDone)
  {
  }

  // Of an increasing selection the loop gets to those with no end of the context before them.
  lemma ReachedAre(items: seq<Item>, sel: seq<nat>, env: Env)
    requires forall k :: 0 <= k < |sel| ==> sel[k] < |items|
    requires forall j, k :: 0 <= j < k < |sel| ==> sel[j] < sel[k]
    ensures forall i :: i in sel[..Reached(items, sel, env)] <==>
              i in sel && forall j :: j in sel && j < i ==> !Stops(items[j], env)
  {
    var n := Reached(items, sel, env);
    forall i | i in sel[..n]
      ensures i in sel && forall j :: j in sel && j < i ==> !Stops(items[j], env)
    {
      var k :| 0 <= k < n && sel[k] == i;
      forall j | j in sel && j < i ensures !Stops(items[j], env) {
        var l :| 0 <= l < |sel| && sel[l] == j;
        assert l < k;
      }
    }
    forall i | i in sel && i !in sel[..n]
      ensures exists j :: j in sel && j < i && Stops(items[j], env)
    {
      var k :| 0 <= k < |sel| && sel[k] == i;
      assert forall l :: 0 <= l < n ==> sel[..n][l] == sel[l] && sel[l] in sel[..n];
      assert sel[n - 1] in sel && sel[n - 1] < i;
    }
  }

  lemma {:induction false} StartAllStops(ro: Rollout, sel: seq<nat>, env: Env)
    requires forall k :: 0 <= k < |sel| ==> sel[k] < |ro.items|
    ensures StartAll(ro, sel, env).1 <==> exists i :: i in sel && Stops(ro.items[i], env)
    decreases |sel|
  {
    if sel != [] {
      var (first, stop) := StartItem(ro, sel[0], env);
      assert forall i :: 0 <= i < |ro.items| ==> first.items[i].agentId == ro.items[i].agentId;
      StartAllStops(first, sel[1..], env);
      assert forall i :: i in sel <==> i == sel[0] || i in sel[1..];
    }
  }

  lemma NextAreSelected(ro: Rollout, sel: seq<nat>, w: nat)
    requires RolloutInv(ro) && IsNextWave(ro, sel, w)
    ensures forall i: nat :: i in sel <==> IsNext(ro.items, i)
  {
    assert sel[0] in sel;
    var first := ro.items[sel[0]];
    assert forall i :: 0 <= i < |ro.items| ==> Rank(ro.items[i]) == ro.items[i].Wave();
  }

  lemma AskedAreReached(ro: Rollout, sel: seq<nat>, env: Env)
    requires forall k :: 0 <= k < |sel| ==> sel[k] < |ro.items|
    requires forall j, k :: 0 <= j < k < |sel| ==> sel[j] < sel[k]
    requires forall i: nat :: i in sel <==> IsNext(ro.items, i)
    ensures forall i: nat :: i in sel[..Reached(ro.items, sel, env)] <==> Asked(ro.items, i, env)
  {
    ReachedAre(ro.items, sel, env);
  }

  lemma FailuresAre(ro: Rollout, done: seq<nat>, env: Env)
    requires forall k :: 0 <= k < |done| ==> done[k] < |ro.items|
    requires forall i: nat :: i in done <==> Asked(ro.items, i, env)
    ensures AnyFails(ro.items, done, env) <==> AskedInVain(ro.items, env)
  {
    if AnyFails(ro.items, done, env) {
      var k :| 0 <= k < |done| && Fails(ro.items[done[k]], env);
      StartedIsAnswered(ro.items[done[k]], env);
      assert done[k] in done && Asked(ro.items, done[k], env);
    }
    if AskedInVain(ro.items, env) {
      var i: nat :| Asked(ro.items, i, env) && Answered(ro.items[i], env).status == Failed;
      assert i in done;
      var k :| 0 <= k < |done| && done[k] == i;
      assert Fails(ro.items[done[k]], env);
    }
  }

  // The statuses by their names.
  lemma StatusesAre(ro: Rollout)
    ensures ro.status.Active() <==> Alive(ro.status)
    ensures AnyItem(ro.items, IsRunning) <==> AnyIs(ro.items, Running)
    ensures AnyItem(ro.items, IsPending) <==> AnyIs(ro.items, Pending)
    ensures AnyItem(ro.items, IsFailed) <==> AnyIs(ro.items, Failed)
  {
    if i :| 0 <= i < |ro.items| && ro.items[i].status == Running { assert IsRunning(ro.items[i]); }
    if i :| 0 <= i < |ro.items| && ro.items[i].status == Pending { assert IsPending(ro.items[i]); }
    if i :| 0 <= i < |ro.items| && ro.items[i].status == Failed { assert IsFailed(ro.items[i]); }
  }

  lemma WaveIsAnswered(ro: Rollout, env: Env)
    requires RolloutInv(ro) && Alive(ro.status) && !AnyIs(ro.items, Running) && AnyIs(ro.items, Pending)
    ensures Advanced(ro, Advance(ro, env).0, env)
    ensures Advance(ro, env).1 <==> Hung(ro, env)
  {
    StatusesAre(ro);
    var running, sel := ro.(status := RRunning), NextItems(ro);
    AdvanceIsStart(ro, env);
    var w := NextItemsIsNextWave(ro);
    NextAreSelected(ro, sel, w);
    StartAllStops(running, sel, env);
    StartAllEffect(running, sel, env);
    AskedAreReached(ro, sel, env);
    StartedIsAdvancedTo(ro, sel[..Reached(ro.items, sel, env)], env);
    HungIs(ro, sel, env);
  }

  lemma HungIs(ro: Rollout, sel: seq<nat>, env: Env)
    requires Alive(ro.status) && !AnyIs(ro.items, Running)
    requires forall i: nat :: i in sel <==> IsNext(ro.items, i)
    ensures Hung(ro, env) <==> exists i :: i in sel && i < |ro.items| && Stops(ro.items[i], env)
  {
    if i :| i in sel && i < |ro.items| && Stops(ro.items[i], env) {
      assert IsNext(ro.items, i);
    }
  }

  lemma StartedIsAdvancedTo(ro: Rollout, done: seq<nat>, env: Env)
    requires Alive(ro.status) && !AnyIs(ro.items, Running) && AnyIs(ro.items, Pending)
    requires forall k :: 0 <= k < |done| ==> done[k] < |ro.items|
    requires forall i: nat :: i in done <==> Asked(ro.items, i, env)
    ensures Advanced(ro, StartedRollout(ro.(status := RRunning), done, env), env)
  {
    var running := ro.(status := RRunning);
    var r := StartedRollout(running, done, env);
    FailuresAre(ro, done, env);
    assert !AnyLate(ro.items, env.now) by {
      if i :| 0 <= i < |ro.items| && Late(ro.items[i], env.now) {
        assert AnyIs(ro.items, Running);
      }
    }
    forall i | 0 <= i < |ro.items|
      ensures r.items[i] == StartedItem(running, done, env, i) && Started(ro.items[i], env) == Answered(ro.items[i], env)
    {
    }
  }

  // An advance of any row that a run can bring about.
  lemma AdvanceRow(ro: Rollout, env: Env)
    requires RolloutInv(ro)
    ensures Advanced(ro, Advance(ro, env).0, env)
    ensures Advance(ro, env).1 <==> Hung(ro, env)
  {
    StatusesAre(ro);
    ExpireIs(ro, Expire(ro, env.now), env.now);
    if AnyLate(ro.items, env.now) {
      var i :| 0 <= i < |ro.items| && Late(ro.items[i], env.now);
      assert AnyIs(ro.items, Running);
    } else if Alive(ro.status) {
      ActiveHasNoFailure(ro);
      if !AnyIs(ro.items, Running) && AnyIs(ro.items, Pending) {
        WaveIsAnswered(ro, env);
      } else if !AnyIs(ro.items, Running) {
        assert !exists i: nat :: IsNext(ro.items, i);
      }
    }
  }

  // ---- The calls over runs -------------------------------------------------------------------

  lemma ExecMore(run: seq<Event>, e: Event)
    ensures Exec(run + [e]) == Step(Exec(run), e)
  {
    assert (run + [e])[..|run|] == run;
  }

  // In every run an advance of a rollout leaves all other rollouts alone and makes of its row what
  // `Advanced` tells, for every answer of the hub.
  lemma AdvanceAnswer(run: seq<Event>, r: nat, env: Env)
    ensures var s, t := Exec(run), Exec(run + [AdvanceEvent(r, env)]);
            && |t| == |s|
            && (forall k :: 0 <= k < |s| && k != r ==> t[k] == s[k])
            && (r < |s| ==> Advanced(s[r], t[r], env) && (Advance(s[r], env).1 <==> Hung(s[r], env)))
  {
    Reachable(run);
    ExecMore(run, AdvanceEvent(r, env));
    if r < |Exec(run)| {
      AdvanceRow(Exec(run)[r], env);
    }
  }

  ghost predicate Decided(a: Rollout, b: Rollout, now: nat) {
    && |b.items| == |a.items|
    && (forall i :: 0 <= i < |a.items| && a.items[i].status == Running ==>
          && a.items[i].deadlineAt.Some?
          && (b.items[i].status == Failed <==> a.items[i].deadlineAt.value <= now)
          && (b.items[i].status != Failed ==> b.items[i] == a.items[i]))
    && ((exists i :: 0 <= i < |a.items| && a.items[i].status == Running && a.items[i].deadlineAt.value <= now) ==>
          && (Alive(a.status) ==> b.status == RFailed) && (!Alive(a.status) ==> b.status == a.status)
          && forall i :: 0 <= i < |a.items| && a.items[i].status == Pending ==> b.items[i] == a.items[i].(status := Skipped))
    && (Alive(a.status) && AnyIs(a.items, Running)
        && (forall i :: 0 <= i < |a.items| && a.items[i].status == Running ==> a.items[i].deadlineAt.value > now) ==>
          b == a.(status := RRunning))
  }

  lemma DeadlineDecidesRow(a: Rollout, b: Rollout, env: Env)
    requires Rows(a) && Advanced(a, b, env)
    ensures Decided(a, b, env.now)
  {
    forall i | 0 <= i < |a.items| && a.items[i].status == Running ensures a.items[i].deadlineAt.Some? {
      assert RowOk(a.items[i]);
    }
    if i :| 0 <= i < |a.items| && a.items[i].status == Running && a.items[i].deadlineAt.value <= env.now {
      assert Late(a.items[i], env.now);
    }
    if i :| 0 <= i < |a.items| && a.items[i].status == Running {
      assert AnyIs(a.items, Running);
      if j :| 0 <= j < |a.items| && Late(a.items[j], env.now) {
        assert a.items[j].deadlineAt.value <= env.now;
      }
    }
  }

  // An upgrade under way fails at an advance if and only if its deadline has come; then the rollout
  // fails and what was still pending is skipped. Otherwise the advance waits for it.
  lemma DeadlineDecides(run: seq<Event>, r: nat, env: Env)
    requires r < |Exec(run)|
    ensures Decided(Exec(run)[r], Exec(run + [AdvanceEvent(r, env)])[r], env.now)
  {
    AdvanceAnswer(run, r, env);
    Reachable(run);
    DeadlineDecidesRow(Exec(run)[r], Exec(run + [AdvanceEvent(r, env)])[r], env);
  }

  // ---- Cancelling ----------------------------------------------------------------------------

  // A cancelled rollout: it ends if it had not ended, what was pending or under way in it is skipped,
  // and everything else stays.
  lemma CancelAnswer(run: seq<Event>, r: nat)
    ensures var s, t := Exec(run), Exec(run + [CancelEvent(r)]);
            && |t| == |s|
            && (forall k :: 0 <= k < |s| && k != r ==> t[k] == s[k])
            && (r < |s| ==>
                  && t[r] == s[r].(status := if Alive(s[r].status) then RCancelled else s[r].status, items := t[r].items)
                  && |t[r].items| == |s[r].items|
                  && forall i :: 0 <= i < |s[r].items| ==>
                       t[r].items[i] == if s[r].items[i].status == Pending || s[r].items[i].status == Running
                                        then s[r].items[i].(status := Skipped) else s[r].items[i])
  {
    ExecMore(run, CancelEvent(r));
  }

  // ---- Heartbeats ----------------------------------------------------------------------------

  // Item `i` of rollout `k` is under way on the agent.
  predicate Reports(s: seq<Rollout>, k: nat, i: nat, agentId: string) {
    k < |s| && i < |s[k].items| && s[k].items[i].agentId == agentId && s[k].items[i].status == Running
  }

  // The row with what the agent reports noted on its item.
  function Marked(ro: Rollout, i: nat, version: string): Rollout
    requires i < |ro.items|
  {
    ro.(items := ro.items[i := ro.items[i].(lastSeenVersion := version,
                                            status := if version == ro.items[i].targetVersion then Success else Running)])
  }

  // The heartbeat gets as far as rollout `k`: no advance before it was cut off.
  ghost predicate Heard(s: seq<Rollout>, k: nat, agentId: string, version: string, env: Env) {
    forall l: nat, i: nat | l < k && Reports(s, l, i, agentId) && s[l].items[i].targetVersion == version ::
      !Hung(Marked(s[l], i, version), env)
  }

  // What the heartbeat makes of rollout `k`.
  ghost predicate Beaten(s: seq<Rollout>, t: seq<Rollout>, k: nat, agentId: string, version: string, env: Env)
    requires k < |s| == |t|
  {
    && (!Heard(s, k, agentId, version, env) || (forall i: nat :: !Reports(s, k, i, agentId)) ==> t[k] == s[k])
    && (Heard(s, k, agentId, version, env) ==>
          forall i: nat | Reports(s, k, i, agentId) ::
            if version == s[k].items[i].targetVersion then Advanced(Marked(s[k], i, version), t[k], env)
            else t[k] == Marked(s[k], i, version))
  }

  // The row after a heartbeat for its item `i`, and whether its advance was cut off.
  function Beat(ro: Rollout, i: nat, version: string, env: Env): (Rollout, bool)
    requires i < |ro.items|
  {
    if version == ro.items[i].targetVersion then Advance(Seen(ro, i, version), env) else (Seen(ro, i, version), false)
  }

  lemma HeartbeatItemIs(s: seq<Rollout>, at: (nat, nat), version: string, env: Env)
    requires at.0 < |s| && at.1 < |s[at.0].items|
    ensures HeartbeatItem(s, at, version, env)
         == (s[at.0 := Beat(s[at.0], at.1, version, env).0], Beat(s[at.0], at.1, version, env).1)
  {
  }

  predicate Uncut(s: seq<Rollout>, at: seq<(nat, nat)>, p: nat, version: string, env: Env)
    requires p <= |at| && forall q :: 0 <= q < |at| ==> at[q].0 < |s| && at[q].1 < |s[at[q].0].items|
  {
    forall q :: 0 <= q < p ==> !Beat(s[at[q].0], at[q].1, version, env).1
  }

  lemma {:induction false} HeartbeatAllAt(s: seq<Rollout>, at: seq<(nat, nat)>, version: string, env: Env, k: nat)
    requires Positions(s, at) && k < |s|
    ensures (forall p :: 0 <= p < |at| ==> at[p].0 != k) ==> HeartbeatAll(s, at, version, env)[k] == s[k]
    ensures forall p :: 0 <= p < |at| && at[p].0 == k ==>
              HeartbeatAll(s, at, version, env)[k] == if Uncut(s, at, p, version, env) then Beat(s[k], at[p].1, version, env).0 else s[k]
    decreases |at|
  {
    if at != [] {
      var (b, stop) := HeartbeatItem(s, at[0], version, env);
      HeartbeatItemIs(s, at[0], version, env);
      assert Beat(s[at[0].0], at[0].1, version, env).1 == stop;
      if !stop {
        PositionsTail(s, b, at);
        HeartbeatAllAt(b, at[1..], version, env, k);
        forall p | 0 <= p < |at| && at[p].0 == k
          ensures HeartbeatAll(s, at, version, env)[k] == if Uncut(s, at, p, version, env) then Beat(s[k], at[p].1, version, env).0 else s[k]
        {
          if p > 0 {
            UncutTail(s, b, at, p, version, env);
            assert at[1..][p - 1] == at[p];
          }
        }
      }
    }
  }

  lemma UncutTail(s: seq<Rollout>, b: seq<Rollout>, at: seq<(nat, nat)>, p: nat, version: string, env: Env)
    requires 0 < p < |at| && Positions(s, at) && Positions(b, at[1..]) && |b| == |s|
    requires forall k :: 0 <= k < |s| && k != at[0].0 ==> b[k] == s[k]
    requires !Beat(s[at[0].0], at[0].1, version, env).1
    ensures Uncut(s, at, p, version, env) <==> Uncut(b, at[1..], p - 1, version, env)
  {
    assert forall q :: 0 <= q < p - 1 ==> at[1..][q] == at[q + 1] && at[q + 1].0 != at[0].0;
    if Uncut(b, at[1..], p - 1, version, env) {
      forall q | 0 <= q < p ensures !Beat(s[at[q].0], at[q].1, version, env).1 {
        if q > 0 {
          assert !Beat(b[at[1..][q - 1].0], at[1..][q - 1].1, version, env).1;
        }
      }
    }
  }

  lemma {:induction false} RunningItemsAre(s: seq<Rollout>, agentId: string)
    ensures forall k: nat, i: nat :: Reports(s, k, i, agentId) <==> (k, i) in RunningItems(s, agentId)
  {
    if s != [] {
      var n := |s| - 1;
      var sel := Matching(s[n].items, (it: Item) => it.agentId == agentId && it.status.Running?);
      var front, last := RunningItems(s[..n], agentId), seq(|sel|, k requires 0 <= k < |sel| => (n, sel[k]));
      RunningItemsAre(s[..n], agentId);
      assert RunningItems(s, agentId) == front + last;
      forall k: nat, i: nat
        ensures Reports(s, k, i, agentId) <==> (k, i) in front + last
      {
        assert Reports(s[..n], k, i, agentId) <==> (k, i) in front;
        LastPositions(sel, last, n, k, i);
        assert k == n ==> (Reports(s, k, i, agentId) <==> i in sel);
      }
    }
  }

  lemma LastPositions(sel: seq<nat>, last: seq<(nat, nat)>, n: nat, k: nat, i: nat)
    requires |last| == |sel| && forall j :: 0 <= j < |sel| ==> last[j] == (n, sel[j])
    ensures (k, i) in last <==> k == n && i in sel
  {
    if k == n && i in sel {
      var j :| 0 <= j < |sel| && sel[j] == i;
      assert last[j] == (n, i);
    }
  }

  lemma BeatIs(ro: Rollout, i: nat, version: string, env: Env)
    requires RolloutInv(ro) && i < |ro.items| && ro.items[i].status == Running
    ensures version != ro.items[i].targetVersion ==> Beat(ro, i, version, env) == (Marked(ro, i, version), false)
    ensures version == ro.items[i].targetVersion ==>
              Advanced(Marked(ro, i, version), Beat(ro, i, version, env).0, env)
              && (Beat(ro, i, version, env).1 <==> Hung(Marked(ro, i, version), env))
  {
    SeeVersionKept(ro, i, version);
    assert Seen(ro, i, version) == Marked(ro, i, version);
    AdvanceRow(Marked(ro, i, version), env);
  }

  lemma UncutMeansHeard(s: seq<Rollout>, at: seq<(nat, nat)>, p: nat, agentId: string, version: string, env: Env)
    requires AllInv(s) && Positions(s, at) && p < |at|
    requires forall k: nat, i: nat :: Reports(s, k, i, agentId) <==> (k, i) in at
    ensures Uncut(s, at, p, version, env) <==> Heard(s, at[p].0, agentId, version, env)
  {
    if Uncut(s, at, p, version, env) {
      forall l: nat, i: nat | l < at[p].0 && Reports(s, l, i, agentId) && s[l].items[i].targetVersion == version
        ensures !Hung(Marked(s[l], i, version), env)
      {
        var q :| 0 <= q < |at| && at[q] == (l, i);
        assert q < p;
        BeatIs(s[l], i, version, env);
      }
    }
    if Heard(s, at[p].0, agentId, version, env) {
      forall q | 0 <= q < p ensures !Beat(s[at[q].0], at[q].1, version, env).1 {
        assert at[q] == (at[q].0, at[q].1) && at[q] in at;
        assert Reports(s, at[q].0, at[q].1, agentId);
        BeatIs(s[at[q].0], at[q].1, version, env);
      }
    }
  }

  lemma NotAmong(at: seq<(nat, nat)>, k: nat)
    requires forall p :: 0 <= p < |at| ==> at[p].0 != k
    ensures forall i: nat :: (k, i) !in at
  {
  }

  lemma BeatenAt(s: seq<Rollout>, t: seq<Rollout>, k: nat, agentId: string, version: string, env: Env)
    requires AllInv(s) && k < |s| && t == HeartbeatAll(s, RunningItems(s, agentId), version, env)
    ensures Beaten(s, t, k, agentId, version, env)
  {
    var at := RunningItems(s, agentId);
    RunningPositions(s, agentId);
    RunningItemsAre(s, agentId);
    HeartbeatAllAt(s, at, version, env, k);
    if p :| 0 <= p < |at| && at[p].0 == k {
      UncutMeansHeard(s, at, p, agentId, version, env);
      assert at[p] == (k, at[p].1) && at[p] in at;
      assert Reports(s, k, at[p].1, agentId);
      forall i: nat | Reports(s, k, i, agentId) ensures i == at[p].1 {
        var q :| 0 <= q < |at| && at[q] == (k, i);
      }
      BeatIs(s[k], at[p].1, version, env);
    } else {
      NotAmong(at, k);
    }
  }

  // What a heartbeat for item `i` makes of its row.
  ghost predicate Observed(a: Rollout, b: Rollout, i: nat, version: string, env: Env)
    requires i < |a.items|
  {
    if version == a.items[i].targetVersion then Advanced(Marked(a, i, version), b, env) else b == Marked(a, i, version)
  }

  lemma ObservedIs(s: seq<Rollout>, at: (nat, nat), version: string, env: Env)
    requires at.0 < |s| && RolloutInv(s[at.0]) && at.1 < |s[at.0].items| && s[at.0].items[at.1].status == Running
    ensures var t := HeartbeatItem(s, at, version, env).0; t == s[at.0 := t[at.0]] && Observed(s[at.0], t[at.0], at.1, version, env)
  {
    HeartbeatItemIs(s, at, version, env);
    BeatIs(s[at.0], at.1, version, env);
  }

  lemma HeartbeatRows(s: seq<Rollout>, agentId: string, version: string, env: Env)
    requires AllInv(s) && agentId != "" && !Text.Blank(version)
    ensures var t := Step(s, HeartbeatEvent(agentId, version, env));
            |t| == |s| && forall k :: 0 <= k < |s| ==> Beaten(s, t, k, agentId, version, env)
  {
    var t := Step(s, HeartbeatEvent(agentId, version, env));
    forall k | 0 <= k < |s| ensures Beaten(s, t, k, agentId, version, env) {
      BeatenAt(s, t, k, agentId, version, env);
    }
  }

  // In every run a heartbeat notes the version on each item under way on the agent, marks it successful
  // if that is its target, and then advances its rollout; it goes through the rollouts in order and ends
  // where an advance is cut off. Rollouts in which nothing is under way on the agent stay as they are.
  lemma HeartbeatAnswer(run: seq<Event>, agentId: string, version: string, env: Env)
    ensures var s, t := Exec(run), Exec(run + [HeartbeatEvent(agentId, version, env)]);
            && |t| == |s|
            && (agentId == "" || Text.Blank(version) ==> t == s)
            && (agentId != "" && !Text.Blank(version) ==> forall k :: 0 <= k < |s| ==> Beaten(s, t, k, agentId, version, env))
  {
    Reachable(run);
    ExecMore(run, HeartbeatEvent(agentId, version, env));
    var s, t := Exec(run), Exec(run + [HeartbeatEvent(agentId, version, env)]);
    if agentId != "" && !Text.Blank(version) {
      forall k | 0 <= k < |s| ensures Beaten(s, t, k, agentId, version, env) {
        BeatenAt(s, t, k, agentId, version, env);
      }
    }
  }

  // When no context ends early: an item under way on the agent has the version noted, and is successful
  // if and only if that is its target. A version that is nobody's target changes nothing else; one that
  // is the target advances the rollout.
  lemma HeartbeatDecides(run: seq<Event>, agentId: string, version: string, env: Env, k: nat, i: nat)
    requires agentId != "" && !Text.Blank(version) && forall a :: a in env.hub ==> env.hub[a] != ContextDone
    requires Reports(Exec(run), k, i, agentId)
    ensures var a, b := Exec(run)[k], Exec(run + [HeartbeatEvent(agentId, version, env)])[k];
            && |b.items| == |a.items|
            && b.items[i] == a.items[i].(lastSeenVersion := version, status := b.items[i].status)
            && (b.items[i].status == Success <==> version == a.items[i].targetVersion)
            && (version != a.items[i].targetVersion ==> b == a.(items := a.items[i := a.items[i].(lastSeenVersion := version)]))
            && (version == a.items[i].targetVersion ==> Advanced(Marked(a, i, version), b, env))
  {
    HeartbeatAnswer(run, agentId, version, env);
    NoneIsCut(Exec(run), k, agentId, version, env);
    HeardDecides(Exec(run), Exec(run + [HeartbeatEvent(agentId, version, env)]), k, i, agentId, version, env);
  }

  lemma NoneIsCut(s: seq<Rollout>, k: nat, agentId: string, version: string, env: Env)
    requires forall a :: a in env.hub ==> env.hub[a] != ContextDone
    ensures Heard(s, k, agentId, version, env)
  {
  }

  lemma HeardDecides(s: seq<Rollout>, t: seq<Rollout>, k: nat, i: nat, agentId: string, version: string, env: Env)
    requires k < |s| == |t| && Beaten(s, t, k, agentId, version, env)
    requires Heard(s, k, agentId, version, env) && Reports(s, k, i, agentId)
    ensures |t[k].items| == |s[k].items|
    ensures t[k].items[i] == Marked(s[k], i, version).items[i]
    ensures version != s[k].items[i].targetVersion ==> t[k] == s[k].(items := s[k].items[i := s[k].items[i].(lastSeenVersion := version)])
    ensures version == s[k].items[i].targetVersion ==> Advanced(Marked(s[k], i, version), t[k], env)
  {
    if version == s[k].items[i].targetVersion {
      SuccessStays(Marked(s[k], i, version), t[k], env, i);
    }
  }

  lemma SuccessStays(a: Rollout, b: Rollout, env: Env, i: nat)
    requires Advanced(a, b, env) && i < |a.items| && a.items[i].status == Success
    ensures b.items[i] == a.items[i]
  {
  }

  // ---- Deadlines -----------------------------------------------------------------------------

  predicate TimesOutAfter(e: Event, timeout: nat) { e.AdvanceEvent? || e.HeartbeatEvent? ==> e.env.itemTimeout == timeout }

  predicate DueAfter(it: Item, timeout: nat) {
    if it.startedAt.Some? then it.deadlineAt == Some(it.startedAt.value + timeout) else it.deadlineAt == None
  }

  ghost predicate AllDue(rollouts: seq<Rollout>, timeout: nat) {
    forall r, i :: 0 <= r < |rollouts| && 0 <= i < |rollouts[r].items| ==> DueAfter(rollouts[r].items[i], timeout)
  }

  lemma AdvancedDue(a: Rollout, b: Rollout, env: Env, timeout: nat)
    requires Advanced(a, b, env) && env.itemTimeout == timeout
    requires forall i :: 0 <= i < |a.items| ==> DueAfter(a.items[i], timeout)
    ensures forall i :: 0 <= i < |b.items| ==> DueAfter(b.items[i], timeout)
  {
    forall i | 0 <= i < |b.items| ensures DueAfter(b.items[i], timeout) {
      AdvancedDueAt(a, b, env, i);
    }
  }

  lemma AdvancedDueAt(a: Rollout, b: Rollout, env: Env, i: nat)
    requires Advanced(a, b, env) && i < |a.items| && DueAfter(a.items[i], env.itemTimeout)
    ensures DueAfter(b.items[i], env.itemTimeout)
  {
    AnsweredDue(a.items[i], env);
    if Asked(a.items, i, env) {
      assert b.items[i].startedAt == a.items[i].startedAt || b.items[i] == Answered(a.items[i], env);
    }
  }

  lemma AnsweredDue(it: Item, env: Env)
    requires DueAfter(it, env.itemTimeout)
    ensures DueAfter(Answered(it, env), env.itemTimeout)
    ensures forall status :: DueAfter(it.(status := status), env.itemTimeout)
  {
  }

  lemma MarkedDue(ro: Rollout, i: nat, version: string, timeout: nat)
    requires i < |ro.items| && forall j :: 0 <= j < |ro.items| ==> DueAfter(ro.items[j], timeout)
    ensures forall j :: 0 <= j < |ro.items| ==> DueAfter(Marked(ro, i, version).items[j], timeout)
  {
  }

  lemma BeatenDue(s: seq<Rollout>, t: seq<Rollout>, k: nat, agentId: string, version: string, env: Env, timeout: nat)
    requires k < |s| == |t| && Beaten(s, t, k, agentId, version, env) && env.itemTimeout == timeout
    requires forall i :: 0 <= i < |s[k].items| ==> DueAfter(s[k].items[i], timeout)
    ensures forall i :: 0 <= i < |t[k].items| ==> DueAfter(t[k].items[i], timeout)
  {
    if i: nat :| Heard(s, k, agentId, version, env) && Reports(s, k, i, agentId) {
      var marked := Marked(s[k], i, version);
      MarkedDue(s[k], i, version, timeout);
      if version == s[k].items[i].targetVersion {
        AdvancedDue(marked, t[k], env, timeout);
      }
    }
  }

  lemma {:induction false} PlannedDue(agents: seq<AgentRow>, version: string, canaryCount: nat, batchSize: int, timeout: nat)
    ensures forall i :: 0 <= i < |agents| ==> DueAfter(Plan(agents, version, canaryCount, batchSize)[i], timeout)
  {
    if agents != [] {
      PlannedDue(agents[..|agents| - 1], version, canaryCount, batchSize, timeout);
    }
  }

  lemma StepDue(s: seq<Rollout>, e: Event, timeout: nat)
    requires Inv(s) && AllDue(s, timeout) && TimesOutAfter(e, timeout)
    ensures AllDue(Step(s, e), timeout)
  {
    match e
    case CreateEvent(input, agents) => CreateDue(s, input, agents, timeout);
    case AdvanceEvent(r, env) =>
      if r < |s| {
        AdvanceRow(s[r], env);
        AdvancedDue(s[r], Step(s, e)[r], env, timeout);
      }
    case HeartbeatEvent(agentId, version, env) => HeartbeatDue(s, agentId, version, env, timeout);
    case CancelEvent(_) =>
  }

  lemma CreateDue(s: seq<Rollout>, input: CreateInput, agents: seq<AgentRow>, timeout: nat)
    requires AllDue(s, timeout)
    ensures AllDue(Step(s, CreateEvent(input, agents)), timeout)
  {
    var created := Create(s, input, agents);
    if created.Ok? {
      var n := Normalize(input).value;
      PlannedDue(ResolveTargets(agents, n.targetIds, n.targetTags), n.targetVersion, n.canaryCount, n.batchSize, timeout);
    }
  }

  lemma HeartbeatDue(s: seq<Rollout>, agentId: string, version: string, env: Env, timeout: nat)
    requires Inv(s) && AllDue(s, timeout) && env.itemTimeout == timeout
    ensures AllDue(Step(s, HeartbeatEvent(agentId, version, env)), timeout)
  {
    if agentId != "" && !Text.Blank(version) {
      HeartbeatRows(s, agentId, version, env);
      var t := Step(s, HeartbeatEvent(agentId, version, env));
      forall k | 0 <= k < |s| ensures forall i :: 0 <= i < |t[k].items| ==> DueAfter(t[k].items[i], timeout) {
        BeatenDue(s, t, k, agentId, version, env, timeout);
      }
    }
  }

  // In every run that gives items the same time, an item told to upgrade is due exactly that long
  // after it was told, and one that was not told has no deadline.
  lemma {:induction false} DeadlinesAre(run: seq<Event>, timeout: nat)
    requires forall e :: e in run ==> TimesOutAfter(e, timeout)
    ensures AllDue(Exec(run), timeout)
  {
    if run != [] {
      var n := |run| - 1;
      assert run[n] in run && forall e :: e in run[..n] ==> e in run;
      DeadlinesAre(run[..n], timeout);
      Reachable(run[..n]);
      StepDue(Exec(run[..n]), run[n], timeout);
    }
  }
}
