/** What every run of the rollout service keeps. */
module RolloutSafety {
  import opened RolloutModel
  import opened RolloutPlan
  import opened Wrappers

  // ---- The invariant of one rollout ----------------------------------------------------------

  ghost predicate Shape(ro: Rollout) {
    && 1 <= ro.canaryCount <= MAX_CANARY_COUNT
    && 1 <= ro.batchSize <= MAX_BATCH_SIZE
    && (forall i :: 0 <= i < |ro.items| ==> ro.items[i].targetVersion == ro.targetVersion)
    && (forall i, j :: 0 <= i < j < |ro.items| ==> ro.items[i].agentId != ro.items[j].agentId)
    && (forall i :: 0 <= i < |ro.items| && ro.items[i].phase.Batch? ==> ro.items[i].batchIndex > 0)
    && (forall w: nat :: CountWave(ro.items, w) == WaveSize(Planned(ro.items), ro.canaryCount, ro.batchSize, w))
  }

  ghost predicate RowOk(it: Item) {
    match it.status
    case Pending => it.phase != NoPhase && !it.Told()
    case Running => it.phase != NoPhase && it.Told() && it.deadlineAt.Some?
    case Success => it.lastSeenVersion == it.targetVersion && (it.phase == NoPhase ==> !it.Told())
    case Failed => it.phase != NoPhase
    case Skipped => it.phase == NoPhase ==> !it.Told()
  }

  ghost predicate Rows(ro: Rollout) {
    forall i :: 0 <= i < |ro.items| ==> RowOk(ro.items[i])
  }

  // Agreement between the rollout's status and the statuses of its items.
  ghost predicate StatusAgrees(ro: Rollout) {
    match ro.status
    case RSucceeded => forall i :: 0 <= i < |ro.items| ==>
                         ro.items[i].status.Success? || (ro.items[i].status.Skipped? && ro.items[i].phase == NoPhase)
    case RFailed => AnyItem(ro.items, IsFailed) && !AnyItem(ro.items, IsPending)
    case RCancelled => forall i :: 0 <= i < |ro.items| ==> !ActiveItem(ro.items[i])
    case _ => forall i :: 0 <= i < |ro.items| ==>
                !ro.items[i].status.Failed? && (ro.items[i].status.Skipped? ==> ro.items[i].phase == NoPhase)
  }

  // `a` belongs to an earlier wave than `b`.
  predicate Before(a: Item, b: Item) { a.phase != NoPhase && a.Wave() < b.Wave() }

  // Nothing of a wave is told to upgrade before every earlier wave runs the target version.
  ghost predicate WavesInOrder(ro: Rollout) {
    forall i, j | 0 <= i < |ro.items| && 0 <= j < |ro.items| && ro.items[i].Told() && Before(ro.items[j], ro.items[i]) ::
      ro.items[j].status.Success? && ro.items[j].lastSeenVersion == ro.targetVersion
  }

  ghost predicate RolloutInv(ro: Rollout) {
    Shape(ro) && Rows(ro) && StatusAgrees(ro) && WavesInOrder(ro)
  }

  // ---- What one call may do to one rollout ---------------------------------------------------

  predicate SameShape(a: Item, b: Item) {
    b == a.(status := b.status, lastSeenVersion := b.lastSeenVersion, startedAt := b.startedAt, deadlineAt := b.deadlineAt)
  }

  // The changes a call may make to an item: terminal items are frozen.
  predicate ItemStep(a: Item, b: Item) {
    && SameShape(a, b)
    && (a.status.Terminal() ==> a == b)
    && (a.status.Running? ==> !b.status.Pending? && a.startedAt == b.startedAt)
    && (a.status.Pending? && b.status.Pending? ==> a == b)
  }

  predicate Evolves(a: Rollout, b: Rollout) {
    && b == a.(status := b.status, items := b.items)
    && |a.items| == |b.items|
    && (forall i :: 0 <= i < |a.items| ==> ItemStep(a.items[i], b.items[i]))
    && (!a.status.Active() ==> a.status == b.status)
    && (b.status.RPending? ==> a.status.RPending?)
  }

  lemma {:induction false} ShapeOfItems(a: seq<Item>, b: seq<Item>, w: nat)
    requires |a| == |b|
    requires forall i :: 0 <= i < |a| ==> SameShape(a[i], b[i])
    ensures CountWave(a, w) == CountWave(b, w) && Planned(a) == Planned(b)
  {
    if a != [] {
      ShapeOfItems(a[..|a| - 1], b[..|b| - 1], w);
    }
  }

  lemma ShapeKept(a: Rollout, b: Rollout)
    requires Shape(a) && Evolves(a, b)
    ensures Shape(b)
  {
    forall w: nat ensures CountWave(b.items, w) == WaveSize(Planned(b.items), b.canaryCount, b.batchSize, w) {
      ShapeOfItems(a.items, b.items, w);
    }
    forall i, j | 0 <= i < j < |b.items| ensures b.items[i].agentId != b.items[j].agentId {
      assert SameShape(a.items[i], b.items[i]) && SameShape(a.items[j], b.items[j]);
    }
  }

  lemma EvolvesTransitive(a: Rollout, b: Rollout, c: Rollout)
    requires Evolves(a, b) && Evolves(b, c)
    ensures Evolves(a, c)
  {
    forall i | 0 <= i < |a.items| ensures ItemStep(a.items[i], c.items[i]) {
      assert ItemStep(a.items[i], b.items[i]) && ItemStep(b.items[i], c.items[i]);
    }
  }

  // ---- Effects of the loops ------------------------------------------------------------------

  // Failing some running items fails the rollout and skips whatever is still pending.
  lemma {:induction false} FailAllEffect(ro: Rollout, sel: seq<nat>)
    requires forall k :: 0 <= k < |sel| ==> sel[k] < |ro.items| && ro.items[sel[k]].status.Running?
    requires forall j, k :: 0 <= j < k < |sel| ==> sel[j] < sel[k]
    ensures var r := FailAll(ro, sel);
            && r == ro.(status := r.status, items := r.items)
            && r.status == (if sel == [] then ro.status else SetStatus(ro.status, RFailed))
            && forall i :: 0 <= i < |ro.items| ==>
                 r.items[i] == if i in sel then ro.items[i].(status := Failed)
                               else if sel != [] && ro.items[i].status.Pending? then ro.items[i].(status := Skipped)
                               else ro.items[i]
    decreases |sel|
  {
    if sel != [] {
      var first := FailItem(ro, sel[0]);
      assert forall k :: 0 <= k < |sel| - 1 ==> sel[1..][k] == sel[k + 1];
      FailAllEffect(first, sel[1..]);
      assert forall i :: i in sel <==> i == sel[0] || i in sel[1..];
    }
  }

  // What starting one item makes of it.
  function Started(it: Item, env: Env): Item {
    match env.Outcome(it.agentId)
    case Offline => it.(status := Failed)
    case EncodeError => it.(status := Failed)
    case Accepted => MarkStarted(it, env)
    case ContextDone => MarkStarted(it, env)
    case _ => MarkStarted(it, env).(status := Failed)
  }

  predicate Fails(it: Item, env: Env) { Started(it, env).status.Failed? }

  predicate Stops(it: Item, env: Env) { env.Outcome(it.agentId).ContextDone? }

  // How many of the selected items the loop reaches: it returns early, after the item it was
  // waiting on, when its context is done.
  function Reached(items: seq<Item>, sel: seq<nat>, env: Env): (n: nat)
    requires forall k :: 0 <= k < |sel| ==> sel[k] < |items|
    ensures n <= |sel|
    ensures forall k :: 0 <= k < n - 1 ==> !Stops(items[sel[k]], env)
    ensures n < |sel| ==> n > 0 && Stops(items[sel[n - 1]], env)
  {
    if sel == [] then 0
    else if Stops(items[sel[0]], env) then 1
    else 1 + Reached(items, sel[1..], env)
  }

  predicate AnyFails(items: seq<Item>, sel: seq<nat>, env: Env)
    requires forall k :: 0 <= k < |sel| ==> sel[k] < |items|
  {
    exists k :: 0 <= k < |sel| && Fails(items[sel[k]], env)
  }

  function StartedItem(ro: Rollout, done: seq<nat>, env: Env, i: nat): Item
    requires i < |ro.items| && forall k :: 0 <= k < |done| ==> done[k] < |ro.items|
  {
    if i in done then Started(ro.items[i], env)
    else if AnyFails(ro.items, done, env) && ro.items[i].status.Pending? then ro.items[i].(status := Skipped)
    else ro.items[i]
  }

  // `ro` after the items at `done` were started. A failure does not end the loop: the rest of the
  // selection is still started, while everything that stays pending is skipped.
  function StartedRollout(ro: Rollout, done: seq<nat>, env: Env): (r: Rollout)
    requires forall k :: 0 <= k < |done| ==> done[k] < |ro.items|
    ensures |r.items| == |ro.items|
    ensures forall i :: 0 <= i < |ro.items| ==> r.items[i] == StartedItem(ro, done, env, i)
  {
    ro.(status := if AnyFails(ro.items, done, env) then SetStatus(ro.status, RFailed) else ro.status,
        items := seq(|ro.items|, i requires 0 <= i < |ro.items| => StartedItem(ro, done, env, i)))
  }

  lemma StartOne(ro: Rollout, i: nat, env: Env)
    requires i < |ro.items|
    ensures StartItem(ro, i, env) == (StartedRollout(ro, [i], env), Stops(ro.items[i], env))
  {
    assert [i][0] == i;
    var a, b := StartItem(ro, i, env).0, StartedRollout(ro, [i], env);
    assert a.items == b.items;
  }

  lemma AnyFailsCons(items: seq<Item>, i: nat, after: seq<nat>, env: Env)
    requires i < |items| && forall k :: 0 <= k < |after| ==> after[k] < |items|
    ensures AnyFails(items, [i] + after, env) <==> Fails(items[i], env) || AnyFails(items, after, env)
  {
    var done := [i] + after;
    assert forall k :: 0 <= k < |after| ==> done[k + 1] == after[k];
    assert done[0] == i;
  }

  lemma StartMore(ro: Rollout, i: nat, after: seq<nat>, env: Env)
    requires i < |ro.items| && i !in after && forall k :: 0 <= k < |after| ==> after[k] < |ro.items|
    ensures StartedRollout(StartedRollout(ro, [i], env), after, env) == StartedRollout(ro, [i] + after, env)
  {
    var first := StartedRollout(ro, [i], env);
    AnyFailsCons(ro.items, i, after, env);
    AnyFailsCons(ro.items, i, [], env);
    assert [i] + [] == [i];
    forall k | 0 <= k < |after| ensures Started(first.items[after[k]], env) == Started(ro.items[after[k]], env) {
      assert after[k] in after;
    }
    assert AnyFails(first.items, after, env) == AnyFails(ro.items, after, env);
    assert StartedRollout(first, after, env).items == StartedRollout(ro, [i] + after, env).items;
  }

  lemma {:induction false} ReachedSame(a: seq<Item>, b: seq<Item>, sel: seq<nat>, env: Env)
    requires |a| == |b| && forall k :: 0 <= k < |sel| ==> sel[k] < |a|
    requires forall i :: 0 <= i < |a| ==> a[i].agentId == b[i].agentId
    ensures Reached(a, sel, env) == Reached(b, sel, env)
  {
    if sel != [] {
      ReachedSame(a, b, sel[1..], env);
    }
  }

  lemma ReachedMore(items: seq<Item>, first: seq<Item>, sel: seq<nat>, env: Env)
    requires sel != [] && forall k :: 0 <= k < |sel| ==> sel[k] < |items|
    requires |first| == |items| && forall i :: 0 <= i < |items| ==> first[i].agentId == items[i].agentId
    ensures sel[..Reached(items, sel, env)]
         == if Stops(items[sel[0]], env) then [sel[0]] else [sel[0]] + sel[1..][..Reached(first, sel[1..], env)]
  {
    ReachedSame(items, first, sel[1..], env);
  }

  // The start loop in closed form.
  lemma {:induction false} StartAllEffect(ro: Rollout, sel: seq<nat>, env: Env)
    requires forall k :: 0 <= k < |sel| ==> sel[k] < |ro.items|
    requires forall j, k :: 0 <= j < k < |sel| ==> sel[j] < sel[k]
    ensures StartAll(ro, sel, env).0 == StartedRollout(ro, sel[..Reached(ro.items, sel, env)], env)
    decreases |sel|
  {
    if sel == [] {
      StartNone(ro, env);
    } else {
      var first := StartedRollout(ro, [sel[0]], env);
      StartOne(ro, sel[0], env);
      ReachedMore(ro.items, first.items, sel, env);
      if !Stops(ro.items[sel[0]], env) {
        var rest := sel[1..];
        StartAllEffect(first, rest, env);
        StartSplits(ro, sel[0], rest, rest[..Reached(first.items, rest, env)], env);
      }
    }
  }

  lemma StartSplits(ro: Rollout, i: nat, rest: seq<nat>, more: seq<nat>, env: Env)
    requires i < |ro.items| && more <= rest
    requires forall k :: 0 <= k < |rest| ==> i < rest[k] < |ro.items|
    ensures StartedRollout(StartedRollout(ro, [i], env), more, env) == StartedRollout(ro, [i] + more, env)
  {
    assert forall k :: 0 <= k < |more| ==> more[k] == rest[k];
    StartMore(ro, i, more, env);
  }

  lemma StartNone(ro: Rollout, env: Env)
    ensures StartedRollout(ro, [], env) == ro
  {
    assert StartedRollout(ro, [], env).items == ro.items;
  }
}
