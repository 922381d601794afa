/** The pusher, the tracker and the acknowledgement processor over their tables. */
module PolicySyncService {
  import opened PolicySyncModel
  import opened PolicySyncPusher
  import opened PolicySyncSafety
  import opened PolicySyncSteps
  import opened Wrappers

  class PolicyPushTracker {
    var pushes: map<nat, Tracked>

    constructor ()
      ensures pushes == map[]
    {
      pushes := map[];
    }

    method Track(messageId: nat, policyId: string, updatedAt: nat)
      modifies this
      ensures pushes == old(pushes)[messageId := Tracked(policyId, updatedAt)]
    {
      pushes := pushes[messageId := Tracked(policyId, updatedAt)];
    }

    method Get(messageId: nat) returns (r: Option<Tracked>)
      ensures r.Some? <==> messageId in pushes
      ensures r.Some? ==> r.value == pushes[messageId]
    {
      r := None;
      if messageId in pushes {
        r := Some(pushes[messageId]);
      }
    }

    method Delete(messageId: nat)
      modifies this
      ensures pushes == old(pushes) - {messageId}
    {
      pushes := pushes - {messageId};
    }
  }

  // An acknowledgement handled from beginning to end, in one step.
  lemma AckIs(s: State, m: nat, success: bool)
    requires Ack(m, success) in s.acks && m !in s.acked
    ensures HandledSteps(s, m, success) ==
            if TrackedPush(s, m).None? then CompletePush(s, m, success)
            else if success then Mark(CompletePush(s, m, success), m, TrackedPush(s, m).value)
            else CompletePush(s, m, success).(tracker := s.tracker - {m})
  {
    var f := Finding(m, success, TrackedPush(s, m));
    var found := FindPush(s, m, success);
    AckEventIs(s, AckArrives(m, success));
    AckEventIs(found, AckCompletes(f));
    CompletionIs(s, m, success);
    AckEventIs(CompleteAck(found, f), AckMarks(m));
    if TrackedPush(s, m).Some? && success {
      MarkIs(CompletePush(s, m, true), m, TrackedPush(s, m).value);
    }
  }

  // The three steps of one acknowledgement when nothing comes in between.
  function HandledSteps(s: State, m: nat, success: bool): State {
    Step(Step(Step(s, AckArrives(m, success)), AckCompletes(Finding(m, success, TrackedPush(s, m)))), AckMarks(m))
  }

  lemma CompletionIs(s: State, m: nat, success: bool)
    ensures CompleteAck(FindPush(s, m, success), Finding(m, success, TrackedPush(s, m))) ==
            if TrackedPush(s, m).None? then CompletePush(s, m, success)
            else if success then CompletePush(s, m, success).(acked := s.acked[m := TrackedPush(s, m).value])
            else CompletePush(s, m, success).(tracker := s.tracker - {m})
  {
    var f := Finding(m, success, TrackedPush(s, m));
    assert FindPush(s, m, success).(findings := FindPush(s, m, success).findings - multiset{f}) == s;
  }

  lemma MarkIs(s: State, m: nat, t: Tracked)
    requires m !in s.acked
    ensures MarkSynced(s.(acked := s.acked[m := t]), m) == Mark(s, m, t)
  {
    assert s.acked[m := t] - {m} == s.acked;
  }

  lemma ReconcileAtOnce(s: State)
    ensures Step(Step(s, ReadReconcile), SendReconcile(s.settings.policies.Keys))
         == Reconcile(s.(lists := s.lists + multiset{s.settings.policies.Keys}), s.settings.policies.Keys)
  {
  }

  function Mark(s: State, m: nat, t: Tracked): State {
    var done := s.(tracker := s.tracker - {m});
    if t.policyId in s.settings.policies && !s.settings.policies[t.policyId].synced
       && s.settings.policies[t.policyId].updatedAt == t.updatedAt
    then Write(done, SyncPolicy(s.settings, s.now + 1, t.policyId))
    else done
  }

  class PolicyControl {
    var now: nat
    var settings: Settings
    var pushes: Pushes
    var nextMessage: nat
    const tracker: PolicyPushTracker
    // The dispatcher, the link, the agent and the acknowledgements at work.
    ghost var elsewhere: State

    ghost function View(): State
      reads this, tracker
    {
      elsewhere.(now := now, settings := settings, pushes := pushes, nextMessage := nextMessage, tracker := tracker.pushes)
    }

    constructor (settings: Settings)
      ensures View() == INITIAL.(settings := settings)
      ensures fresh(tracker)
    {
      now, nextMessage := 0, 0;
      this.settings := settings;
      pushes := map[];
      elsewhere := INITIAL;
      tracker := new PolicyPushTracker();
    }

    method RetireActivePolicyPushCommands()
      modifies this`pushes
      ensures View() == Step(old(View()), RetireAll)
      ensures forall m :: !IsActive(pushes, m)
    {
      pushes := RetireActive(pushes);
    }

    // The unsynced policy that changed last, its storage, and the message for it.
    method LookupCommand() returns (r: Option<Current>)
      modifies this`nextMessage, tracker
      ensures r.None? ==> View() == old(View())
      ensures r.None? ==> (forall id :: id in settings.policies ==> settings.policies[id].synced)
                          || (exists q :: IsCurrent(settings.policies, q) && settings.policies[q].storageId !in settings.storages)
      ensures r.Some? ==> var c := r.value;
                          && IsCurrent(settings.policies, c.policyId)
                          && settings.policies[c.policyId].storageId in settings.storages
                          && c == CurrentOf(old(View()), c.policyId)
                          && View() == old(View()).(nextMessage := c.messageId + 1,
                                                    tracker := old(tracker.pushes)[c.messageId := Tracked(c.policyId, c.updatedAt)])
    {
      if id :| id in settings.policies && IsCurrent(settings.policies, id) {
        var policy := settings.policies[id];
        if policy.storageId !in settings.storages {
          return None;
        }
        var m := nextMessage;
        nextMessage := nextMessage + 1;
        tracker.Track(m, id, policy.updatedAt);
        return Some(Current(m, id, policy.storageId, policy.updatedAt,
                            Content(policy.content, settings.storages[policy.storageId]), now));
      }
      UnsyncedMeansSomeCurrent(settings.policies);
      return None;
    }

    // Reads the policies there are and sends the list, when nothing comes in between.
    method SendPolicyReconcile() returns (ids: set<string>)
      modifies this`elsewhere
      ensures ids == settings.policies.Keys
      ensures View() == Step(Step(old(View()), ReadReconcile), SendReconcile(ids))
    {
      ReconcileAtOnce(View());
      ids := settings.policies.Keys;
      elsewhere := Reconcile(elsewhere.(lists := elsewhere.lists + multiset{ids}), ids);
    }

    // True when a push of the current policy, `id`, is under way afterwards.
    method EnsureDurableCommand() returns (ok: bool, ghost id: string)
      requires elsewhere.ensuring.NotEnsuring?
      modifies this`pushes, this`nextMessage, tracker
      ensures !ok ==> View() == Step(old(View()), RetireAll)
      ensures ok ==> IsCurrent(settings.policies, id) && settings.policies[id].storageId in settings.storages
      ensures ok ==> View() == EnsureSteps(old(View()), id)
    {
      id := "";
      var current := LookupCommand();
      if current.None? {
        RetireActivePolicyPushCommands();
        return false, "";
      }
      id := current.value.policyId;
      CheckReadyIs(old(View()), id);
      pushes := RetireSuperseded(pushes, current.value);
      FinishEnsuringIs(CheckReady(old(View()), id), current.value);
      CreateUnlessActive(current.value);
      return true, id;
    }

    method CreateUnlessActive(c: Current)
      requires c.now == now
      modifies this`pushes
      ensures pushes == if HasActivePush(old(pushes), c) then old(pushes)
                        else CreatePush(old(View()), c).pushes
    {
      if exists m :: m in pushes && pushes[m].status.Active() && pushes[m].policyId == c.policyId
           && pushes[m].storageId == c.storageId && pushes[m].updatedAt == c.updatedAt && pushes[m].deadlineAt > c.now
      {
        return;
      }
      pushes := pushes[c.messageId := Push(c.policyId, c.storageId, c.updatedAt, c.payload, Pending, now + PUSH_TTL)];
    }

    // One acknowledgement, handled from beginning to end.
    method ProcessAck(m: nat, success: bool)
      requires Ack(m, success) in elsewhere.acks && m !in elsewhere.acked
      modifies this`pushes, this`settings, this`now, tracker
      ensures View() == HandledSteps(old(View()), m, success)
    {
      AckIs(View(), m, success);
      var tracked := tracker.Get(m);
      if tracked.None? && m in pushes && pushes[m].status.Active() {
        tracked := Some(Tracked(pushes[m].policyId, pushes[m].updatedAt));
      }
      CompletePolicyAck(m, success);
      if tracked.None? {
        return;
      }
      if success {
        MarkPolicySynced(tracked.value);
      }
      tracker.Delete(m);
    }

    method CompletePolicyAck(m: nat, success: bool)
      modifies this`pushes
      ensures View() == CompletePush(old(View()), m, success)
    {
      if m in pushes && pushes[m].status.Active() {
        var status := Succeeded;
        if !success {
          status := Failed;
        }
        pushes := pushes[m := pushes[m].(status := status)];
      }
    }

    method MarkPolicySynced(t: Tracked)
      modifies this`settings, this`now
      ensures forall m :: View().(tracker := View().tracker - {m}) == Mark(old(View()), m, t)
    {
      if t.policyId in settings.policies && !settings.policies[t.policyId].synced
         && settings.policies[t.policyId].updatedAt == t.updatedAt
      {
        now := now + 1;
        settings := settings.(policies := settings.policies[t.policyId :=
          settings.policies[t.policyId].(synced := true, updatedAt := now)]);
      }
    }
  }

  // Among finitely many rows, some row changed last.
  lemma {:induction false} SomeRowChangedLast(policies: map<string, Policy>, among: set<string>) returns (last: string)
    requires among <= policies.Keys && among != {}
    ensures last in among
    ensures forall q :: q in among ==> policies[q].updatedAt <= policies[last].updatedAt
    decreases |among|
  {
    var id :| id in among;
    last := id;
    if among != {id} {
      var other := SomeRowChangedLast(policies, among - {id});
      if policies[id].updatedAt < policies[other].updatedAt {
        last := other;
      }
    }
  }

  lemma UnsyncedMeansSomeCurrent(policies: map<string, Policy>)
    ensures (exists id :: IsCurrent(policies, id)) || (forall id :: id in policies ==> policies[id].synced)
  {
    var unsynced := set q | q in policies && !policies[q].synced;
    assert forall q :: q in policies && !policies[q].synced ==> q in unsynced;
    if unsynced != {} {
      var last := SomeRowChangedLast(policies, unsynced);
      assert IsCurrent(policies, last);
    }
  }
}
