/** What the pusher does when nothing comes in between. */
module PolicySyncPusher {
  import opened PolicySyncModel
  import opened PolicySyncSafety
  import opened Wrappers

  // The push that would be prepared for policy `id` now.
  function CurrentOf(s: State, id: string): Current
    requires id in s.settings.policies && s.settings.policies[id].storageId in s.settings.storages
  {
    var row := s.settings.policies[id];
    Current(s.nextMessage, id, row.storageId, row.updatedAt, CurrentContent(s.settings, id), s.now)
  }

  // The steps one holder of the pusher's lock takes for policy `id` when nothing comes in between.
  function EnsureSteps(s: State, id: string): State { FinishEnsuring(CheckReady(s, id)) }

  function CheckReady(s: State, id: string): State {
    Step(Step(Step(s, EnsureRead(id)), EnsureLook), EnsureRetire)
  }

  function FinishEnsuring(s: State): State { Step(Step(s, EnsureCheck), EnsureCreate) }

  lemma CheckReadyIs(s: State, id: string)
    requires s.ensuring.NotEnsuring? && IsCurrent(s.settings.policies, id)
    requires s.settings.policies[id].storageId in s.settings.storages
    ensures CheckReady(s, id) == s.(nextMessage := s.nextMessage + 1,
                                    tracker := s.tracker[s.nextMessage := Tracked(id, s.settings.policies[id].updatedAt)],
                                    pushes := RetireSuperseded(s.pushes, CurrentOf(s, id)),
                                    ensuring := Retired(CurrentOf(s, id)))
  {
    var looked := Step(Step(s, EnsureRead(id)), EnsureLook);
    assert looked.ensuring == Looked(CurrentOf(s, id));
  }

  lemma FinishEnsuringIs(s: State, c: Current)
    requires s.ensuring == Retired(c)
    ensures HasActivePush(s.pushes, c) ==> FinishEnsuring(s) == s.(ensuring := NotEnsuring)
    ensures !HasActivePush(s.pushes, c) ==> FinishEnsuring(s) == CreatePush(s, c)
  {
  }

  // However the lock holder ends, a live push of the policy as it is now stands, and no active push
  // of it is about an earlier version.
  lemma EnsuredPushIsCurrent(s: State, id: string)
    requires s.ensuring.NotEnsuring? && IsCurrent(s.settings.policies, id)
    requires s.settings.policies[id].storageId in s.settings.storages
    ensures var after, row := EnsureSteps(s, id), s.settings.policies[id];
            && (exists m :: IsLive(after.pushes, m, s.now) && Of(after.pushes, m, id))
            && (forall m :: IsActive(after.pushes, m) && Of(after.pushes, m, id) ==>
                  after.pushes[m].storageId == row.storageId && after.pushes[m].updatedAt == row.updatedAt)
  {
    var c, ready := CurrentOf(s, id), CheckReady(s, id);
    CheckReadyIs(s, id);
    FinishEnsuringIs(ready, c);
    var after := EnsureSteps(s, id);
    if HasActivePush(ready.pushes, c) {
      var m :| m in ready.pushes && ready.pushes[m].status.Active() && ready.pushes[m].policyId == c.policyId
        && ready.pushes[m].storageId == c.storageId && ready.pushes[m].updatedAt == c.updatedAt && ready.pushes[m].deadlineAt > c.now;
      assert IsLive(after.pushes, m, s.now) && Of(after.pushes, m, id);
    } else {
      assert IsLive(after.pushes, c.messageId, s.now) && Of(after.pushes, c.messageId, id);
    }
  }
}
