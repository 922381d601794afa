/** What each step of policy synchronisation changes, told in its rows and fields alone. */
module PolicySyncAnswers {
  import opened PolicySyncModel
  import opened PolicySyncSafety
  import opened PolicySyncSoundness
  import opened PolicySyncSteps
  import opened PolicySyncTheorems
  import opened Wrappers

  predicate Unfinished(pushes: Pushes, m: nat) { m in pushes && (pushes[m].status == Pending || pushes[m].status == Dispatched) }

  // ---- Settings ------------------------------------------------------------------------------

  // A policy is written: with these settings, not synced, at a new reading of the clock.
  predicate Written(s: State, r: State, id: string, storageId: string, content: int) {
    && r == s.(now := s.now + 1, settings := r.settings) && r.settings.storages == s.settings.storages
    && r.settings.policies == s.settings.policies[id := Policy(storageId, content, false, s.now + 1)]
    && r.settings.contentAt == s.settings.contentAt[id := s.now + 1]
    && r.settings.usedIds == s.settings.usedIds + {id}
  }

  // Policies are created under new ids, edited where they are, and only with a storage that exists.
  lemma PolicyAnswer(s: State, id: string, storageId: string, content: int)
    ensures var r := Step(s, CreatePolicy(id, storageId, content));
            && (id in s.settings.usedIds || storageId !in s.settings.storages ==> r == s)
            && (id !in s.settings.usedIds && storageId in s.settings.storages ==> Written(s, r, id, storageId, content))
    ensures var r := Step(s, EditPolicy(id, storageId, content));
            && (id !in s.settings.policies || storageId !in s.settings.storages ==> r == s)
            && (id in s.settings.policies && storageId in s.settings.storages ==> Written(s, r, id, storageId, content))
    ensures var r := Step(s, DeletePolicy(id));
            && r == s.(settings := s.settings.(policies := r.settings.policies, contentAt := r.settings.contentAt))
            && r.settings.policies == s.settings.policies - {id} && r.settings.contentAt == s.settings.contentAt - {id}
  {
    PolicyEventIs(s, id, storageId, content);
    SettingsEventIs(s, DeletePolicy(id));
  }

  // Storage settings are saved together with their mark on every policy that uses them.
  lemma StorageAnswer(s: State, id: string, content: int)
    ensures var r := Step(s, SaveStorage(id, content));
            && r == s.(now := s.now + 1, settings := r.settings)
            && r.settings.storages == s.settings.storages[id := content] && r.settings.usedIds == s.settings.usedIds
            && r.settings.policies.Keys == s.settings.policies.Keys
            && forall p :: p in s.settings.policies ==>
                 r.settings.policies[p] == if s.settings.policies[p].storageId == id
                                           then s.settings.policies[p].(synced := false, updatedAt := s.now + 1) else s.settings.policies[p]
  {
    SettingsEventIs(s, SaveStorage(id, content));
  }

  lemma UnsyncAnswer(s: State)
    ensures var r := Step(s, MarkUnsynced);
            && r == s.(settings := s.settings.(policies := r.settings.policies))
            && r.settings.policies.Keys == s.settings.policies.Keys
            && forall p :: p in s.settings.policies ==> r.settings.policies[p] == s.settings.policies[p].(synced := false)
  {
    SettingsEventIs(s, MarkUnsynced);
  }

  // ---- The link ------------------------------------------------------------------------------

  lemma LinkAnswer(s: State, ids: set<string>)
    ensures Step(s, Connect) == s.(online := true)
    ensures Step(s, Disconnect) == s.(online := false, link := [])
    ensures Step(s, ReadReconcile) == s.(lists := s.lists + multiset{s.settings.policies.Keys})
    ensures ids !in s.lists ==> Step(s, SendReconcile(ids)) == s
    ensures ids in s.lists ==>
              Step(s, SendReconcile(ids)) == s.(lists := s.lists - multiset{ids},
                                                link := if s.online then s.link + [ReconcileMessage(ids)] else s.link)
    ensures var r := Step(s, Restart);
            && r == s.(tracker := map[], findings := multiset{}, acked := map[], ensuring := NotEnsuring, dispatching := Idle,
                       lists := multiset{}, online := false, link := [])
  {
    LinkEventIs(s, SendReconcile(ids));
  }

  // The agent stores a push it accepts, answers every push, and keeps of its policies those on a list.
  lemma AgentAnswer(s: State, accepted: bool)
    ensures var r := Step(s, AgentReceives(accepted));
            && (s.link == [] ==> r == s)
            && (s.link != [] ==>
                  match s.link[0]
                  case PushMessage(m, p, payload) =>
                    r == s.(link := s.link[1..], acks := s.acks + {Ack(m, accepted)},
                            agent := if accepted then s.agent[p := AgentCopy(payload, m)] else s.agent)
                  case ReconcileMessage(ids) =>
                    && r == s.(link := s.link[1..], agent := r.agent) && r.agent.Keys == s.agent.Keys * ids
                    && forall p :: p in r.agent ==> r.agent[p] == s.agent[p])
  {
    ReceiveEventIs(s, AgentReceives(accepted));
  }

  // ---- Pushes --------------------------------------------------------------------------------

  // A push is about a policy's present version.
  predicate About(p: Push, c: Current) { p.policyId == c.policyId && p.storageId == c.storageId && p.updatedAt == c.updatedAt }

  predicate IsLatest(policies: map<string, Policy>, id: string) {
    && id in policies && !policies[id].synced
    && forall q :: q in policies && !policies[q].synced ==> policies[q].updatedAt <= policies[id].updatedAt
  }

  // The pusher reads the policy that is not synced and changed last, then its storage, and tracks the
  // message it makes of them.
  lemma LookAnswer(s: State, id: string)
    ensures Step(s, EnsureRead(id)) == if s.ensuring == NotEnsuring && IsLatest(s.settings.policies, id)
                                       then s.(ensuring := PolicyRead(id, s.settings.policies[id])) else s
    ensures s.ensuring.PolicyRead? ==>
              var policy, m := s.ensuring.policy, s.nextMessage;
              Step(s, EnsureLook) ==
              if policy.storageId !in s.settings.storages then s.(ensuring := NotEnsuring)
              else s.(nextMessage := m + 1, tracker := s.tracker[m := Tracked(s.ensuring.policyId, policy.updatedAt)],
                      ensuring := Looked(Current(m, s.ensuring.policyId, policy.storageId, policy.updatedAt,
                                                 Content(policy.content, s.settings.storages[policy.storageId]), s.now)))
  {
    EnsureEventIs(s, EnsureRead(id));
    EnsureEventIs(s, EnsureLook);
  }

  // It ends the unfinished pushes of the policy that are not about its version.
  lemma RetireAnswer(s: State, c: Current)
    requires s.ensuring == Looked(c)
    ensures var r := Step(s, EnsureRetire);
              && r == s.(pushes := r.pushes, ensuring := Retired(c)) && r.pushes.Keys == s.pushes.Keys
              && forall m :: m in s.pushes ==>
                   r.pushes[m] == if Unfinished(s.pushes, m) && s.pushes[m].policyId == c.policyId && !About(s.pushes[m], c)
                                  then s.pushes[m].(status := Failed) else s.pushes[m]
  {
    EnsureEventIs(s, EnsureRetire);
  }

  // And creates one that is, with five minutes to be acknowledged, unless there is one with time left.
  lemma PushAnswer(s: State, c: Current)
    ensures s.ensuring == Retired(c) ==>
              Step(s, EnsureCheck) ==
              if exists m :: m in s.pushes && Unfinished(s.pushes, m) && About(s.pushes[m], c) && s.pushes[m].deadlineAt > c.now
              then s.(ensuring := NotEnsuring) else s.(ensuring := NothingActive(c))
    ensures s.ensuring == NothingActive(c) ==>
              Step(s, EnsureCreate) ==
              s.(pushes := s.pushes[c.messageId := Push(c.policyId, c.storageId, c.updatedAt, c.payload, Pending, s.now + 300)],
                 ensuring := NotEnsuring)
  {
    EnsureEventIs(s, EnsureCheck);
    EnsureEventIs(s, EnsureCreate);
    if s.ensuring == Retired(c) {
      ActiveIs(s.pushes, c);
    }
  }

  lemma ActiveIs(pushes: Pushes, c: Current)
    ensures HasActivePush(pushes, c)
       <==> exists m :: m in pushes && Unfinished(pushes, m) && About(pushes[m], c) && pushes[m].deadlineAt > c.now
  {
    if HasActivePush(pushes, c) {
      var m :| m in pushes && pushes[m].status.Active() && pushes[m].policyId == c.policyId
        && pushes[m].storageId == c.storageId && pushes[m].updatedAt == c.updatedAt && pushes[m].deadlineAt > c.now;
      assert Unfinished(pushes, m) && About(pushes[m], c);
    }
  }

  // One push gets another status.
  predicate OnlyStatus(s: State, r: State, m: nat, status: PushStatus)
    requires m in s.pushes
  {
    r == s.(pushes := s.pushes[m := s.pushes[m].(status := status)])
  }

  // The dispatcher records an unfinished push, then sends its settings while the agent is connected, and
  // takes the record back otherwise, unless the push has ended meanwhile.
  lemma RecordAnswer(s: State, m: nat, todo: seq<nat>)
    ensures s.dispatching == Idle || s.dispatching == Listed([m] + todo) ==> Step(s, ListPushes(todo)) == s.(dispatching := Listed(todo))
    ensures s.dispatching == Listed([m] + todo) ==>
              var r := Step(s, RecordNext);
              if Unfinished(s.pushes, m) then r.dispatching == Sending(m, todo) && OnlyStatus(s, r.(dispatching := s.dispatching), m, Dispatched)
              else r == s.(dispatching := Listed(todo))
  {
    assert ([m] + todo)[0] == m && ([m] + todo)[1..] == todo;
    DispatchEventIs(s, ListPushes(todo));
    DispatchEventIs(s, RecordNext);
  }

  lemma SendAnswer(s: State, m: nat, todo: seq<nat>, delivered: bool)
    ensures s.dispatching == Sending(m, todo) && m in s.pushes ==>
              Step(s, SendNext(delivered)) ==
              if delivered && s.online
              then s.(link := s.link + [PushMessage(m, s.pushes[m].policyId, s.pushes[m].payload)], sent := s.sent + [m], dispatching := Listed(todo))
              else s.(dispatching := RollingBack(m, todo))
    ensures s.dispatching == RollingBack(m, todo) ==>
              var r := Step(s, RollbackNext);
              if Unfinished(s.pushes, m) then r.dispatching == Listed(todo) && OnlyStatus(s, r.(dispatching := s.dispatching), m, Pending)
              else r == s.(dispatching := Listed(todo))
  {
    DispatchEventIs(s, SendNext(delivered));
    DispatchEventIs(s, RollbackNext);
  }

  // Pushes end otherwise: all unfinished ones fail, or one is cancelled or times out.
  lemma EndAnswer(s: State, m: nat, cancelled: bool)
    ensures var r := Step(s, RetireAll);
            && r == s.(pushes := r.pushes) && r.pushes.Keys == s.pushes.Keys
            && forall n :: n in s.pushes ==> r.pushes[n] == if Unfinished(s.pushes, n) then s.pushes[n].(status := Failed) else s.pushes[n]
    ensures var r := Step(s, EndPush(m, cancelled));
            if Unfinished(s.pushes, m) then OnlyStatus(s, r, m, if cancelled then Cancelled else Timeout) else r == s
  {
    EndEventIs(s, RetireAll);
    EndEventIs(s, EndPush(m, cancelled));
  }

  // ---- Acknowledgements ----------------------------------------------------------------------

  // What an acknowledgement of message `m` is found to be about.
  function FoundOf(s: State, m: nat): Option<Tracked> {
    if m in s.tracker then Some(s.tracker[m])
    else if Unfinished(s.pushes, m) then Some(Tracked(s.pushes[m].policyId, s.pushes[m].updatedAt))
    else None
  }

  // An acknowledgement of the agent's is looked up; its push ends, well if and only if it was accepted;
  // and the policy is marked synced if it is still the one that was pushed.
  lemma AckAnswer(s: State, m: nat, success: bool)
    ensures Step(s, AckArrives(m, success)) == if Ack(m, success) in s.acks
                                               then s.(findings := s.findings + multiset{Finding(m, success, FoundOf(s, m))}) else s
  {
    AckEventIs(s, AckArrives(m, success));
  }

  lemma CompleteAnswer(s: State, m: nat, success: bool, found: Option<Tracked>)
    ensures var f, r := Finding(m, success, found), Step(s, AckCompletes(Finding(m, success, found)));
            && (f !in s.findings ==> r == s)
            && (f in s.findings ==>
                  && r == s.(findings := s.findings - multiset{f}, pushes := r.pushes, acked := r.acked, tracker := r.tracker)
                  && r.pushes == (if Unfinished(s.pushes, m) then s.pushes[m := s.pushes[m].(status := if success then Succeeded else Failed)]
                                  else s.pushes)
                  && r.acked == (if success && found != None then s.acked[m := found.value] else s.acked)
                  && r.tracker == (if !success && found != None then s.tracker - {m} else s.tracker))
  {
    var f := Finding(m, success, found);
    AckEventIs(s, AckCompletes(f));
    CompletePushIs(s.(findings := s.findings - multiset{f}), m, success);
  }

  lemma CompletePushIs(s: State, m: nat, success: bool)
    ensures CompletePush(s, m, success) ==
            if Unfinished(s.pushes, m) then s.(pushes := s.pushes[m := s.pushes[m].(status := if success then Succeeded else Failed)]) else s
  {
  }

  lemma MarkAnswer(s: State, m: nat)
    ensures m !in s.acked ==> Step(s, AckMarks(m)) == s
    ensures m in s.acked ==>
              var t, done := s.acked[m], s.(acked := s.acked - {m}, tracker := s.tracker - {m});
              if t.policyId in s.settings.policies && !s.settings.policies[t.policyId].synced
                 && s.settings.policies[t.policyId].updatedAt == t.updatedAt
              then Step(s, AckMarks(m)) ==
                   done.(now := s.now + 1,
                         settings := s.settings.(policies := s.settings.policies[t.policyId := s.settings.policies[t.policyId].(synced := true, updatedAt := s.now + 1)]))
              else Step(s, AckMarks(m)) == done
  {
    AckEventIs(s, AckMarks(m));
  }

  // ---- How pushes end ------------------------------------------------------------------------

  // A push keeps what it is about; once it has ended it keeps its status too, and it does not succeed.
  predicate GoesOn(a: Pushes, b: Pushes, m: nat) {
    && (m in a ==> m in b && b[m] == a[m].(status := b[m].status) && (!Unfinished(a, m) ==> b[m] == a[m]))
    && (m in b && b[m].status == Succeeded ==> m in a && a[m].status == Succeeded)
  }

  lemma EnsureGoesOn(s: State, e: Event, m: nat)
    requires Inv(s) && IsEnsureEvent(e)
    ensures GoesOn(s.pushes, Step(s, e).pushes, m)
  {
    EnsureEventIs(s, e);
    if e.EnsureRetire? && s.ensuring.Looked? {
      RetireGoesOn(s.pushes, s.ensuring.current, m);
    } else if e.EnsureCreate? && s.ensuring.NothingActive? {
      CreateGoesOn(s, s.ensuring.current, m);
    }
  }

  lemma RetireGoesOn(pushes: Pushes, c: Current, m: nat)
    ensures GoesOn(pushes, RetireSuperseded(pushes, c), m)
  {
  }

  lemma CreateGoesOn(s: State, c: Current, m: nat)
    requires c.messageId !in s.pushes
    ensures GoesOn(s.pushes, CreatePush(s, c).pushes, m)
  {
  }

  lemma RecordGoesOn(s: State, todo: seq<nat>, m: nat)
    requires todo != []
    ensures GoesOn(s.pushes, Record(s, todo).pushes, m)
  {
    if IsActive(s.pushes, todo[0]) {
      StatusGoesOn(s.pushes, todo[0], Dispatched, m);
    }
  }

  lemma RollbackGoesOn(s: State, id: nat, todo: seq<nat>, m: nat)
    ensures GoesOn(s.pushes, Rollback(s, id, todo).pushes, m)
  {
    if IsActive(s.pushes, id) {
      StatusGoesOn(s.pushes, id, Pending, m);
    }
  }

  lemma StatusGoesOn(pushes: Pushes, id: nat, status: PushStatus, m: nat)
    requires IsActive(pushes, id) && status != Succeeded
    ensures GoesOn(pushes, pushes[id := pushes[id].(status := status)], m)
  {
  }

  lemma DispatchGoesOn(s: State, e: Event, m: nat)
    requires IsDispatchEvent(e)
    ensures GoesOn(s.pushes, Step(s, e).pushes, m)
  {
    DispatchEventIs(s, e);
    if e.RecordNext? && s.dispatching.Listed? && s.dispatching.todo != [] {
      RecordGoesOn(s, s.dispatching.todo, m);
    } else if e.RollbackNext? && s.dispatching.RollingBack? {
      RollbackGoesOn(s, s.dispatching.id, s.dispatching.todo, m);
    } else if e.SendNext? && s.dispatching.Sending? {
      SendRowsStay(s, s.dispatching.id, s.dispatching.todo, e.delivered);
    }
  }

  // Every step but one that completes an acknowledgement.
  lemma OthersGoOn(s: State, e: Event, m: nat)
    requires Inv(s) && !e.AckCompletes?
    ensures GoesOn(s.pushes, Step(s, e).pushes, m)
  {
    if IsSettingsEvent(e) {
      SettingsEventsSendNothing(s, e);
    } else if IsEnsureEvent(e) {
      EnsureGoesOn(s, e, m);
    } else if IsDispatchEvent(e) {
      DispatchGoesOn(s, e, m);
    } else if e.RetireAll? || e.EndPush? {
      EndEventIs(s, e);
    } else if IsLinkEvent(e) {
      LinkEventIs(s, e);
    } else {
      WireGoesOn(s, e, m);
    }
  }

  lemma WireGoesOn(s: State, e: Event, m: nat)
    requires e.AgentReceives? || e.AckArrives? || e.AckMarks?
    ensures GoesOn(s.pushes, Step(s, e).pushes, m)
  {
    if e.AgentReceives? {
      AgentAnswer(s, e.accepted);
    } else if e.AckArrives? {
      AckAnswer(s, e.messageId, e.success);
    } else {
      MarkAnswer(s, e.messageId);
    }
  }

  // A push that has ended keeps its row.
  lemma EndedStays(s: State, e: Event, m: nat)
    requires Inv(s) && m in s.pushes && !Unfinished(s.pushes, m)
    ensures m in Step(s, e).pushes && Step(s, e).pushes[m] == s.pushes[m]
  {
    if e.AckCompletes? {
      CompleteAnswer(s, e.finding.messageId, e.finding.success, e.finding.tracked);
    } else {
      OthersGoOn(s, e, m);
    }
  }

  lemma {:induction false} EndedForGood(s: State, later: seq<Event>, m: nat)
    requires Inv(s) && m in s.pushes && !Unfinished(s.pushes, m)
    ensures Inv(Steps(s, later)) && m in Steps(s, later).pushes && Steps(s, later).pushes[m] == s.pushes[m]
  {
    if later != [] {
      EndedForGood(s, later[..|later| - 1], m);
      StepKept(Steps(s, later[..|later| - 1]), later[|later| - 1]);
      EndedStays(Steps(s, later[..|later| - 1]), later[|later| - 1], m);
    }
  }

  // At position `k` of the run an acknowledgement ends push `m`.
  predicate EndsAt(run: seq<Event>, k: nat, m: nat, success: bool) {
    && k < |run| && run[k].AckCompletes? && run[k].finding.messageId == m && run[k].finding.success == success
    && run[k].finding in Steps(INITIAL, run[..k]).findings && Unfinished(Steps(INITIAL, run[..k]).pushes, m)
  }

  // Nothing else makes a push succeed.
  lemma OnlyAcksSucceed(s: State, e: Event, m: nat)
    requires Inv(s) && m in Step(s, e).pushes && Step(s, e).pushes[m].status == Succeeded
    ensures (m in s.pushes && s.pushes[m].status == Succeeded)
            || (e.AckCompletes? && e.finding.messageId == m && e.finding.success && e.finding in s.findings && Unfinished(s.pushes, m))
  {
    if e.AckCompletes? {
      CompleteAnswer(s, e.finding.messageId, e.finding.success, e.finding.tracked);
    } else {
      OthersGoOn(s, e, m);
    }
  }

  lemma {:induction false} SucceededWasEnded(run: seq<Event>, m: nat) returns (k: nat)
    requires m in Steps(INITIAL, run).pushes && Steps(INITIAL, run).pushes[m].status == Succeeded
    ensures EndsAt(run, k, m, true)
  {
    var n := |run| - 1;
    var s, e := Steps(INITIAL, run[..n]), run[n];
    Reachable(run[..n]);
    OnlyAcksSucceed(s, e, m);
    if m in s.pushes && s.pushes[m].status == Succeeded {
      k := SucceededWasEnded(run[..n], m);
      assert run[..n][..k] == run[..k];
    } else {
      k := n;
    }
  }

  lemma EndedAtStays(run: seq<Event>, k: nat, m: nat, success: bool)
    requires EndsAt(run, k, m, success)
    ensures m in Steps(INITIAL, run).pushes
    ensures Steps(INITIAL, run).pushes[m].status == if success then Succeeded else Failed
  {
    var s, e, later := Steps(INITIAL, run[..k]), run[k], run[k + 1..];
    Reachable(run[..k]);
    StepKept(s, e);
    CompleteAnswer(s, m, success, e.finding.tracked);
    EndedForGood(Step(s, e), later, m);
    SplitAt(run, k);
  }

  lemma SplitAt(run: seq<Event>, k: nat)
    requires k < |run|
    ensures Steps(INITIAL, run) == Steps(Step(Steps(INITIAL, run[..k]), run[k]), run[k + 1..])
  {
    CutAt(run, k);
    StepsJoin(INITIAL, run[..k] + [run[k]], run[k + 1..]);
    StepsJoin(INITIAL, run[..k], [run[k]]);
    OneStep(Steps(INITIAL, run[..k]), run[k]);
  }

  lemma CutAt(run: seq<Event>, k: nat)
    requires k < |run|
    ensures run == run[..k] + [run[k]] + run[k + 1..]
  {
  }

  // In every run a push has succeeded if and only if an acknowledgement that the agent gave, and that says
  // so, ended it; one that a refusal ended has failed, and stays so.
  lemma SucceededIffAcknowledged(run: seq<Event>, m: nat)
    requires m in Steps(INITIAL, run).pushes
    ensures Steps(INITIAL, run).pushes[m].status == Succeeded <==> exists k: nat :: EndsAt(run, k, m, true)
    ensures Steps(INITIAL, run).pushes[m].status == Succeeded ==> Ack(m, true) in Steps(INITIAL, run).acks
    ensures (exists k: nat :: EndsAt(run, k, m, false)) ==> Steps(INITIAL, run).pushes[m].status == Failed
  {
    if Steps(INITIAL, run).pushes[m].status == Succeeded {
      var k := SucceededWasEnded(run, m);
      FindingsAreGiven(run[..k]);
      AcksStay(run, k);
    }
    if k: nat :| EndsAt(run, k, m, true) {
      EndedAtStays(run, k, m, true);
    }
    if k: nat :| EndsAt(run, k, m, false) {
      EndedAtStays(run, k, m, false);
    }
  }

  lemma FindingsAreGiven(run: seq<Event>)
    ensures forall f :: f in Steps(INITIAL, run).findings ==> Ack(f.messageId, f.success) in Steps(INITIAL, run).acks
  {
    Reachable(run);
  }

  lemma {:induction false} AcksStay(run: seq<Event>, k: nat)
    requires k <= |run|
    ensures Steps(INITIAL, run[..k]).acks <= Steps(INITIAL, run).acks
    decreases |run|
  {
    if k < |run| {
      var n := |run| - 1;
      AcksStay(run[..n], k);
      assert run[..n][..k] == run[..k];
      AckStays(Steps(INITIAL, run[..n]), run[n]);
    } else {
      assert run[..k] == run;
    }
  }

  lemma AckStays(s: State, e: Event)
    ensures s.acks <= Step(s, e).acks
  {
    if e.AgentReceives? {
      AgentAnswer(s, e.accepted);
    } else if IsAckEvent(e) {
      AckEventIs(s, e);
      if e.AckCompletes? {
        CompleteAckIs(s, e.finding);
      } else if e.AckMarks? {
        MarkAnswer(s, e.messageId);
      }
    } else if IsSettingsEvent(e) {
      SettingsEventKeepsAcks(s, e);
    } else if IsEnsureEvent(e) {
      EnsureEventIs(s, e);
    } else if IsDispatchEvent(e) {
      DispatchEventIs(s, e);
    } else if IsLinkEvent(e) {
      LinkEventIs(s, e);
    } else {
      EndEventIs(s, e);
    }
  }

  lemma SettingsEventKeepsAcks(s: State, e: Event)
    requires IsSettingsEvent(e)
    ensures Step(s, e).acks == s.acks
  {
    if e.CreatePolicy? || e.EditPolicy? {
      PolicyEventIs(s, e.id, e.storageId, e.content);
    } else {
      SettingsEventIs(s, e);
    }
  }
}
