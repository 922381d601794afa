/** The promises of policy synchronisation, over every interleaving. */
module PolicySyncTheorems {
  import opened PolicySyncModel
  import opened PolicySyncSafety
  import opened PolicySyncSoundness
  import opened PolicySyncSteps
  import opened Wrappers

  // ---- Soundness -----------------------------------------------------------------------------

  lemma InitiallySound()
    ensures Inv(INITIAL) && SyncInv(INITIAL)
  {
    assert Steps(INITIAL, []) == INITIAL;
    Reachable([]);
  }

  // Whatever was edited, resent, lost, delayed or acknowledged twice, over restarts of the master:
  // when a policy is marked synced, the agent's copy of it is the policy as it stands, with its
  // storage as it stands, provided that no unsafe list was sent.
  lemma SyncedMeansAgentIsCurrent(run: seq<Event>)
    requires SafeRun(INITIAL, run)
    ensures Sound(Steps(INITIAL, run))
  {
    InitiallySound();
    SafeRunKept(INITIAL, run);
    SyncInvIsSound(Steps(INITIAL, run));
  }

  // A push of the present settings is at the head of the link.
  predicate PushArrives(s: State, m: nat, p: string) {
    && PushAt(s.link, 0, p) && s.link[0].messageId == m
    && p in s.settings.policies && !s.settings.policies[p].synced
    && IsActive(s.pushes, m) && s.pushes[m].updatedAt == s.settings.policies[p].updatedAt
  }

  lemma AckFindsPush(s: State, m: nat, p: string)
    requires Inv(s) && PushArrives(s, m, p)
    ensures var r := Receive(s, true);
            && r.settings == s.settings && Ack(m, true) in r.acks
            && TrackedPush(r, m) == Some(Tracked(p, s.settings.policies[p].updatedAt))
  {
    assert MessageOk(m, p, s.link[0].payload, s.sent, s.pushes);
    assert m in s.tracker ==> TrackedOk(s.tracker[m], m, s.pushes);
  }

  lemma AckMarksPush(s: State, m: nat, p: string)
    requires m in s.acked && p in s.settings.policies && !s.settings.policies[p].synced
    requires s.acked[m] == Tracked(p, s.settings.policies[p].updatedAt)
    ensures p in MarkSynced(s, m).settings.policies && MarkSynced(s, m).settings.policies[p].synced
  {
  }

  lemma FindingCompletes(s: State, f: Finding)
    requires f.success && f.tracked.Some?
    ensures var r := CompleteAck(s, f);
            f.messageId in r.acked && r.acked[f.messageId] == f.tracked.value && r.settings == s.settings && r.link == s.link
  {
  }

  // The protocol gets there: a push of the present settings that the agent takes, and whose
  // acknowledgement is handled before the policy changes again, leaves the policy synced, and on the
  // agent as it is.
  lemma AcceptedPushSyncs(s: State, m: nat, p: string)
    requires Inv(s) && PushArrives(s, m, p)
    ensures var found := Finding(m, true, Some(Tracked(p, s.settings.policies[p].updatedAt)));
            var r := Step(Step(Step(Step(s, AgentReceives(true)), AckArrives(m, true)), AckCompletes(found)), AckMarks(m));
            && p in r.settings.policies && r.settings.policies[p].synced
            && OnlySyncs(s, r, p)
  {
    var found := Finding(m, true, Some(Tracked(p, s.settings.policies[p].updatedAt)));
    var received := Receive(s, true);
    var looked := FindPush(received, m, true);
    var completed := CompleteAck(looked, found);
    AckFindsPush(s, m, p);
    FindingCompletes(looked, found);
    AckMarksPush(completed, m, p);
    ReceiveEventIs(s, AgentReceives(true));
    AckEventIs(received, AckArrives(m, true));
    AckEventIs(looked, AckCompletes(found));
    AckEventIs(completed, AckMarks(m));
    PushIsOnAgent(s, m, p);
  }

  // Policy `p` has become synced, and is on the agent as it is; no other policy, nor the agent's copy of
  // one, has changed.
  predicate OnlySyncs(s: State, r: State, p: string) {
    && p in s.settings.policies && p in r.settings.policies && IsOnAgent(r, p)
    && r.settings == s.settings.(policies := r.settings.policies)
    && r.settings.policies == s.settings.policies[p := s.settings.policies[p].(synced := true, updatedAt := r.settings.policies[p].updatedAt)]
    && r.agent == s.agent[p := r.agent[p]]
  }

  // The agent has policy `p` with its present settings, and those of its storage.
  predicate IsOnAgent(s: State, p: string) {
    && p in s.settings.policies && s.settings.policies[p].storageId in s.settings.storages
    && p in s.agent && s.agent[p].payload == CurrentContent(s.settings, p)
  }

  lemma PushIsOnAgent(s: State, m: nat, p: string)
    requires Inv(s) && PushArrives(s, m, p)
    ensures IsOnAgent(Receive(s, true), p)
  {
    assert MessageOk(m, p, s.link[0].payload, s.sent, s.pushes);
    assert Since(s.settings, p, Stamp(s.pushes, m));
  }

  // ---- Pushes --------------------------------------------------------------------------------

  lemma OneLivePush(run: seq<Event>, m: nat, n: nat)
    requires var s := Steps(INITIAL, run); IsLive(s.pushes, m, s.now) && IsLive(s.pushes, n, s.now) && SamePolicy(s.pushes, m, n)
    ensures m == n
  {
    Reachable(run);
  }

  // An acknowledgement of an active push finds what it is about: from the tracker, or from the command
  // when the tracker has forgotten it, as after a restart.
  lemma AckFindsActivePush(run: seq<Event>, m: nat)
    ensures var s := Steps(INITIAL, run);
            && (m in s.pushes && TrackedPush(s, m).Some? ==> TrackedPush(s, m).value == Tracked(s.pushes[m].policyId, s.pushes[m].updatedAt))
            && (IsActive(s.pushes, m) ==> TrackedPush(s, m).Some?)
  {
    Reachable(run);
    var s := Steps(INITIAL, run);
    assert m in s.tracker ==> TrackedOk(s.tracker[m], m, s.pushes);
  }

  // A restart leaves the active pushes to their commands.
  lemma RestartForgetsTracker(s: State, m: nat)
    requires IsActive(s.pushes, m)
    ensures var r := Step(s, Restart);
            m !in r.tracker && TrackedPush(r, m) == Some(Tracked(s.pushes[m].policyId, s.pushes[m].updatedAt))
  {
    LinkEventIs(s, Restart);
  }

  // `n` is a push of the same policy as `m`, made from a later reading.
  predicate Newer(pushes: Pushes, n: nat, m: nat) { SamePolicy(pushes, m, n) && Stamp(pushes, m) < Stamp(pushes, n) }

  // Pushes of one policy go out oldest first.
  lemma SentInOrder(run: seq<Event>, j: nat, k: nat)
    requires j < k < |Steps(INITIAL, run).sent|
    ensures !Newer(Steps(INITIAL, run).pushes, Steps(INITIAL, run).sent[j], Steps(INITIAL, run).sent[k])
  {
    Reachable(run);
  }

  // Once a newer push exists, the older ones are finished, and are not recorded for dispatch.
  lemma SupersededIsRefused(run: seq<Event>, m: nat, n: nat)
    requires Newer(Steps(INITIAL, run).pushes, n, m)
    ensures !IsActive(Steps(INITIAL, run).pushes, m)
    ensures Step(Steps(INITIAL, run), RecordNext).dispatching.Sending? && Step(Steps(INITIAL, run), RecordNext).dispatching.id == m ==>
              Steps(INITIAL, run).dispatching.Sending?
  {
    Reachable(run);
  }

  // So an older push goes out after a newer one was created only if it was recorded before that;
  // the newer one has not gone out then.
  lemma OlderSendWasUnderWay(run: seq<Event>, n: nat)
    requires Steps(INITIAL, run).dispatching.Sending?
    requires Newer(Steps(INITIAL, run).pushes, n, Steps(INITIAL, run).dispatching.id)
    ensures n !in Steps(INITIAL, run).sent && !IsActive(Steps(INITIAL, run).pushes, Steps(INITIAL, run).dispatching.id)
  {
    Reachable(run);
  }

  predicate UnderWay(s: State, m: nat) { s.dispatching.Sending? && s.dispatching.id == m }

  lemma SettingsEventsSendNothing(s: State, e: Event)
    requires IsSettingsEvent(e)
    ensures Step(s, e).sent == s.sent && Step(s, e).dispatching == s.dispatching && Step(s, e).pushes == s.pushes
  {
    if e.CreatePolicy? || e.EditPolicy? {
      PolicyEventIs(s, e.id, e.storageId, e.content);
    } else {
      SettingsEventIs(s, e);
    }
  }

  lemma ReceivingSendsNothing(s: State, accepted: bool)
    requires s.link != []
    ensures var r := Receive(s, accepted); r.sent == s.sent && r.dispatching == s.dispatching && r.pushes == s.pushes
  {
  }

  lemma MarkingSendsNothing(s: State, m: nat)
    requires m in s.acked
    ensures var r := MarkSynced(s, m); r.sent == s.sent && r.dispatching == s.dispatching && r.pushes == s.pushes
  {
  }

  lemma CompletingSendsNothing(s: State, f: Finding, m: nat)
    ensures var r := CompleteAck(s, f);
            r.sent == s.sent && r.dispatching == s.dispatching && RowStays(s.pushes, r.pushes, m)
  {
    CompleteAckIs(s, f);
    StatusRowsStay(s.pushes, CompleteAck(s, f).pushes);
  }

  predicate IsWireEvent(e: Event) { e.AgentReceives? || IsAckEvent(e) }

  lemma WireEventsSendNothing(s: State, e: Event, m: nat)
    requires IsWireEvent(e)
    ensures var r := Step(s, e);
            r.sent == s.sent && r.dispatching == s.dispatching && RowStays(s.pushes, r.pushes, m)
  {
    if e.AgentReceives? {
      ReceiveEventIs(s, e);
      if s.link != [] {
        ReceivingSendsNothing(s, e.accepted);
      }
    } else {
      AckEventsSendNothing(s, e, m);
    }
  }

  lemma AckEventsSendNothing(s: State, e: Event, m: nat)
    requires IsAckEvent(e)
    ensures var r := Step(s, e);
            r.sent == s.sent && r.dispatching == s.dispatching && RowStays(s.pushes, r.pushes, m)
  {
    AckEventIs(s, e);
    if e.AckCompletes? && e.finding in s.findings {
      CompletingSendsNothing(s, e.finding, m);
    } else if e.AckMarks? && e.messageId in s.acked {
      MarkingSendsNothing(s, e.messageId);
    }
  }

  lemma SendRowsStay(s: State, id: nat, todo: seq<nat>, delivered: bool)
    ensures Send(s, id, todo, delivered).pushes == s.pushes
  {
  }

  lemma DispatchRowsStay(s: State, e: Event, m: nat)
    requires IsDispatchEvent(e)
    ensures RowStays(s.pushes, Step(s, e).pushes, m)
  {
    if e.SendNext? && s.dispatching.Sending? {
      DispatchEventIs(s, e);
      SendRowsStay(s, s.dispatching.id, s.dispatching.todo, e.delivered);
    } else {
      DispatchEventInside(s, e);
    }
  }

  lemma RowsStay(s: State, e: Event, m: nat)
    requires Inv(s)
    ensures RowStays(s.pushes, Step(s, e).pushes, m)
  {
    if IsSettingsEvent(e) {
      SettingsEventsSendNothing(s, e);
    } else if IsEnsureEvent(e) {
      EnsureEventInside(s, e);
    } else if IsDispatchEvent(e) {
      DispatchRowsStay(s, e, m);
    } else if e.RetireAll? || e.EndPush? {
      EndEventInside(s, e);
    } else if IsLinkEvent(e) {
      LinkEventIs(s, e);
    } else {
      WireEventsSendNothing(s, e, m);
    }
  }

  lemma OthersSendNothing(s: State, e: Event)
    requires !IsDispatchEvent(e)
    ensures Step(s, e).sent == s.sent && (Step(s, e).dispatching == s.dispatching || Step(s, e).dispatching == Idle)
  {
    if IsSettingsEvent(e) {
      SettingsEventsSendNothing(s, e);
    } else if IsEnsureEvent(e) {
      EnsureEventIs(s, e);
    } else if e.RetireAll? || e.EndPush? {
      EndEventIs(s, e);
    } else if IsLinkEvent(e) {
      LinkEventIs(s, e);
    } else {
      WireEventsSendNothing(s, e, 0);
    }
  }

  lemma NotSentNext(s: State, e: Event, m: nat)
    requires !IsActive(s.pushes, m) && !UnderWay(s, m)
    ensures !UnderWay(Step(s, e), m) && multiset(Step(s, e).sent)[m] == multiset(s.sent)[m]
  {
    if IsDispatchEvent(e) {
      DispatchEventIs(s, e);
    } else {
      OthersSendNothing(s, e);
    }
  }

  lemma NewerStays(a: Pushes, b: Pushes, n: nat, m: nat)
    requires Newer(a, n, m) && RowStays(a, b, m) && RowStays(a, b, n)
    ensures Newer(b, n, m)
  {
  }

  // Once a newer push of its policy exists, a push that is not between its record and its send at
  // that moment never goes out again, whatever comes later.
  lemma {:induction false} SupersededNeverSentAgain(run: seq<Event>, later: seq<Event>, m: nat, n: nat)
    requires Newer(Steps(INITIAL, run).pushes, n, m) && !UnderWay(Steps(INITIAL, run), m)
    ensures var s, r := Steps(INITIAL, run), Steps(INITIAL, run + later);
            Newer(r.pushes, n, m) && !UnderWay(r, m) && multiset(r.sent)[m] == multiset(s.sent)[m]
    decreases |later|
  {
    if later == [] {
      assert run + later == run;
    } else {
      var before, e := run + later[..|later| - 1], later[|later| - 1];
      assert (run + later)[..|run + later| - 1] == before && (run + later)[|run + later| - 1] == e;
      SupersededNeverSentAgain(run, later[..|later| - 1], m, n);
      Reachable(before);
      SupersededIsRefused(before, m, n);
      OneStepLater(Steps(INITIAL, before), e, m, n);
    }
  }

  lemma OneStepLater(s: State, e: Event, m: nat, n: nat)
    requires Inv(s) && Newer(s.pushes, n, m) && !IsActive(s.pushes, m) && !UnderWay(s, m)
    ensures var r := Step(s, e);
            Newer(r.pushes, n, m) && !UnderWay(r, m) && multiset(r.sent)[m] == multiset(s.sent)[m]
  {
    RowsStay(s, e, m);
    RowsStay(s, e, n);
    NewerStays(s.pushes, Step(s, e).pushes, n, m);
    NotSentNext(s, e, m);
  }

  // A superseded push goes out again in some continuation exactly when it is between its record and
  // its send.
  lemma SupersededSentAgainIff(run: seq<Event>, m: nat, n: nat)
    requires Newer(Steps(INITIAL, run).pushes, n, m)
    ensures (exists later :: multiset(Steps(INITIAL, run + later).sent)[m] > multiset(Steps(INITIAL, run).sent)[m])
       <==> UnderWay(Steps(INITIAL, run), m)
  {
    var s := Steps(INITIAL, run);
    if UnderWay(s, m) {
      var later := [Connect] + [SendNext(true)];
      StepsJoin(INITIAL, run, later);
      StepsJoin(s, [Connect], [SendNext(true)]);
      OneStep(s, Connect);
      LinkEventIs(s, Connect);
      OneStep(Step(s, Connect), SendNext(true));
      SendGoesOut(Step(s, Connect));
      assert multiset(Steps(INITIAL, run + later).sent)[m] == multiset(s.sent)[m] + 1;
    } else {
      forall later
        ensures multiset(Steps(INITIAL, run + later).sent)[m] == multiset(s.sent)[m]
      {
        SupersededNeverSentAgain(run, later, m, n);
      }
    }
  }

  // `b` comes after `a` without a send in between.
  predicate SameSends(a: State, b: State) { b.dispatching == a.dispatching && b.online == a.online && b.sent == a.sent }

  lemma EditAndRead(s: State, p: string, storageId: string, content: int) returns (r: State)
    requires Inv(s) && s.ensuring.NotEnsuring? && p in s.settings.policies && storageId in s.settings.storages
    ensures r == Step(Step(s, EditPolicy(p, storageId, content)), EnsureRead(p))
    ensures r.ensuring == PolicyRead(p, Policy(storageId, content, false, s.now + 1))
    ensures r.pushes == s.pushes && r.nextMessage == s.nextMessage && storageId in r.settings.storages && SameSends(s, r)
  {
    var edited := Step(s, EditPolicy(p, storageId, content));
    assert IsCurrent(edited.settings.policies, p);
    r := Step(edited, EnsureRead(p));
  }

  lemma LookAndRetire(s: State) returns (r: State)
    requires s.ensuring.PolicyRead? && s.ensuring.policy.storageId in s.settings.storages
    ensures r == Step(Step(s, EnsureLook), EnsureRetire)
    ensures r.ensuring.Retired? && SameSends(s, r) && r.nextMessage == s.nextMessage + 1
    ensures var c := r.ensuring.current;
            && c.messageId == s.nextMessage && c.policyId == s.ensuring.policyId && c.updatedAt == s.ensuring.policy.updatedAt
            && r.pushes == RetireSuperseded(s.pushes, c)
  {
    r := Step(Step(s, EnsureLook), EnsureRetire);
  }

  lemma CheckAndCreate(s: State) returns (r: State)
    requires s.ensuring.Retired? && forall m :: m in s.pushes ==> s.pushes[m].updatedAt != s.ensuring.current.updatedAt
    ensures r == Step(Step(s, EnsureCheck), EnsureCreate) && SameSends(s, r)
    ensures r.pushes == Created(s.pushes, s.ensuring.current, s.now)
  {
    r := Step(Step(s, EnsureCheck), EnsureCreate);
  }

  // That does happen: while any push is between its record and its send, its policy can be edited
  // and the newer push created, and then the older one still goes out.
  lemma OlderPushStillGoesOut(s: State, content: int) returns (read: State, retired: State, r: State)
    requires Inv(s) && s.dispatching.Sending? && s.online && s.ensuring.NotEnsuring?
    requires s.pushes[s.dispatching.id].policyId in s.settings.policies
    ensures var p := s.pushes[s.dispatching.id].policyId;
            read == Step(Step(s, EditPolicy(p, s.settings.policies[p].storageId, content)), EnsureRead(p))
    ensures retired == Step(Step(read, EnsureLook), EnsureRetire)
    ensures r == Step(Step(retired, EnsureCheck), EnsureCreate)
    ensures Newer(r.pushes, s.nextMessage, s.dispatching.id) && s.nextMessage !in r.sent
    ensures Step(r, SendNext(true)).sent == s.sent + [s.dispatching.id]
  {
    var p := s.pushes[s.dispatching.id].policyId;
    read := EditAndRead(s, p, s.settings.policies[p].storageId, content);
    retired := LookAndRetire(read);
    r := CheckAndCreate(retired);
    OvertakenPush(s, retired.pushes, retired.ensuring.current, retired.now);
    SendGoesOut(r);
  }

  // A send under way asks nothing of the push's row.
  lemma SendGoesOut(s: State)
    requires s.dispatching.Sending? && s.dispatching.id in s.pushes && s.online
    ensures Step(s, SendNext(true)).sent == s.sent + [s.dispatching.id]
  {
  }

  lemma OvertakenPush(s: State, pushes: Pushes, c: Current, now: nat)
    requires Inv(s) && s.dispatching.Sending? && pushes == RetireSuperseded(s.pushes, c)
    requires c.messageId == s.nextMessage && c.policyId == s.pushes[s.dispatching.id].policyId && c.updatedAt == s.now + 1
    ensures Newer(Created(pushes, c, now), s.nextMessage, s.dispatching.id) && s.nextMessage !in s.sent
  {
  }
}
