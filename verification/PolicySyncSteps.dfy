/** Every step of policy synchronisation keeps its invariant. */
module PolicySyncSteps {
  import opened PolicySyncModel
  import opened PolicySyncSafety
  import opened Wrappers

  // ---- Changes to the settings ---------------------------------------------------------------

  // A change to the settings, made at a later reading than `now`: whatever was read up to `now` is
  // either still true or out of date.
  ghost predicate SettingsStep(a: Settings, b: Settings, now: nat) {
    && a.usedIds <= b.usedIds
    && (forall p :: p in b.policies ==> p in a.policies || p !in a.usedIds)
    && (forall p :: p in a.policies && p in b.policies ==> a.policies[p].updatedAt <= b.policies[p].updatedAt)
    && (forall p, t: nat :: t <= now && Since(b, p, t) ==>
          Since(a, p, t) && CurrentContent(b, p) == CurrentContent(a, p) && b.policies[p].storageId == a.policies[p].storageId)
  }

  lemma SettingsPushes(pushes: Pushes, a: Settings, b: Settings, now: nat, now': nat, nextMessage: nat)
    requires PushesOk(pushes, a, now, nextMessage) && SettingsStep(a, b, now) && now <= now'
    ensures PushesOk(pushes, b, now', nextMessage)
  {
    forall m, p | p in b.policies && Of(pushes, m, p) ensures Stamp(pushes, m) <= b.policies[p].updatedAt {
      assert p in a.usedIds;
    }
  }

  lemma SettingsEnsuring(e: Ensuring, pushes: Pushes, a: Settings, b: Settings, now: nat, now': nat, nextMessage: nat)
    requires EnsuringOk(e, pushes, a, now, nextMessage) && SettingsStep(a, b, now) && now <= now'
    ensures EnsuringOk(e, pushes, b, now', nextMessage)
  {
  }

  lemma LiveLater(pushes: Pushes, now: nat, now': nat)
    requires OneLive(pushes, now) && now <= now'
    ensures OneLive(pushes, now')
  {
    assert forall m :: IsLive(pushes, m, now') ==> IsLive(pushes, m, now);
  }

  lemma SettingsKept(s: State, b: Settings, now: nat)
    requires Inv(s) && SettingsStep(s.settings, b, s.now) && SettingsOk(b, now) && s.now <= now
    ensures Inv(s.(settings := b, now := now))
  {
    SettingsPushes(s.pushes, s.settings, b, s.now, now, s.nextMessage);
    SettingsEnsuring(s.ensuring, s.pushes, s.settings, b, s.now, now, s.nextMessage);
    LiveLater(s.pushes, s.now, now);
  }

  lemma WritePolicyStep(g: Settings, now: nat, id: string, storageId: string, content: int)
    requires SettingsOk(g, now) && storageId in g.storages && (id in g.policies || id !in g.usedIds)
    ensures SettingsStep(g, WritePolicy(g, now + 1, id, storageId, content), now)
    ensures SettingsOk(WritePolicy(g, now + 1, id, storageId, content), now + 1)
  {
  }

  lemma WriteKept(s: State, b: Settings)
    requires Inv(s) && SettingsStep(s.settings, b, s.now) && SettingsOk(b, s.now + 1)
    ensures Inv(Write(s, b))
  {
    SettingsKept(s, b, s.now + 1);
  }

  lemma WritePolicyKept(s: State, id: string, storageId: string, content: int)
    requires Inv(s) && storageId in s.settings.storages && (id in s.settings.policies || id !in s.settings.usedIds)
    ensures Inv(Write(s, WritePolicy(s.settings, s.now + 1, id, storageId, content)))
  {
    WritePolicyStep(s.settings, s.now, id, storageId, content);
    WriteKept(s, WritePolicy(s.settings, s.now + 1, id, storageId, content));
  }

  lemma DropPolicyKept(s: State, id: string)
    requires Inv(s)
    ensures Inv(s.(settings := DropPolicy(s.settings, id)))
  {
    SettingsKept(s, DropPolicy(s.settings, id), s.now);
  }

  lemma WriteStorageStep(g: Settings, now: nat, id: string, content: int)
    requires SettingsOk(g, now)
    ensures SettingsStep(g, WriteStorage(g, now + 1, id, content), now)
    ensures SettingsOk(WriteStorage(g, now + 1, id, content), now + 1)
  {
  }

  lemma WriteStorageKept(s: State, id: string, content: int)
    requires Inv(s)
    ensures Inv(Write(s, WriteStorage(s.settings, s.now + 1, id, content)))
  {
    WriteStorageStep(s.settings, s.now, id, content);
    WriteKept(s, WriteStorage(s.settings, s.now + 1, id, content));
  }

  lemma UnsyncKept(s: State)
    requires Inv(s)
    ensures Inv(s.(settings := UnsyncAll(s.settings)))
  {
    SettingsKept(s, UnsyncAll(s.settings), s.now);
  }

  lemma TickKept(s: State)
    requires Inv(s)
    ensures Inv(s.(now := s.now + 1))
  {
    SettingsKept(s, s.settings, s.now + 1);
  }

  // ---- Changes to the status of pushes -------------------------------------------------------

  // Some statuses changed, and no finished push became active again.
  ghost predicate StatusStep(a: Pushes, b: Pushes) {
    && a.Keys == b.Keys
    && (forall m :: m in a ==> b[m] == a[m].(status := b[m].status) && (b[m].status.Active() ==> a[m].status.Active()))
  }

  lemma StatusPushes(s: State, b: Pushes)
    requires Inv(s) && StatusStep(s.pushes, b)
    ensures PushesOk(b, s.settings, s.now, s.nextMessage)
    ensures OneLive(b, s.now)
    ensures InOrder(s.sent, b) && SendingOk(s.dispatching, s.sent, b)
    ensures forall m, p :: Of(b, m, p) == Of(s.pushes, m, p)
    ensures forall m :: Stamp(b, m) == Stamp(s.pushes, m) && (IsActive(b, m) ==> IsActive(s.pushes, m))
  {
    forall m, p ensures Of(b, m, p) == Of(s.pushes, m, p) {
    }
    forall m ensures Stamp(b, m) == Stamp(s.pushes, m) && (IsActive(b, m) ==> IsActive(s.pushes, m)) {
    }
    forall m, n ensures SamePolicy(b, m, n) == SamePolicy(s.pushes, m, n) {
    }
    forall m ensures IsLive(b, m, s.now) ==> IsLive(s.pushes, m, s.now) {
    }
  }

  lemma StatusEnsuring(e: Ensuring, a: Pushes, b: Pushes, g: Settings, now: nat, nextMessage: nat)
    requires EnsuringOk(e, a, g, now, nextMessage) && StatusStep(a, b)
    ensures EnsuringOk(e, b, g, now, nextMessage)
  {
    forall m, p ensures Of(b, m, p) == Of(a, m, p) {
    }
    forall m ensures Stamp(b, m) == Stamp(a, m) && (IsActive(b, m) ==> IsActive(a, m)) {
    }
  }

  lemma StatusWire(s: State, b: Pushes)
    requires Inv(s) && StatusStep(s.pushes, b)
    ensures LinkOk(s.link, s.sent, b) && AgentOk(s.agent, s.link, s.sent, b)
    ensures TrackerOk(s.tracker, s.ensuring, b, s.nextMessage)
    ensures AcksOk(s.acks, b) && FindingsOk(s.findings, s.acks, b) && AckedOk(s.acked, s.acks, b)
  {
    forall m, p ensures Of(b, m, p) == Of(s.pushes, m, p) {
    }
    forall m ensures Stamp(b, m) == Stamp(s.pushes, m) {
    }
    forall m, p, payload ensures MessageOk(m, p, payload, s.sent, b) == MessageOk(m, p, payload, s.sent, s.pushes) {
    }
    forall m, t ensures TrackedOk(t, m, b) == TrackedOk(t, m, s.pushes) {
    }
  }

  lemma StatusKept(s: State, b: Pushes)
    requires Inv(s) && StatusStep(s.pushes, b)
    ensures Inv(s.(pushes := b))
  {
    StatusPushes(s, b);
    StatusEnsuring(s.ensuring, s.pushes, b, s.settings, s.now, s.nextMessage);
    StatusWire(s, b);
  }

  // ---- The pusher ----------------------------------------------------------------------------

  lemma EnsuringKept(s: State, e: Ensuring)
    requires Inv(s) && EnsuringOk(e, s.pushes, s.settings, s.now, s.nextMessage)
    requires e.Looked? || e.Retired? || e.NothingActive? ==>
               (s.ensuring.Looked? || s.ensuring.Retired?) && s.ensuring.current == e.current
    ensures Inv(s.(ensuring := e))
  {
  }

  lemma LookKept(s: State)
    requires Inv(s) && s.ensuring.PolicyRead?
    ensures Inv(Look(s, s.ensuring.policyId, s.ensuring.policy))
  {
    var id, policy, m := s.ensuring.policyId, s.ensuring.policy, s.nextMessage;
    if policy.storageId in s.settings.storages {
      var c := Current(m, id, policy.storageId, policy.updatedAt, Content(policy.content, s.settings.storages[policy.storageId]), s.now);
      LookedCurrent(s, c);
      LookedTracker(s.tracker, c, s.pushes, m);
      assert PushesOk(s.pushes, s.settings, s.now, m + 1);
      assert Look(s, id, policy) == s.(nextMessage := m + 1, tracker := s.tracker[m := Tracked(id, policy.updatedAt)], ensuring := Looked(c));
    } else {
      EnsuringKept(s, NotEnsuring);
    }
  }

  lemma LookedCurrent(s: State, c: Current)
    requires PushesOk(s.pushes, s.settings, s.now, s.nextMessage)
    requires s.ensuring.PolicyRead? && ReadOk(s.ensuring.policyId, s.ensuring.policy, s.pushes, s.settings, s.now)
    requires s.ensuring.policy.storageId in s.settings.storages
    requires c.messageId == s.nextMessage && c.policyId == s.ensuring.policyId && c.updatedAt == s.ensuring.policy.updatedAt
    requires c.payload == Content(s.ensuring.policy.content, s.settings.storages[s.ensuring.policy.storageId]) && c.now == s.now
    ensures CurrentOk(c, s.pushes, s.settings, s.now, s.nextMessage + 1)
  {
  }

  lemma LookedTracker(tracker: map<nat, Tracked>, c: Current, pushes: Pushes, m: nat)
    requires c.messageId == m && m !in pushes
    requires forall n :: n in tracker ==> n < m && TrackedOk(tracker[n], n, pushes)
    ensures TrackerOk(tracker[m := Tracked(c.policyId, c.updatedAt)], Looked(c), pushes, m + 1)
  {
  }

  function Retire(s: State, c: Current): State { s.(pushes := RetireSuperseded(s.pushes, c), ensuring := Retired(c)) }

  function Check(s: State, c: Current): State {
    s.(ensuring := if HasActivePush(s.pushes, c) then NotEnsuring else NothingActive(c))
  }

  lemma RetireKept(s: State)
    requires Inv(s) && s.ensuring.Looked?
    ensures Inv(Retire(s, s.ensuring.current))
  {
    var c := s.ensuring.current;
    var b := RetireSuperseded(s.pushes, c);
    StatusKept(s, b);
    assert OnlyCurrentActive(b, c);
    EnsuringKept(s.(pushes := b), Retired(c));
    assert Retire(s, c) == s.(pushes := b).(ensuring := Retired(c));
  }

  lemma CheckKept(s: State)
    requires Inv(s) && s.ensuring.Retired?
    ensures Inv(Check(s, s.ensuring.current))
  {
    var c := s.ensuring.current;
    if HasActivePush(s.pushes, c) {
      EnsuringKept(s, NotEnsuring);
    } else {
      assert NoneLive(s.pushes, c);
      EnsuringKept(s, NothingActive(c));
    }
  }

  // The tables after the push being prepared was created.
  function Created(pushes: Pushes, c: Current, now: nat): Pushes {
    pushes[c.messageId := Push(c.policyId, c.storageId, c.updatedAt, c.payload, Pending, now + PUSH_TTL)]
  }

  lemma CreatedFacts(pushes: Pushes, c: Current, now: nat)
    requires c.messageId !in pushes
    ensures forall m, p :: Of(pushes, m, p) ==> Of(Created(pushes, c, now), m, p)
    ensures forall m, p :: Of(Created(pushes, c, now), m, p) && m != c.messageId ==> Of(pushes, m, p)
    ensures forall m :: m != c.messageId ==> Stamp(Created(pushes, c, now), m) == Stamp(pushes, m)
    ensures forall m :: m != c.messageId ==> IsActive(Created(pushes, c, now), m) == IsActive(pushes, m)
    ensures forall m, n :: m != c.messageId && n != c.messageId ==>
              SamePolicy(Created(pushes, c, now), m, n) == SamePolicy(pushes, m, n)
  {
  }

  lemma CreatedOneLive(s: State, c: Current)
    requires Inv(s) && s.ensuring == NothingActive(c)
    ensures OneLive(Created(s.pushes, c, s.now), s.now)
  {
    var b := Created(s.pushes, c, s.now);
    CreatedFacts(s.pushes, c, s.now);
    forall m, n | IsActive(b, m) && SamePolicy(b, m, n) ensures Stamp(b, n) <= Stamp(b, m) {
      assert Of(b, n, b[m].policyId);
      if m != c.messageId && n != c.messageId {
        assert SamePolicy(s.pushes, m, n);
      } else if m != c.messageId {
        assert IsActive(s.pushes, m) && Of(s.pushes, m, c.policyId);
      }
    }
    forall m, n | IsLive(b, m, s.now) && IsLive(b, n, s.now) && SamePolicy(b, m, n) ensures m == n {
      assert m != c.messageId ==> IsActive(s.pushes, m);
      assert n != c.messageId ==> IsActive(s.pushes, n);
      if m != c.messageId && n != c.messageId {
        assert SamePolicy(s.pushes, m, n) && IsLive(s.pushes, m, s.now) && IsLive(s.pushes, n, s.now);
      } else if m != c.messageId {
        assert Of(s.pushes, m, c.policyId);
      } else if n != c.messageId {
        assert Of(s.pushes, n, c.policyId);
      }
    }
  }

  lemma CreatedWire(s: State, c: Current)
    requires Inv(s) && s.ensuring == NothingActive(c)
    ensures var b := Created(s.pushes, c, s.now);
            && InOrder(s.sent, b) && SendingOk(s.dispatching, s.sent, b)
            && LinkOk(s.link, s.sent, b) && AgentOk(s.agent, s.link, s.sent, b)
  {
    var b := Created(s.pushes, c, s.now);
    CreatedFacts(s.pushes, c, s.now);
    forall m, p, payload | MessageOk(m, p, payload, s.sent, s.pushes)
      ensures MessageOk(m, p, payload, s.sent, b) && m != c.messageId
    {
    }
  }

  lemma CreatedAcks(s: State, c: Current)
    requires Inv(s) && s.ensuring == NothingActive(c)
    ensures var b := Created(s.pushes, c, s.now);
            && TrackerOk(s.tracker, NotEnsuring, b, s.nextMessage)
            && AcksOk(s.acks, b) && FindingsOk(s.findings, s.acks, b) && AckedOk(s.acked, s.acks, b)
  {
    var b := Created(s.pushes, c, s.now);
    CreatedFacts(s.pushes, c, s.now);
    forall m | m in s.acked ensures TrackedOk(s.acked[m], m, b) {
      assert Ack(m, true) in s.acks;
    }
    forall f | f in s.findings && f.tracked.Some? ensures TrackedOk(f.tracked.value, f.messageId, b) {
      assert Ack(f.messageId, f.success) in s.acks;
    }
  }

  lemma CreatedPushes(s: State, c: Current)
    requires Inv(s) && s.ensuring == NothingActive(c)
    ensures PushesOk(Created(s.pushes, c, s.now), s.settings, s.now, s.nextMessage)
  {
    CreatedFacts(s.pushes, c, s.now);
  }

  lemma CreateKept(s: State)
    requires Inv(s) && s.ensuring.NothingActive?
    ensures Inv(CreatePush(s, s.ensuring.current))
  {
    var c := s.ensuring.current;
    CreatedFacts(s.pushes, c, s.now);
    CreatedOneLive(s, c);
    CreatedWire(s, c);
    CreatedAcks(s, c);
    CreatedPushes(s, c);
    assert CreatePush(s, c) == s.(pushes := Created(s.pushes, c, s.now), ensuring := NotEnsuring);
  }

  // ---- Dispatching ---------------------------------------------------------------------------

  lemma DispatchingKept(s: State, d: Dispatching)
    requires Inv(s) && SendingOk(d, s.sent, s.pushes)
    ensures Inv(s.(dispatching := d))
  {
  }

  lemma RecordKept(s: State, todo: seq<nat>)
    requires Inv(s) && todo != []
    ensures Inv(Record(s, todo))
  {
    var id := todo[0];
    if IsActive(s.pushes, id) {
      var b := s.pushes[id := s.pushes[id].(status := Dispatched)];
      StatusKept(s, b);
      assert IsActive(b, id);
      forall k | 0 <= k < |s.sent| && SamePolicy(b, s.sent[k], id) ensures Stamp(b, s.sent[k]) <= Stamp(b, id) {
        assert SamePolicy(b, id, s.sent[k]);
      }
      DispatchingKept(s.(pushes := b), Sending(id, todo[1..]));
    } else {
      DispatchingKept(s, Listed(todo[1..]));
    }
  }

  lemma RollbackKept(s: State, id: nat, todo: seq<nat>)
    requires Inv(s)
    ensures Inv(Rollback(s, id, todo))
  {
    DispatchingKept(s, Listed(todo));
    if IsActive(s.pushes, id) {
      StatusKept(s.(dispatching := Listed(todo)), s.pushes[id := s.pushes[id].(status := Pending)]);
    }
  }

  lemma LinkedFacts(link: seq<Message>, x: Message)
    ensures forall k, p :: PushAt(link, k, p) ==> PushAt(link + [x], k, p)
    ensures forall k, p :: PushAt(link + [x], k, p) && k != |link| ==> PushAt(link, k, p)
  {
  }

  lemma SendLink(s: State, id: nat)
    requires Inv(s) && s.dispatching.Sending? && s.dispatching.id == id
    ensures var link := s.link + [PushMessage(id, s.pushes[id].policyId, s.pushes[id].payload)];
            && LinkOk(link, s.sent + [id], s.pushes) && AgentOk(s.agent, link, s.sent + [id], s.pushes)
  {
    var x := PushMessage(id, s.pushes[id].policyId, s.pushes[id].payload);
    var link, sent := s.link + [x], s.sent + [id];
    LinkedFacts(s.link, x);
    SentBefore(s, id);
    forall m, p, payload | MessageOk(m, p, payload, s.sent, s.pushes)
      ensures MessageOk(m, p, payload, sent, s.pushes)
      ensures p == s.pushes[id].policyId ==> Stamp(s.pushes, m) <= Stamp(s.pushes, id)
    {
    }
    assert MessageOk(id, x.policyId, x.payload, sent, s.pushes);
  }

  lemma SentBefore(s: State, id: nat)
    requires Inv(s) && s.dispatching.Sending? && s.dispatching.id == id
    ensures forall m :: m in s.sent && Of(s.pushes, m, s.pushes[id].policyId) ==> Stamp(s.pushes, m) <= Stamp(s.pushes, id)
  {
    forall m | m in s.sent && Of(s.pushes, m, s.pushes[id].policyId) ensures Stamp(s.pushes, m) <= Stamp(s.pushes, id) {
      var k :| 0 <= k < |s.sent| && s.sent[k] == m;
      assert SamePolicy(s.pushes, s.sent[k], id);
    }
  }

  lemma SendKept(s: State, delivered: bool)
    requires Inv(s) && s.dispatching.Sending?
    ensures Inv(Send(s, s.dispatching.id, s.dispatching.todo, delivered))
  {
    var id, todo := s.dispatching.id, s.dispatching.todo;
    if delivered && s.online {
      SendLink(s, id);
      LinkedFacts(s.link, PushMessage(id, s.pushes[id].policyId, s.pushes[id].payload));
    } else {
      DispatchingKept(s, RollingBack(id, todo));
    }
  }

  // ---- The link and the agent ----------------------------------------------------------------

  lemma DisconnectKept(s: State)
    requires Inv(s)
    ensures Inv(s.(online := false, link := []))
  {
  }

  lemma ReconcileKept(s: State, ids: set<string>)
    requires Inv(s)
    ensures Inv(Reconcile(s, ids))
  {
    LinkedFacts(s.link, ReconcileMessage(ids));
  }

  lemma RestartKept(s: State)
    requires Inv(s)
    ensures Inv(Restarted(s))
  {
  }

  lemma TailFacts(link: seq<Message>)
    requires link != []
    ensures forall k, p :: PushAt(link[1..], k, p) ==> PushAt(link, k + 1, p)
  {
  }

  // A message is taken off the link.
  lemma TakeKept(s: State)
    requires Inv(s) && s.link != []
    ensures Inv(s.(link := s.link[1..]))
  {
    var rest := s.link[1..];
    TailFacts(s.link);
    forall j, k, p | j < k && PushAt(rest, j, p) && PushAt(rest, k, p)
      ensures Stamp(s.pushes, rest[j].messageId) <= Stamp(s.pushes, rest[k].messageId)
    {
      assert PushAt(s.link, j + 1, p) && PushAt(s.link, k + 1, p);
    }
  }

  lemma ReceivePushKept(s: State, accepted: bool)
    requires Inv(s) && s.link != [] && s.link[0].PushMessage?
    ensures Inv(Receive(s, accepted))
  {
    var m, p, payload := s.link[0].messageId, s.link[0].policyId, s.link[0].payload;
    assert PushAt(s.link, 0, p) && MessageOk(m, p, payload, s.sent, s.pushes);
    TakeKept(s);
    if accepted {
      AcceptKept(s);
    } else {
      RejectKept(s.(link := s.link[1..]), m);
    }
  }

  lemma RejectKept(s: State, m: nat)
    requires Inv(s) && m in s.pushes
    ensures Inv(s.(acks := s.acks + {Ack(m, false)}))
  {
  }

  // The agent's store after it accepted the push at the head of the link.
  lemma AcceptHolds(s: State)
    requires Inv(s) && s.link != [] && s.link[0].PushMessage?
    ensures var agent := s.agent[s.link[0].policyId := AgentCopy(s.link[0].payload, s.link[0].messageId)];
            AgentOk(agent, s.link[1..], s.sent, s.pushes)
  {
    var m, p, payload := s.link[0].messageId, s.link[0].policyId, s.link[0].payload;
    var agent, rest := s.agent[p := AgentCopy(payload, m)], s.link[1..];
    assert PushAt(s.link, 0, p) && MessageOk(m, p, payload, s.sent, s.pushes);
    TailFacts(s.link);
    forall k, q | q in agent && PushAt(rest, k, q)
      ensures Stamp(s.pushes, agent[q].origin) <= Stamp(s.pushes, rest[k].messageId)
    {
      assert PushAt(s.link, k + 1, q);
    }
  }

  lemma AcceptKept(s: State)
    requires Inv(s) && s.link != [] && s.link[0].PushMessage? && Inv(s.(link := s.link[1..]))
    ensures Inv(Receive(s, true))
  {
    var m, p := s.link[0].messageId, s.link[0].policyId;
    assert PushAt(s.link, 0, p) && MessageOk(m, p, s.link[0].payload, s.sent, s.pushes);
    AcceptHolds(s);
  }

  lemma ReceiveReconcileKept(s: State)
    requires Inv(s) && s.link != [] && s.link[0].ReconcileMessage?
    ensures Inv(Receive(s, true)) && Receive(s, false) == Receive(s, true)
  {
    TakeKept(s);
    var ids := s.link[0].policyIds;
    var rest := s.(link := s.link[1..]);
    var agent := map p | p in s.agent && p in ids :: s.agent[p];
    assert Receive(s, true) == rest.(agent := agent);
  }

  // ---- Acknowledgements ----------------------------------------------------------------------

  lemma FindPushKept(s: State, m: nat, success: bool)
    requires Inv(s) && Ack(m, success) in s.acks
    ensures Inv(FindPush(s, m, success))
  {
    var tracked := TrackedPush(s, m);
    assert tracked.Some? ==> TrackedOk(tracked.value, m, s.pushes);
  }

  lemma CompletePushKept(s: State, m: nat, success: bool)
    requires Inv(s)
    ensures Inv(CompletePush(s, m, success))
  {
    if IsActive(s.pushes, m) {
      SetStatusKept(s, m, if success then Succeeded else Failed);
    }
  }

  // A completed acknowledgement is remembered, or its push forgotten.
  lemma RememberKept(s: State, f: Finding)
    requires Inv(s) && Ack(f.messageId, f.success) in s.acks
    requires f.tracked.Some? && TrackedOk(f.tracked.value, f.messageId, s.pushes)
    ensures f.success ==> Inv(s.(acked := s.acked[f.messageId := f.tracked.value]))
    ensures Inv(s.(tracker := s.tracker - {f.messageId}))
  {
  }

  lemma CompletedRows(s: State, m: nat, success: bool)
    ensures var r := CompletePush(s, m, success); r == s.(pushes := r.pushes) && StatusStep(s.pushes, r.pushes)
  {
  }

  // What the completion of a command changes.
  lemma CompleteAckIs(s: State, f: Finding)
    ensures var r := CompleteAck(s, f);
            && StatusStep(s.pushes, r.pushes)
            && r == s.(pushes := r.pushes, findings := s.findings - multiset{f},
                       acked := if f.success && f.tracked.Some? then s.acked[f.messageId := f.tracked.value] else s.acked,
                       tracker := if !f.success && f.tracked.Some? then s.tracker - {f.messageId} else s.tracker)
  {
    CompletedRows(s.(findings := s.findings - multiset{f}), f.messageId, f.success);
  }

  lemma TakeAndCompleteKept(s: State, f: Finding)
    requires Inv(s) && f in s.findings
    ensures var r := CompletePush(s.(findings := s.findings - multiset{f}), f.messageId, f.success);
            && Inv(r) && Ack(f.messageId, f.success) in r.acks
            && (f.tracked.Some? ==> TrackedOk(f.tracked.value, f.messageId, r.pushes))
  {
    var taken := s.(findings := s.findings - multiset{f});
    TakeFindingKept(s, f);
    CompletePushKept(taken, f.messageId, f.success);
    CompletedRows(taken, f.messageId, f.success);
  }

  lemma CompleteAckKept(s: State, f: Finding)
    requires Inv(s) && f in s.findings
    ensures Inv(CompleteAck(s, f))
  {
    var done := CompletePush(s.(findings := s.findings - multiset{f}), f.messageId, f.success);
    TakeAndCompleteKept(s, f);
    if f.tracked.Some? {
      RememberKept(done, f);
      if f.success {
        assert CompleteAck(s, f) == done.(acked := done.acked[f.messageId := f.tracked.value]);
      } else {
        assert CompleteAck(s, f) == done.(tracker := done.tracker - {f.messageId});
      }
    } else {
      assert CompleteAck(s, f) == done;
    }
  }

  lemma TakeFindingKept(s: State, f: Finding)
    requires Inv(s)
    ensures Inv(s.(findings := s.findings - multiset{f}))
  {
  }

  lemma ForgetKept(s: State, m: nat)
    requires Inv(s)
    ensures Inv(Forget(s, m))
  {
  }

  lemma SyncStep(g: Settings, now: nat, id: string)
    requires SettingsOk(g, now) && id in g.policies
    ensures SettingsStep(g, SyncPolicy(g, now + 1, id), now) && SettingsOk(SyncPolicy(g, now + 1, id), now + 1)
  {
  }

  function Forget(s: State, m: nat): State { s.(acked := s.acked - {m}, tracker := s.tracker - {m}) }

  predicate Marks(s: State, t: Tracked) {
    t.policyId in s.settings.policies && !s.settings.policies[t.policyId].synced
    && s.settings.policies[t.policyId].updatedAt == t.updatedAt
  }

  lemma MarkSyncedIs(s: State, m: nat)
    requires m in s.acked
    ensures MarkSynced(s, m) == if Marks(s, s.acked[m])
                                then Write(Forget(s, m), SyncPolicy(s.settings, s.now + 1, s.acked[m].policyId))
                                else Forget(s, m)
  {
  }

  lemma MarkSyncedKept(s: State, m: nat)
    requires Inv(s) && m in s.acked
    ensures Inv(MarkSynced(s, m))
  {
    var t := s.acked[m];
    MarkSyncedIs(s, m);
    ForgetKept(s, m);
    if Marks(s, t) {
      SyncStep(s.settings, s.now, t.policyId);
      WriteKept(Forget(s, m), SyncPolicy(s.settings, s.now + 1, t.policyId));
    }
  }

  // ---- Runs ----------------------------------------------------------------------------------

  // What the steps of one kind come to.
  lemma EnsureEventIs(s: State, e: Event)
    requires IsEnsureEvent(e)
    ensures e.EnsureRead? ==> Step(s, e) == if s.ensuring.NotEnsuring? && IsCurrent(s.settings.policies, e.id)
                                            then s.(ensuring := PolicyRead(e.id, s.settings.policies[e.id])) else s
    ensures e.EnsureLook? ==> Step(s, e) == if s.ensuring.PolicyRead? then Look(s, s.ensuring.policyId, s.ensuring.policy) else s
    ensures e.EnsureRetire? ==> Step(s, e) == if s.ensuring.Looked? then Retire(s, s.ensuring.current) else s
    ensures e.EnsureCheck? ==> Step(s, e) == if s.ensuring.Retired? then Check(s, s.ensuring.current) else s
    ensures e.EnsureCreate? ==> Step(s, e) == if s.ensuring.NothingActive? then CreatePush(s, s.ensuring.current) else s
  {
  }

  lemma EnsureStepKept(s: State, e: Event)
    requires Inv(s) && (e.EnsureRead? || e.EnsureLook? || e.EnsureRetire? || e.EnsureCheck? || e.EnsureCreate?)
    ensures Inv(Step(s, e))
  {
    EnsureEventIs(s, e);
    if e.EnsureRead? && s.ensuring.NotEnsuring? && IsCurrent(s.settings.policies, e.id) {
      EnsuringKept(s, PolicyRead(e.id, s.settings.policies[e.id]));
    } else if e.EnsureLook? && s.ensuring.PolicyRead? {
      LookKept(s);
    } else if e.EnsureRetire? && s.ensuring.Looked? {
      RetireKept(s);
    } else if e.EnsureCheck? && s.ensuring.Retired? {
      CheckKept(s);
    } else if e.EnsureCreate? && s.ensuring.NothingActive? {
      CreateKept(s);
    }
  }

  predicate IsEnsureEvent(e: Event) {
    e.EnsureRead? || e.EnsureLook? || e.EnsureRetire? || e.EnsureCheck? || e.EnsureCreate?
  }

  predicate IsDispatchEvent(e: Event) { e.ListPushes? || e.RecordNext? || e.SendNext? || e.RollbackNext? }

  predicate IsSettingsEvent(e: Event) {
    e.Tick? || e.CreatePolicy? || e.EditPolicy? || e.DeletePolicy? || e.SaveStorage? || e.MarkUnsynced?
  }

  lemma DispatchEventIs(s: State, e: Event)
    requires IsDispatchEvent(e)
    ensures e.ListPushes? ==> Step(s, e) == if s.dispatching.Idle? || s.dispatching.Listed? then s.(dispatching := Listed(e.todo)) else s
    ensures e.RecordNext? ==> Step(s, e) == if s.dispatching.Listed? && s.dispatching.todo != []
                                            then Record(s, s.dispatching.todo) else s
    ensures e.SendNext? ==> Step(s, e) == if s.dispatching.Sending?
                                          then Send(s, s.dispatching.id, s.dispatching.todo, e.delivered) else s
    ensures e.RollbackNext? ==> Step(s, e) == if s.dispatching.RollingBack?
                                              then Rollback(s, s.dispatching.id, s.dispatching.todo) else s
  {
  }

  lemma DispatchStepKept(s: State, e: Event)
    requires Inv(s) && IsDispatchEvent(e)
    ensures Inv(Step(s, e))
  {
    DispatchEventIs(s, e);
    if e.ListPushes? {
      DispatchingKept(s, Listed(e.todo));
    } else if e.RecordNext? && s.dispatching.Listed? && s.dispatching.todo != [] {
      RecordKept(s, s.dispatching.todo);
    } else if e.SendNext? && s.dispatching.Sending? {
      SendKept(s, e.delivered);
    } else if e.RollbackNext? && s.dispatching.RollingBack? {
      RollbackKept(s, s.dispatching.id, s.dispatching.todo);
    }
  }

  lemma EndEventIs(s: State, e: Event)
    requires e.RetireAll? || e.EndPush?
    ensures e.RetireAll? ==> Step(s, e) == s.(pushes := RetireActive(s.pushes))
    ensures e.EndPush? ==> Step(s, e) == if IsActive(s.pushes, e.messageId)
                                         then SetStatus(s, e.messageId, if e.cancelled then Cancelled else Timeout) else s
  {
  }

  lemma EndStepKept(s: State, e: Event)
    requires Inv(s) && (e.RetireAll? || e.EndPush?)
    ensures Inv(Step(s, e))
  {
    EndEventIs(s, e);
    if e.RetireAll? {
      StatusKept(s, RetireActive(s.pushes));
    } else if IsActive(s.pushes, e.messageId) {
      SetStatusKept(s, e.messageId, if e.cancelled then Cancelled else Timeout);
    }
  }

  lemma SetStatusKept(s: State, m: nat, status: PushStatus)
    requires Inv(s) && IsActive(s.pushes, m)
    ensures Inv(SetStatus(s, m, status))
  {
    StatusKept(s, s.pushes[m := s.pushes[m].(status := status)]);
  }

  lemma AgentStepKept(s: State, e: Event)
    requires Inv(s) && e.AgentReceives?
    ensures Inv(Step(s, e))
  {
    if s.link != [] {
      if s.link[0].PushMessage? {
        ReceivePushKept(s, e.accepted);
      } else {
        ReceiveReconcileKept(s);
      }
    }
  }

  predicate IsAckEvent(e: Event) { e.AckArrives? || e.AckCompletes? || e.AckMarks? }

  lemma AckEventIs(s: State, e: Event)
    requires IsAckEvent(e)
    ensures e.AckArrives? ==> Step(s, e) == if Ack(e.messageId, e.success) in s.acks then FindPush(s, e.messageId, e.success) else s
    ensures e.AckCompletes? ==> Step(s, e) == if e.finding in s.findings then CompleteAck(s, e.finding) else s
    ensures e.AckMarks? ==> Step(s, e) == if e.messageId in s.acked then MarkSynced(s, e.messageId) else s
  {
  }

  lemma AckStepKept(s: State, e: Event)
    requires Inv(s) && IsAckEvent(e)
    ensures Inv(Step(s, e))
  {
    AckEventIs(s, e);
    if e.AckArrives? && Ack(e.messageId, e.success) in s.acks {
      FindPushKept(s, e.messageId, e.success);
    } else if e.AckCompletes? && e.finding in s.findings {
      CompleteAckKept(s, e.finding);
    } else if e.AckMarks? && e.messageId in s.acked {
      MarkSyncedKept(s, e.messageId);
    }
  }

  predicate IsLinkEvent(e: Event) { e.Connect? || e.Disconnect? || e.ReadReconcile? || e.SendReconcile? || e.Restart? }

  lemma LinkEventIs(s: State, e: Event)
    requires IsLinkEvent(e)
    ensures e.Connect? ==> Step(s, e) == s.(online := true)
    ensures e.Disconnect? ==> Step(s, e) == s.(online := false, link := [])
    ensures e.ReadReconcile? ==> Step(s, e) == s.(lists := s.lists + multiset{s.settings.policies.Keys})
    ensures e.SendReconcile? ==> Step(s, e) == if e.policyIds in s.lists then Reconcile(s, e.policyIds) else s
    ensures e.Restart? ==> Step(s, e) == Restarted(s)
  {
  }

  lemma LinkStepKept(s: State, e: Event)
    requires Inv(s) && IsLinkEvent(e)
    ensures Inv(Step(s, e))
  {
    LinkEventIs(s, e);
    if e.Disconnect? {
      DisconnectKept(s);
    } else if e.SendReconcile? && e.policyIds in s.lists {
      ReconcileKept(s, e.policyIds);
    } else if e.Restart? {
      RestartKept(s);
    }
  }

  lemma PolicyEventIs(s: State, id: string, storageId: string, content: int)
    ensures Step(s, CreatePolicy(id, storageId, content)) ==
            if id in s.settings.usedIds || storageId !in s.settings.storages then s
            else Write(s, WritePolicy(s.settings, s.now + 1, id, storageId, content))
    ensures Step(s, EditPolicy(id, storageId, content)) ==
            if id !in s.settings.policies || storageId !in s.settings.storages then s
            else Write(s, WritePolicy(s.settings, s.now + 1, id, storageId, content))
  {
  }

  lemma CreatePolicyKept(s: State, id: string, storageId: string, content: int)
    requires Inv(s)
    ensures Inv(Step(s, CreatePolicy(id, storageId, content)))
  {
    PolicyEventIs(s, id, storageId, content);
    if id !in s.settings.usedIds && storageId in s.settings.storages {
      WritePolicyKept(s, id, storageId, content);
    }
  }

  lemma EditPolicyKept(s: State, id: string, storageId: string, content: int)
    requires Inv(s)
    ensures Inv(Step(s, EditPolicy(id, storageId, content)))
  {
    PolicyEventIs(s, id, storageId, content);
    if id in s.settings.policies && storageId in s.settings.storages {
      WritePolicyKept(s, id, storageId, content);
    }
  }

  lemma SettingsEventIs(s: State, e: Event)
    ensures e.Tick? ==> Step(s, e) == s.(now := s.now + 1)
    ensures e.DeletePolicy? ==> Step(s, e) == s.(settings := DropPolicy(s.settings, e.id))
    ensures e.SaveStorage? ==> Step(s, e) == Write(s, WriteStorage(s.settings, s.now + 1, e.id, e.content))
    ensures e.MarkUnsynced? ==> Step(s, e) == s.(settings := UnsyncAll(s.settings))
  {
  }

  lemma SettingsStepKept(s: State, e: Event)
    requires Inv(s)
    requires e.Tick? || e.CreatePolicy? || e.EditPolicy? || e.DeletePolicy? || e.SaveStorage? || e.MarkUnsynced?
    ensures Inv(Step(s, e))
  {
    SettingsEventIs(s, e);
    match e
    case Tick => TickKept(s);
    case CreatePolicy(id, storageId, content) => CreatePolicyKept(s, id, storageId, content);
    case EditPolicy(id, storageId, content) => EditPolicyKept(s, id, storageId, content);
    case DeletePolicy(id) => DropPolicyKept(s, id);
    case SaveStorage(id, content) => WriteStorageKept(s, id, content);
    case MarkUnsynced => UnsyncKept(s);
  }

  lemma StepKept(s: State, e: Event)
    requires Inv(s)
    ensures Inv(Step(s, e))
  {
    if IsSettingsEvent(e) {
      SettingsStepKept(s, e);
    } else if IsEnsureEvent(e) {
      EnsureStepKept(s, e);
    } else if IsDispatchEvent(e) {
      DispatchStepKept(s, e);
    } else if e.RetireAll? || e.EndPush? {
      EndStepKept(s, e);
    } else if e.AgentReceives? {
      AgentStepKept(s, e);
    } else if IsAckEvent(e) {
      AckStepKept(s, e);
    } else {
      LinkStepKept(s, e);
    }
  }

  lemma {:induction false} Reachable(run: seq<Event>)
    ensures Inv(Steps(INITIAL, run))
  {
    if run != [] {
      Reachable(run[..|run| - 1]);
      StepKept(Steps(INITIAL, run[..|run| - 1]), run[|run| - 1]);
    }
  }
}
