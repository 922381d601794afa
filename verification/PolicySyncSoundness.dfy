/** When a policy that is marked synced is on the agent: what safe lists keep, step by step. */
module PolicySyncSoundness {
  import opened PolicySyncModel
  import opened PolicySyncSafety
  import opened PolicySyncSteps
  import opened Wrappers

  // ---- Vocabulary ----------------------------------------------------------------------------

  // An acknowledgement of push `m` finds out what it is about.
  predicate Followed(s: State, m: nat) { m in s.acked || IsFound(s, m) || m in s.tracker || IsActive(s.pushes, m) }

  // An acknowledgement at work has found out that it is about push `m`.
  predicate IsFound(s: State, m: nat) { m in s.pushes && FindingOf(s.pushes, m) in s.findings }

  function FindingOf(pushes: Pushes, m: nat): Finding
    requires m in pushes
  {
    Finding(m, true, Some(Tracked(pushes[m].policyId, pushes[m].updatedAt)))
  }

  // An acknowledgement of push `m` would mark policy `p` synced.
  predicate CanMark(s: State, m: nat, p: string) {
    Of(s.pushes, m, p) && p in s.settings.policies && Stamp(s.pushes, m) == s.settings.policies[p].updatedAt && Followed(s, m)
  }

  predicate IsPush(link: seq<Message>, j: int, m: nat) {
    0 <= j < |link| && link[j].PushMessage? && link[j].messageId == m
  }

  // The agent accepted push `m`, or can take it from the first `n` messages of the link.
  predicate Acceptable(link: seq<Message>, acks: set<Ack>, n: nat, m: nat) {
    Ack(m, true) in acks || exists j :: 0 <= j < n && IsPush(link, j, m)
  }

  // Policy `p` is marked synced, or can be by what is at work and the first `n` messages.
  ghost predicate SyncsBefore(s: State, p: string, n: nat) {
    p in s.settings.policies
    && (s.settings.policies[p].synced || exists m: nat :: CanMark(s, m, p) && Acceptable(s.link, s.acks, n, m))
  }

  // A list may leave out a policy only if that is not synced, and cannot become so from what is
  // already under way.
  ghost predicate SafeList(s: State, ids: set<string>) {
    forall p :: p in s.settings.policies && p !in ids ==> !SyncsBefore(s, p, |s.link|)
  }

  // What a caller that sends a list sees to.
  ghost predicate Safe(s: State, e: Event) {
    e.SendReconcile? && e.policyIds in s.lists && s.online ==> SafeList(s, e.policyIds)
  }

  ghost predicate SafeRun(s: State, run: seq<Event>) {
    run == [] || (SafeRun(s, run[..|run| - 1]) && Safe(Steps(s, run[..|run| - 1]), run[|run| - 1]))
  }

  // Every policy marked synced is on the agent, with its present settings and its storage's.
  ghost predicate Sound(s: State) {
    forall p :: p in s.settings.policies && s.settings.policies[p].synced ==>
      && s.settings.policies[p].storageId in s.settings.storages
      && p in s.agent && s.agent[p].payload == CurrentContent(s.settings, p)
  }

  // ---- What safe lists keep -------------------------------------------------------------------

  // The agent of a synced policy holds a copy made since its settings last changed.
  ghost predicate SyncedOk(g: Settings, agent: map<string, AgentCopy>, pushes: Pushes) {
    forall p :: p in g.policies && p in g.contentAt && g.policies[p].synced ==> Holds(agent, pushes, p, g.contentAt[p])
  }

  // A push whose acknowledgement can still count is on the agent once it is accepted.
  ghost predicate AcksHold(s: State) {
    forall m, p :: Ack(m, true) in s.acks && CanMark(s, m, p) ==> Holds(s.agent, s.pushes, p, Stamp(s.pushes, m))
  }

  predicate Omits(link: seq<Message>, k: int, p: string) {
    0 <= k < |link| && link[k].ReconcileMessage? && p !in link[k].policyIds
  }

  // No policy becomes synced before a list under way that leaves it out has arrived.
  ghost predicate ListsOk(s: State) {
    forall k: nat, p :: Omits(s.link, k, p) ==> !SyncsBefore(s, p, k)
  }

  ghost predicate SyncInv(s: State) { SyncedOk(s.settings, s.agent, s.pushes) && AcksHold(s) && ListsOk(s) }

  lemma SyncInvIsSound(s: State)
    requires Inv(s) && SyncInv(s)
    ensures Sound(s)
  {
    forall p | p in s.settings.policies && s.settings.policies[p].synced
      ensures p in s.agent && s.agent[p].payload == CurrentContent(s.settings, p)
    {
      assert Holds(s.agent, s.pushes, p, s.settings.contentAt[p]);
      var m := s.agent[p].origin;
      assert MessageOk(m, p, s.agent[p].payload, s.sent, s.pushes);
      assert Since(s.settings, p, Stamp(s.pushes, m));
    }
  }

  // ---- Steps that leave the agent alone -------------------------------------------------------

  // A push keeps its row, its policy and its reading.
  predicate RowStays(a: Pushes, b: Pushes, m: nat) {
    m in a ==> m in b && b[m].policyId == a[m].policyId && b[m].updatedAt == a[m].updatedAt
  }

  // Policies change so that nothing becomes synced, and a change that is not the flag's makes what
  // was pushed before out of date.
  ghost predicate NothingSynced(a: Settings, b: Settings, now: nat) {
    && (forall p :: p in b.policies ==> p in a.policies || p !in a.usedIds)
    && (forall p :: p in b.policies && b.policies[p].synced ==>
          p in a.policies && a.policies[p].synced && p in a.contentAt && p in b.contentAt && b.contentAt[p] == a.contentAt[p])
    && (forall p :: p in a.policies && p in b.policies ==>
          b.policies[p].updatedAt == a.policies[p].updatedAt || b.policies[p].updatedAt > now)
  }

  ghost predicate Quiet(s: State, t: State) {
    && t.agent == s.agent && t.acks == s.acks && (t.link == s.link || t.link == [])
    && NothingSynced(s.settings, t.settings, s.now)
    && (forall m :: RowStays(s.pushes, t.pushes, m))
    && (forall m :: m in s.pushes && Followed(t, m) ==> Followed(s, m))
  }

  lemma NoNewMarks(s: State, t: State, m: nat, p: string)
    requires Inv(s) && Quiet(s, t) && m in s.pushes && CanMark(t, m, p)
    ensures CanMark(s, m, p) && Stamp(t.pushes, m) == Stamp(s.pushes, m)
  {
    assert RowStays(s.pushes, t.pushes, m);
  }

  lemma QuietHolds(s: State, t: State)
    requires Inv(s) && Quiet(s, t)
    ensures forall p, at: nat :: Holds(s.agent, s.pushes, p, at) ==> Holds(t.agent, t.pushes, p, at)
  {
    forall p, at: nat | Holds(s.agent, s.pushes, p, at)
      ensures Holds(t.agent, t.pushes, p, at)
    {
      assert MessageOk(s.agent[p].origin, p, s.agent[p].payload, s.sent, s.pushes);
      assert RowStays(s.pushes, t.pushes, s.agent[p].origin);
    }
  }

  lemma AcceptableIsPushed(s: State, n: nat, m: nat)
    requires Inv(s) && Acceptable(s.link, s.acks, n, m)
    ensures m in s.pushes
  {
    if j :| 0 <= j < n && IsPush(s.link, j, m) {
      assert PushAt(s.link, j, s.link[j].policyId);
      assert MessageOk(m, s.link[j].policyId, s.link[j].payload, s.sent, s.pushes);
    }
  }

  lemma QuietLists(s: State, t: State, p: string, n: nat)
    requires Inv(s) && Quiet(s, t) && t.link == s.link && SyncsBefore(t, p, n)
    ensures SyncsBefore(s, p, n)
  {
    if !t.settings.policies[p].synced {
      var m: nat :| CanMark(t, m, p) && Acceptable(t.link, t.acks, n, m);
      AcceptableIsPushed(s, n, m);
      NoNewMarks(s, t, m, p);
    }
  }

  lemma QuietKept(s: State, t: State)
    requires Inv(s) && SyncInv(s) && Quiet(s, t)
    ensures SyncInv(t)
  {
    QuietHolds(s, t);
    forall m, p | Ack(m, true) in t.acks && CanMark(t, m, p)
      ensures Holds(t.agent, t.pushes, p, Stamp(t.pushes, m))
    {
      NoNewMarks(s, t, m, p);
    }
    forall k: nat, p | Omits(t.link, k, p)
      ensures !SyncsBefore(t, p, k)
    {
      if SyncsBefore(t, p, k) {
        QuietLists(s, t, p, k);
      }
    }
  }

  // ---- Which steps are quiet ------------------------------------------------------------------

  lemma SettingsQuiet(s: State, b: Settings, now: nat)
    requires NothingSynced(s.settings, b, s.now)
    ensures Quiet(s, s.(settings := b, now := now))
  {
  }

  lemma SettingsEventQuiet(s: State, e: Event)
    requires SettingsOk(s.settings, s.now) && IsSettingsEvent(e)
    ensures Quiet(s, Step(s, e))
  {
    SettingsEventIs(s, e);
    match e
    case Tick =>
      SameSettings(s.settings, s.now);
      SettingsQuiet(s, s.settings, s.now + 1);
    case CreatePolicy(id, storageId, content) => CreatePolicyQuiet(s, id, storageId, content);
    case EditPolicy(id, storageId, content) => EditPolicyQuiet(s, id, storageId, content);
    case DeletePolicy(id) =>
      DropNothingSynced(s.settings, s.now, id);
      SettingsQuiet(s, DropPolicy(s.settings, id), s.now);
    case SaveStorage(id, content) =>
      StorageNothingSynced(s.settings, s.now, id, content);
      SettingsQuiet(s, WriteStorage(s.settings, s.now + 1, id, content), s.now + 1);
    case MarkUnsynced =>
      UnsyncNothingSynced(s.settings, s.now);
      SettingsQuiet(s, UnsyncAll(s.settings), s.now);
  }

  lemma DropNothingSynced(g: Settings, now: nat, id: string)
    requires SettingsOk(g, now)
    ensures NothingSynced(g, DropPolicy(g, id), now)
  {
  }

  lemma UnsyncNothingSynced(g: Settings, now: nat)
    requires SettingsOk(g, now)
    ensures NothingSynced(g, UnsyncAll(g), now)
  {
  }

  lemma PolicyNothingSynced(g: Settings, now: nat, id: string, storageId: string, content: int)
    requires SettingsOk(g, now) && (id in g.policies || id !in g.usedIds)
    ensures NothingSynced(g, WritePolicy(g, now + 1, id, storageId, content), now)
  {
  }

  lemma StorageNothingSynced(g: Settings, now: nat, id: string, content: int)
    requires SettingsOk(g, now)
    ensures NothingSynced(g, WriteStorage(g, now + 1, id, content), now)
  {
  }

  lemma WritePolicyQuiet(s: State, id: string, storageId: string, content: int)
    requires SettingsOk(s.settings, s.now) && (id in s.settings.policies || id !in s.settings.usedIds)
    ensures Quiet(s, Write(s, WritePolicy(s.settings, s.now + 1, id, storageId, content)))
  {
    PolicyNothingSynced(s.settings, s.now, id, storageId, content);
    SettingsQuiet(s, WritePolicy(s.settings, s.now + 1, id, storageId, content), s.now + 1);
  }

  lemma SameQuiet(s: State)
    requires SettingsOk(s.settings, s.now)
    ensures Quiet(s, s)
  {
    SameSettings(s.settings, s.now);
  }

  lemma CreatePolicyQuiet(s: State, id: string, storageId: string, content: int)
    requires SettingsOk(s.settings, s.now)
    ensures Quiet(s, Step(s, CreatePolicy(id, storageId, content)))
  {
    PolicyEventIs(s, id, storageId, content);
    if id in s.settings.usedIds || storageId !in s.settings.storages {
      SameQuiet(s);
    } else {
      WritePolicyQuiet(s, id, storageId, content);
    }
  }

  lemma EditPolicyQuiet(s: State, id: string, storageId: string, content: int)
    requires SettingsOk(s.settings, s.now)
    ensures Quiet(s, Step(s, EditPolicy(id, storageId, content)))
  {
    PolicyEventIs(s, id, storageId, content);
    if id !in s.settings.policies || storageId !in s.settings.storages {
      SameQuiet(s);
    } else {
      WritePolicyQuiet(s, id, storageId, content);
    }
  }

  lemma SameSettings(g: Settings, now: nat)
    requires SettingsOk(g, now)
    ensures NothingSynced(g, g, now)
  {
  }

  // A step that leaves the settings alone, and under which no push of before is followed anew.
  ghost predicate Inside(s: State, t: State) {
    && t.agent == s.agent && t.acks == s.acks && (t.link == s.link || t.link == []) && t.settings == s.settings
    && (forall m :: RowStays(s.pushes, t.pushes, m))
    && (forall m :: m in s.pushes && Followed(t, m) ==> Followed(s, m))
  }

  lemma LookInside(s: State)
    requires s.ensuring.PolicyRead? && s.nextMessage !in s.pushes
    ensures Inside(s, Look(s, s.ensuring.policyId, s.ensuring.policy))
  {
  }

  lemma RetireInside(s: State, c: Current)
    ensures Inside(s, Retire(s, c))
  {
  }

  lemma CreateInside(s: State, c: Current)
    requires c.messageId !in s.pushes
    ensures Inside(s, CreatePush(s, c))
  {
  }

  lemma SameInside(s: State, t: State)
    requires t == s.(ensuring := t.ensuring, dispatching := t.dispatching)
    ensures Inside(s, t)
  {
  }

  lemma EnsureEventInside(s: State, e: Event)
    requires Inv(s) && IsEnsureEvent(e)
    ensures Inside(s, Step(s, e))
  {
    EnsureEventIs(s, e);
    if e.EnsureLook? && s.ensuring.PolicyRead? {
      LookInside(s);
    } else if e.EnsureRetire? && s.ensuring.Looked? {
      RetireInside(s, s.ensuring.current);
    } else if e.EnsureCreate? && s.ensuring.NothingActive? {
      CreateInside(s, s.ensuring.current);
    } else {
      SameInside(s, Step(s, e));
    }
  }

  lemma RecordInside(s: State, todo: seq<nat>)
    requires todo != []
    ensures Inside(s, Record(s, todo))
  {
  }

  lemma RollbackInside(s: State, id: nat, todo: seq<nat>)
    ensures Inside(s, Rollback(s, id, todo))
  {
  }

  lemma DispatchEventInside(s: State, e: Event)
    requires IsDispatchEvent(e) && !(e.SendNext? && s.dispatching.Sending?)
    ensures Inside(s, Step(s, e))
  {
    DispatchEventIs(s, e);
    if e.RecordNext? && s.dispatching.Listed? && s.dispatching.todo != [] {
      RecordInside(s, s.dispatching.todo);
    } else if e.RollbackNext? && s.dispatching.RollingBack? {
      RollbackInside(s, s.dispatching.id, s.dispatching.todo);
    } else {
      SameInside(s, Step(s, e));
    }
  }

  lemma EndEventInside(s: State, e: Event)
    requires e.RetireAll? || e.EndPush?
    ensures Inside(s, Step(s, e))
  {
    EndEventIs(s, e);
  }

  lemma LinkEventInside(s: State, e: Event)
    requires IsLinkEvent(e) && !(e.SendReconcile? && s.online && e.policyIds in s.lists)
    ensures Inside(s, Step(s, e))
  {
    LinkEventIs(s, e);
  }

  lemma FindPushInside(s: State, m: nat, success: bool)
    ensures Inside(s, FindPush(s, m, success))
  {
  }

  lemma CompleteAckInside(s: State, f: Finding)
    requires FindingsOk(s.findings, s.acks, s.pushes) && f in s.findings
    ensures Inside(s, CompleteAck(s, f))
  {
    CompleteAckIs(s, f);
    var t := CompleteAck(s, f);
    StatusRowsStay(s.pushes, t.pushes);
    forall m | m in s.pushes && Followed(t, m)
      ensures Followed(s, m)
    {
      if m == f.messageId && f.success && f.tracked.Some? {
        assert TrackedOk(f.tracked.value, m, s.pushes);
        assert f == FindingOf(s.pushes, m);
      }
    }
  }

  lemma StatusRowsStay(a: Pushes, b: Pushes)
    requires StatusStep(a, b)
    ensures forall m :: RowStays(a, b, m) && (IsActive(b, m) ==> IsActive(a, m))
    ensures forall m :: m in a ==> FindingOf(b, m) == FindingOf(a, m)
  {
  }

  lemma InsideKept(s: State, t: State)
    requires Inv(s) && SyncInv(s) && Inside(s, t)
    ensures SyncInv(t)
  {
    SameSettings(s.settings, s.now);
    QuietKept(s, t);
  }

  // ---- The other steps ------------------------------------------------------------------------

  // A push goes out behind every list.
  lemma SendSyncKept(s: State, delivered: bool)
    requires Inv(s) && SyncInv(s) && s.dispatching.Sending?
    ensures SyncInv(Send(s, s.dispatching.id, s.dispatching.todo, delivered))
  {
    var t := Send(s, s.dispatching.id, s.dispatching.todo, delivered);
    forall k: nat, p | Omits(t.link, k, p)
      ensures !SyncsBefore(t, p, k)
    {
      assert Omits(s.link, k, p);
      if SyncsBefore(t, p, k) {
        ShorterLink(s, t, p, k);
      }
    }
    assert forall m, p :: CanMark(t, m, p) ==> CanMark(s, m, p);
  }

  // What may happen before position `k` does not depend on what comes behind it.
  lemma ShorterLink(s: State, t: State, p: string, k: nat)
    requires s.link <= t.link && k <= |s.link| && t.acks == s.acks && t.settings == s.settings
    requires t.pushes == s.pushes && t.tracker == s.tracker && t.findings == s.findings && t.acked == s.acked
    requires SyncsBefore(t, p, k)
    ensures SyncsBefore(s, p, k)
  {
    if !t.settings.policies[p].synced {
      var m: nat :| CanMark(t, m, p) && Acceptable(t.link, t.acks, k, m);
      assert CanMark(s, m, p);
      if j :| 0 <= j < k && IsPush(t.link, j, m) {
        assert IsPush(s.link, j, m);
      }
      assert Acceptable(s.link, s.acks, k, m);
    }
  }

  // A safe list joins the link.
  lemma ListSyncKept(s: State, ids: set<string>)
    requires Inv(s) && SyncInv(s) && s.online && SafeList(s, ids)
    ensures SyncInv(Reconcile(s, ids))
  {
    var t := Reconcile(s, ids);
    forall k: nat, p | Omits(t.link, k, p)
      ensures !SyncsBefore(t, p, k)
    {
      assert k < |s.link| ==> Omits(s.link, k, p);
      if SyncsBefore(t, p, k) {
        ShorterLink(s, t, p, k);
      }
    }
    assert forall m, p :: CanMark(t, m, p) ==> CanMark(s, m, p);
  }

  lemma ReceiveListKept(s: State)
    requires Inv(s) && SyncInv(s) && s.link != [] && s.link[0].ReconcileMessage?
    ensures SyncInv(Receive(s, true)) && Receive(s, false) == Receive(s, true)
  {
    var t, ids := Receive(s, true), s.link[0].policyIds;
    forall p, at: nat | p in s.settings.policies && SyncsBefore(s, p, 0) && Holds(s.agent, s.pushes, p, at)
      ensures Holds(t.agent, t.pushes, p, at)
    {
      assert p !in ids ==> Omits(s.link, 0, p);
    }
    forall p | p in s.settings.policies && s.settings.policies[p].synced
      ensures SyncsBefore(s, p, 0)
    {
    }
    forall m, p | Ack(m, true) in t.acks && CanMark(t, m, p)
      ensures Holds(t.agent, t.pushes, p, Stamp(t.pushes, m))
    {
      assert CanMark(s, m, p) && Acceptable(s.link, s.acks, 0, m);
    }
    ReceiveLists(s, t);
  }

  lemma ReceiveLists(s: State, t: State)
    requires ListsOk(s) && s.link != [] && t.link == s.link[1..] && t.settings == s.settings
    requires t.pushes == s.pushes && t.tracker == s.tracker && t.findings == s.findings && t.acked == s.acked
    requires forall m :: Ack(m, true) in t.acks ==> Ack(m, true) in s.acks || IsPush(s.link, 0, m)
    ensures ListsOk(t)
  {
    forall k: nat, p | Omits(t.link, k, p)
      ensures !SyncsBefore(t, p, k)
    {
      assert Omits(s.link, k + 1, p);
      if SyncsBefore(t, p, k) {
        EarlierByOne(s, t, p, k);
      }
    }
  }

  lemma EarlierByOne(s: State, t: State, p: string, k: nat)
    requires s.link != [] && t.link == s.link[1..] && t.settings == s.settings
    requires t.pushes == s.pushes && t.tracker == s.tracker && t.findings == s.findings && t.acked == s.acked
    requires forall m :: Ack(m, true) in t.acks ==> Ack(m, true) in s.acks || IsPush(s.link, 0, m)
    requires SyncsBefore(t, p, k)
    ensures SyncsBefore(s, p, k + 1)
  {
    if !t.settings.policies[p].synced {
      var m: nat :| CanMark(t, m, p) && Acceptable(t.link, t.acks, k, m);
      assert CanMark(s, m, p);
      if j :| 0 <= j < k && IsPush(t.link, j, m) {
        assert IsPush(s.link, j + 1, m);
      }
      assert Acceptable(s.link, s.acks, k + 1, m);
    }
  }

  lemma ReceivePushSyncKept(s: State, accepted: bool)
    requires Inv(s) && SyncInv(s) && s.link != [] && s.link[0].PushMessage?
    ensures SyncInv(Receive(s, accepted))
  {
    var t := Receive(s, accepted);
    var m, q := s.link[0].messageId, s.link[0].policyId;
    assert PushAt(s.link, 0, q) && MessageOk(m, q, s.link[0].payload, s.sent, s.pushes);
    forall p, at: nat | Holds(s.agent, s.pushes, p, at)
      ensures Holds(t.agent, t.pushes, p, at)
    {
    }
    forall n, p | Ack(n, true) in t.acks && CanMark(t, n, p)
      ensures Holds(t.agent, t.pushes, p, Stamp(t.pushes, n))
    {
      assert CanMark(s, n, p);
    }
    assert IsPush(s.link, 0, m);
    ReceiveLists(s, t);
  }

  // Marking a policy synced: the agent has it, and no list under way leaves it out.
  lemma MarkSyncKept(s: State, m: nat)
    requires Inv(s) && SyncInv(s) && m in s.acked
    ensures SyncInv(MarkSynced(s, m))
  {
    MarkSyncedIs(s, m);
    ForgetKept(s, m);
    var forgot := Forget(s, m);
    ForgetInside(s, m);
    InsideKept(s, forgot);
    if Marks(s, s.acked[m]) {
      var p := s.acked[m].policyId;
      MarkedIsUnderWay(s, m, p);
      SyncedLists(s, forgot, p);
    }
  }

  lemma ForgetInside(s: State, m: nat)
    ensures Inside(s, Forget(s, m))
  {
  }

  lemma MarkedIsUnderWay(s: State, m: nat, p: string)
    requires Inv(s) && SyncInv(s) && m in s.acked && Marks(s, s.acked[m]) && s.acked[m].policyId == p
    ensures Holds(s.agent, s.pushes, p, s.settings.policies[p].updatedAt)
    ensures forall k: nat :: k <= |s.link| ==> SyncsBefore(s, p, k)
  {
    assert Ack(m, true) in s.acks && TrackedOk(s.acked[m], m, s.pushes);
    assert CanMark(s, m, p);
    forall k: nat | k <= |s.link|
      ensures SyncsBefore(s, p, k)
    {
      assert Acceptable(s.link, s.acks, k, m);
    }
  }

  lemma SyncedLists(s: State, forgot: State, p: string)
    requires Inv(forgot) && SyncInv(forgot) && p in forgot.settings.policies && ListsOk(s) && forgot.link == s.link
    requires forgot.settings == s.settings && forgot.now == s.now
    requires forall k: nat :: k <= |s.link| ==> SyncsBefore(s, p, k)
    requires Holds(forgot.agent, forgot.pushes, p, forgot.settings.policies[p].updatedAt)
    ensures SyncInv(Write(forgot, SyncPolicy(s.settings, s.now + 1, p)))
  {
    var t := Write(forgot, SyncPolicy(s.settings, s.now + 1, p));
    forall n, q | CanMark(t, n, q)
      ensures CanMark(forgot, n, q)
    {
      assert q != p;
    }
    forall k: nat, q | Omits(t.link, k, q)
      ensures !SyncsBefore(t, q, k)
    {
      assert !SyncsBefore(s, q, k) && !SyncsBefore(forgot, q, k);
    }
  }

  lemma AgentSyncKept(s: State, accepted: bool)
    requires Inv(s) && SyncInv(s) && s.link != []
    ensures SyncInv(Receive(s, accepted))
  {
    if s.link[0].PushMessage? {
      ReceivePushSyncKept(s, accepted);
    } else {
      ReceiveListKept(s);
    }
  }

  lemma ReceiveEventIs(s: State, e: Event)
    ensures e.AgentReceives? ==> Step(s, e) == if s.link != [] then Receive(s, e.accepted) else s
  {
  }

  lemma AckSyncKept(s: State, e: Event)
    requires Inv(s) && SyncInv(s) && IsAckEvent(e)
    ensures SyncInv(Step(s, e))
  {
    AckEventIs(s, e);
    if e.AckArrives? && Ack(e.messageId, e.success) in s.acks {
      FindPushInside(s, e.messageId, e.success);
      InsideKept(s, FindPush(s, e.messageId, e.success));
    } else if e.AckCompletes? && e.finding in s.findings {
      CompleteAckInside(s, e.finding);
      InsideKept(s, CompleteAck(s, e.finding));
    } else if e.AckMarks? && e.messageId in s.acked {
      MarkSyncKept(s, e.messageId);
    }
  }

  lemma WireSyncKept(s: State, e: Event)
    requires Inv(s) && SyncInv(s) && (e.AgentReceives? || IsAckEvent(e))
    ensures SyncInv(Step(s, e))
  {
    if e.AgentReceives? {
      ReceiveEventIs(s, e);
      if s.link != [] {
        AgentSyncKept(s, e.accepted);
      }
    } else {
      AckSyncKept(s, e);
    }
  }

  lemma DispatchSyncKept(s: State, e: Event)
    requires Inv(s) && SyncInv(s) && IsDispatchEvent(e)
    ensures SyncInv(Step(s, e))
  {
    DispatchEventIs(s, e);
    if e.SendNext? && s.dispatching.Sending? {
      SendSyncKept(s, e.delivered);
    } else {
      DispatchEventInside(s, e);
      InsideKept(s, Step(s, e));
    }
  }

  lemma LinkSyncKept(s: State, e: Event)
    requires Inv(s) && SyncInv(s) && IsLinkEvent(e) && Safe(s, e)
    ensures SyncInv(Step(s, e))
  {
    LinkEventIs(s, e);
    if e.SendReconcile? && s.online && e.policyIds in s.lists {
      ListSyncKept(s, e.policyIds);
    } else {
      LinkEventInside(s, e);
      InsideKept(s, Step(s, e));
    }
  }

  lemma SyncStepKept(s: State, e: Event)
    requires Inv(s) && SyncInv(s) && Safe(s, e)
    ensures SyncInv(Step(s, e))
  {
    if IsSettingsEvent(e) {
      SettingsEventQuiet(s, e);
      QuietKept(s, Step(s, e));
    } else if IsEnsureEvent(e) {
      EnsureEventInside(s, e);
      InsideKept(s, Step(s, e));
    } else if IsDispatchEvent(e) {
      DispatchSyncKept(s, e);
    } else if e.RetireAll? || e.EndPush? {
      EndEventInside(s, e);
      InsideKept(s, Step(s, e));
    } else if IsLinkEvent(e) {
      LinkSyncKept(s, e);
    } else {
      WireSyncKept(s, e);
    }
  }

  // ---- Runs ----------------------------------------------------------------------------------

  lemma {:induction false} StepsJoin(s: State, a: seq<Event>, b: seq<Event>)
    ensures Steps(s, a + b) == Steps(Steps(s, a), b)
    decreases |b|
  {
    if b == [] {
      assert a + b == a;
    } else {
      StepsJoin(s, a, b[..|b| - 1]);
      assert (a + b)[..|a + b| - 1] == a + b[..|b| - 1];
    }
  }

  lemma OneStep(s: State, e: Event)
    ensures Steps(s, [e]) == Step(s, e)
  {
    assert [e][..0] == [];
    assert Steps(s, []) == s;
  }

  lemma {:induction false} SafeRunKept(s: State, run: seq<Event>)
    requires Inv(s) && SyncInv(s) && SafeRun(s, run)
    ensures Inv(Steps(s, run)) && SyncInv(Steps(s, run))
  {
    if run != [] {
      SafeRunKept(s, run[..|run| - 1]);
      StepKept(Steps(s, run[..|run| - 1]), run[|run| - 1]);
      SyncStepKept(Steps(s, run[..|run| - 1]), run[|run| - 1]);
    }
  }
}
