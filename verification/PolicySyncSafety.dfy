/** What every run of policy synchronisation keeps, whatever lists are sent for reconciliation. */
module PolicySyncSafety {
  import opened PolicySyncModel
  import opened Wrappers

  // ---- Vocabulary ----------------------------------------------------------------------------

  // The reading of the clock that a push was made from.
  function Stamp(pushes: Pushes, m: nat): nat { if m in pushes then pushes[m].updatedAt else 0 }

  // `m` is a push of policy `p`.
  predicate Of(pushes: Pushes, m: nat, p: string) { m in pushes && pushes[m].policyId == p }

  predicate SamePolicy(pushes: Pushes, m: nat, n: nat) {
    m in pushes && n in pushes && pushes[m].policyId == pushes[n].policyId
  }

  predicate IsActive(pushes: Pushes, m: nat) { m in pushes && pushes[m].status.Active() }

  // Active, with time left.
  predicate IsLive(pushes: Pushes, m: nat, now: nat) { IsActive(pushes, m) && pushes[m].deadlineAt > now }

  // The settings of policy `p` have not changed since the reading `t`.
  predicate Since(g: Settings, p: string, t: nat) {
    p in g.policies && p in g.contentAt && g.policies[p].storageId in g.storages && g.contentAt[p] <= t
  }

  // The agent holds a copy of policy `p` at least as recent as the reading `t`.
  predicate Holds(agent: map<string, AgentCopy>, pushes: Pushes, p: string, t: nat) {
    p in agent && t <= Stamp(pushes, agent[p].origin)
  }

  // The message at position `k` of the link is a push of policy `p`.
  predicate PushAt(link: seq<Message>, k: int, p: string) {
    0 <= k < |link| && link[k].PushMessage? && link[k].policyId == p
  }

  // ---- The invariant -------------------------------------------------------------------------

  ghost predicate SettingsOk(g: Settings, now: nat) {
    && g.contentAt.Keys == g.policies.Keys
    && g.policies.Keys <= g.usedIds
    && (forall p :: p in g.policies ==> g.contentAt[p] <= g.policies[p].updatedAt <= now)
    && (forall p :: p in g.policies ==> g.policies[p].storageId in g.storages)
  }

  ghost predicate PushesOk(pushes: Pushes, g: Settings, now: nat, nextMessage: nat) {
    && (forall m :: m in pushes ==> m < nextMessage && pushes[m].updatedAt <= now && pushes[m].policyId in g.usedIds)
    && (forall m, p :: p in g.policies && Of(pushes, m, p) ==> Stamp(pushes, m) <= g.policies[p].updatedAt)
    // A push made since a policy's settings last changed carries the present settings.
    && (forall m, p :: Of(pushes, m, p) && Since(g, p, Stamp(pushes, m)) ==> pushes[m].payload == CurrentContent(g, p))
  }

  // The policy being prepared was read no earlier than any push of it was made.
  ghost predicate ReadOk(id: string, policy: Policy, pushes: Pushes, g: Settings, now: nat) {
    && id in g.usedIds && policy.updatedAt <= now
    && (id in g.policies ==> policy.updatedAt <= g.policies[id].updatedAt)
    && (forall m :: Of(pushes, m, id) ==> Stamp(pushes, m) <= policy.updatedAt)
    && (Since(g, id, policy.updatedAt) ==>
          policy.storageId == g.policies[id].storageId && policy.content == g.policies[id].content)
  }

  ghost predicate CurrentOk(c: Current, pushes: Pushes, g: Settings, now: nat, nextMessage: nat) {
    && c.policyId in g.usedIds && c.updatedAt <= now && c.now <= now
    && c.messageId < nextMessage && c.messageId !in pushes
    && (c.policyId in g.policies ==> c.updatedAt <= g.policies[c.policyId].updatedAt)
    && (forall m :: Of(pushes, m, c.policyId) ==> Stamp(pushes, m) <= c.updatedAt)
    && (Since(g, c.policyId, c.updatedAt) ==> c.payload == CurrentContent(g, c.policyId))
  }

  ghost predicate OnlyCurrentActive(pushes: Pushes, c: Current) {
    forall m :: IsActive(pushes, m) && Of(pushes, m, c.policyId) ==>
      pushes[m].storageId == c.storageId && Stamp(pushes, m) == c.updatedAt
  }

  ghost predicate NoneLive(pushes: Pushes, c: Current) {
    forall m :: IsActive(pushes, m) && Of(pushes, m, c.policyId) ==> pushes[m].deadlineAt <= c.now
  }

  ghost predicate EnsuringOk(e: Ensuring, pushes: Pushes, g: Settings, now: nat, nextMessage: nat) {
    match e
    case NotEnsuring => true
    case PolicyRead(id, policy) => ReadOk(id, policy, pushes, g, now)
    case Looked(c) => CurrentOk(c, pushes, g, now, nextMessage)
    case Retired(c) => CurrentOk(c, pushes, g, now, nextMessage) && OnlyCurrentActive(pushes, c)
    case NothingActive(c) =>
      CurrentOk(c, pushes, g, now, nextMessage) && OnlyCurrentActive(pushes, c) && NoneLive(pushes, c)
  }

  // The active pushes of a policy are the latest ones, and at most one of them has time left.
  ghost predicate OneLive(pushes: Pushes, now: nat) {
    && (forall m, n :: IsActive(pushes, m) && SamePolicy(pushes, m, n) ==> Stamp(pushes, n) <= Stamp(pushes, m))
    && (forall m, n :: IsLive(pushes, m, now) && IsLive(pushes, n, now) && SamePolicy(pushes, m, n) ==> m == n)
  }

  // The pushes of one policy go out in the order of their readings.
  ghost predicate InOrder(sent: seq<nat>, pushes: Pushes) {
    && (forall k :: 0 <= k < |sent| ==> sent[k] in pushes)
    && (forall j, k :: 0 <= j < k < |sent| && SamePolicy(pushes, sent[j], sent[k]) ==>
          Stamp(pushes, sent[j]) <= Stamp(pushes, sent[k]))
  }

  ghost predicate SendingOk(d: Dispatching, sent: seq<nat>, pushes: Pushes) {
    d.Sending? ==>
      d.id in pushes
      && forall k :: 0 <= k < |sent| && SamePolicy(pushes, sent[k], d.id) ==> Stamp(pushes, sent[k]) <= Stamp(pushes, d.id)
  }

  ghost predicate MessageOk(m: nat, p: string, payload: Content, sent: seq<nat>, pushes: Pushes) {
    m in sent && Of(pushes, m, p) && pushes[m].payload == payload
  }

  // What is under way came from pushes that were sent, and arrives in their order.
  ghost predicate LinkOk(link: seq<Message>, sent: seq<nat>, pushes: Pushes) {
    && (forall k, p :: PushAt(link, k, p) ==> MessageOk(link[k].messageId, p, link[k].payload, sent, pushes))
    && (forall j, k, p :: j < k && PushAt(link, j, p) && PushAt(link, k, p) ==>
          Stamp(pushes, link[j].messageId) <= Stamp(pushes, link[k].messageId))
  }

  // So did what the agent holds; nothing older is still under way.
  ghost predicate AgentOk(agent: map<string, AgentCopy>, link: seq<Message>, sent: seq<nat>, pushes: Pushes) {
    && (forall p :: p in agent ==> MessageOk(agent[p].origin, p, agent[p].payload, sent, pushes))
    && (forall k, p :: p in agent && PushAt(link, k, p) ==> Stamp(pushes, agent[p].origin) <= Stamp(pushes, link[k].messageId))
  }

  // A message's entry in the tracker, or in the acknowledgements at work, is about its push.
  ghost predicate TrackedOk(t: Tracked, m: nat, pushes: Pushes) {
    m in pushes ==> t == Tracked(pushes[m].policyId, pushes[m].updatedAt)
  }

  ghost predicate TrackerOk(tracker: map<nat, Tracked>, e: Ensuring, pushes: Pushes, nextMessage: nat) {
    && (forall m :: m in tracker ==> m < nextMessage && TrackedOk(tracker[m], m, pushes))
    && (e.Looked? || e.Retired? || e.NothingActive? ==>
          e.current.messageId in tracker ==> tracker[e.current.messageId] == Tracked(e.current.policyId, e.current.updatedAt))
  }

  ghost predicate AcksOk(acks: set<Ack>, pushes: Pushes) { forall a :: a in acks ==> a.messageId in pushes }

  ghost predicate FindingsOk(findings: multiset<Finding>, acks: set<Ack>, pushes: Pushes) {
    forall f :: f in findings ==>
      Ack(f.messageId, f.success) in acks && (f.tracked.Some? ==> TrackedOk(f.tracked.value, f.messageId, pushes))
  }

  ghost predicate AckedOk(acked: map<nat, Tracked>, acks: set<Ack>, pushes: Pushes) {
    forall m :: m in acked ==> Ack(m, true) in acks && TrackedOk(acked[m], m, pushes)
  }

  ghost predicate Inv(s: State) {
    && SettingsOk(s.settings, s.now)
    && PushesOk(s.pushes, s.settings, s.now, s.nextMessage)
    && EnsuringOk(s.ensuring, s.pushes, s.settings, s.now, s.nextMessage)
    && OneLive(s.pushes, s.now)
    && InOrder(s.sent, s.pushes)
    && SendingOk(s.dispatching, s.sent, s.pushes)
    && LinkOk(s.link, s.sent, s.pushes)
    && AgentOk(s.agent, s.link, s.sent, s.pushes)
    && TrackerOk(s.tracker, s.ensuring, s.pushes, s.nextMessage)
    && AcksOk(s.acks, s.pushes)
    && FindingsOk(s.findings, s.acks, s.pushes)
    && AckedOk(s.acked, s.acks, s.pushes)
  }
}
