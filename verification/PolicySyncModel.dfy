/**
 How the policies of one agent reach it: policy and storage rows, durable push commands, the push
 tracker, the link to the agent, the agent's own store, and the acknowledgements that come back.

 Every event is one transaction, one send or one read made under no common lock, so that any
 interleaving of the handlers is a run; what a handler does to the tracker goes with its
 transaction. `updated_at` is a reading of the clock that every write advances. The link delivers
 in order and may lose what it holds when it goes down; an acknowledgement may be handled late,
 often, or never.
 */
module PolicySyncModel {
  import opened Wrappers

  const PUSH_TTL := 5 * 60

  // What a push carries: the settings of a policy and those of its storage.
  datatype Content = Content(policy: int, storage: int)

  datatype Policy = Policy(storageId: string, content: int, synced: bool, updatedAt: nat)

  datatype PushStatus = Pending | Dispatched | Succeeded | Failed | Timeout | Cancelled {
    predicate Active() { Pending? || Dispatched? }
  }

  datatype Push = Push(policyId: string, storageId: string, updatedAt: nat, payload: Content, status: PushStatus, deadlineAt: nat)

  datatype Tracked = Tracked(policyId: string, updatedAt: nat)

  datatype Message =
    | PushMessage(messageId: nat, policyId: string, payload: Content)
    | ReconcileMessage(policyIds: set<string>)

  // The agent's copy of a policy and the message it came from.
  datatype AgentCopy = AgentCopy(payload: Content, origin: nat)

  datatype Ack = Ack(messageId: nat, success: bool)

  // An acknowledgement at work, and what it was found to be about.
  datatype Finding = Finding(messageId: nat, success: bool, tracked: Option<Tracked>)

  // The policy a push is being prepared for.
  datatype Current = Current(messageId: nat, policyId: string, storageId: string, updatedAt: nat, payload: Content, now: nat)

  // How far the holder of the pusher's lock has come.
  datatype Ensuring =
    | NotEnsuring
    | PolicyRead(policyId: string, policy: Policy)
    | Looked(current: Current)
    | Retired(current: Current)
    | NothingActive(current: Current)

  // How far the holder of the dispatch lock has come.
  datatype Dispatching =
    | Idle
    | Listed(todo: seq<nat>)
    | Sending(id: nat, todo: seq<nat>)
    | RollingBack(id: nat, todo: seq<nat>)

  // The policy and storage rows. `contentAt` notes when a policy's settings, or those of its
  // storage, last changed; `usedIds` are the policy ids handed out so far.
  datatype Settings = Settings(
    policies: map<string, Policy>,
    contentAt: map<string, nat>,
    usedIds: set<string>,
    storages: map<string, int>)

  type Pushes = map<nat, Push>

  // A push's key is its message id; `sent` lists the pushes that went out, `lists` the policy lists
  // that were read for a reconciliation and not yet sent. Of the acknowledgements at work, `findings`
  // holds those whose command is not yet completed, `acked` those whose policy is not yet marked.
  datatype State = State(
    now: nat,
    settings: Settings,
    pushes: Pushes,
    nextMessage: nat,
    tracker: map<nat, Tracked>,
    ensuring: Ensuring,
    dispatching: Dispatching,
    lists: multiset<set<string>>,
    online: bool,
    link: seq<Message>,
    agent: map<string, AgentCopy>,
    acks: set<Ack>,
    findings: multiset<Finding>,
    acked: map<nat, Tracked>,
    sent: seq<nat>)

  const INITIAL := State(0, Settings(map[], map[], {}, map[]), map[], 0, map[], NotEnsuring, Idle, multiset{}, false, [], map[], {}, multiset{}, map[], [])

  datatype Event =
    | Tick
    | CreatePolicy(id: string, storageId: string, content: int)
    | EditPolicy(id: string, storageId: string, content: int)
    | DeletePolicy(id: string)
    | SaveStorage(id: string, content: int)
    | Connect
    | Disconnect
    | MarkUnsynced
    | ReadReconcile
    | SendReconcile(policyIds: set<string>)
    | Restart
    | EnsureRead(id: string)
    | EnsureLook
    | EnsureRetire
    | EnsureCheck
    | EnsureCreate
    | RetireAll
    | ListPushes(todo: seq<nat>)
    | RecordNext
    | SendNext(delivered: bool)
    | RollbackNext
    | EndPush(messageId: nat, cancelled: bool)
    | AgentReceives(accepted: bool)
    | AckArrives(messageId: nat, success: bool)
    | AckCompletes(finding: Finding)
    | AckMarks(messageId: nat)

  // ---- Settings ------------------------------------------------------------------------------

  // The settings a policy has now.
  function CurrentContent(g: Settings, id: string): Content
    requires id in g.policies && g.policies[id].storageId in g.storages
  {
    Content(g.policies[id].content, g.storages[g.policies[id].storageId])
  }

  function WritePolicy(g: Settings, now: nat, id: string, storageId: string, content: int): Settings {
    g.(policies := g.policies[id := Policy(storageId, content, false, now)],
       contentAt := g.contentAt[id := now],
       usedIds := g.usedIds + {id})
  }

  predicate Uses(g: Settings, id: string, storageId: string) { id in g.policies && g.policies[id].storageId == storageId }

  // Storage settings are saved, and the policies that use them marked, in one transaction.
  function WriteStorage(g: Settings, now: nat, id: string, content: int): Settings {
    g.(storages := g.storages[id := content],
       policies := map p | p in g.policies ::
                     if g.policies[p].storageId == id then g.policies[p].(synced := false, updatedAt := now) else g.policies[p],
       contentAt := map p | p in g.contentAt :: if Uses(g, p, id) then now else g.contentAt[p])
  }

  function DropPolicy(g: Settings, id: string): Settings {
    g.(policies := g.policies - {id}, contentAt := g.contentAt - {id})
  }

  function UnsyncAll(g: Settings): Settings {
    g.(policies := map p | p in g.policies :: g.policies[p].(synced := false))
  }

  function SyncPolicy(g: Settings, now: nat, id: string): Settings
    requires id in g.policies
  {
    g.(policies := g.policies[id := g.policies[id].(synced := true, updatedAt := now)])
  }

  // A row is written with a fresh reading of the clock.
  function Write(s: State, g: Settings): State { s.(now := s.now + 1, settings := g) }

  // ---- The pusher ----------------------------------------------------------------------------

  // The unsynced policy that changed last.
  predicate IsCurrent(policies: map<string, Policy>, id: string) {
    id in policies && !policies[id].synced
    && forall q :: q in policies && !policies[q].synced ==> policies[q].updatedAt <= policies[id].updatedAt
  }

  function Look(s: State, id: string, policy: Policy): State {
    if policy.storageId !in s.settings.storages then s.(ensuring := NotEnsuring)
    else
      var m := s.nextMessage;
      s.(nextMessage := m + 1,
         tracker := s.tracker[m := Tracked(id, policy.updatedAt)],
         ensuring := Looked(Current(m, id, policy.storageId, policy.updatedAt,
                                    Content(policy.content, s.settings.storages[policy.storageId]), s.now)))
  }

  predicate Superseded(p: Push, c: Current) {
    p.status.Active() && p.policyId == c.policyId && (p.storageId != c.storageId || p.updatedAt != c.updatedAt)
  }

  function RetireSuperseded(pushes: Pushes, c: Current): Pushes {
    map m | m in pushes :: if Superseded(pushes[m], c) then pushes[m].(status := Failed) else pushes[m]
  }

  function RetireActive(pushes: Pushes): Pushes {
    map m | m in pushes :: if pushes[m].status.Active() then pushes[m].(status := Failed) else pushes[m]
  }

  predicate HasActivePush(pushes: Pushes, c: Current) {
    exists m :: m in pushes && pushes[m].status.Active() && pushes[m].policyId == c.policyId
      && pushes[m].storageId == c.storageId && pushes[m].updatedAt == c.updatedAt && pushes[m].deadlineAt > c.now
  }

  function CreatePush(s: State, c: Current): State {
    s.(pushes := s.pushes[c.messageId := Push(c.policyId, c.storageId, c.updatedAt, c.payload, Pending, s.now + PUSH_TTL)],
       ensuring := NotEnsuring)
  }

  // ---- Dispatching ---------------------------------------------------------------------------

  function SetStatus(s: State, id: nat, status: PushStatus): State
    requires id in s.pushes
  {
    s.(pushes := s.pushes[id := s.pushes[id].(status := status)])
  }

  function Record(s: State, todo: seq<nat>): State
    requires todo != []
  {
    var id := todo[0];
    if id !in s.pushes || !s.pushes[id].status.Active() then s.(dispatching := Listed(todo[1..]))
    else SetStatus(s, id, Dispatched).(dispatching := Sending(id, todo[1..]))
  }

  function Send(s: State, id: nat, todo: seq<nat>, delivered: bool): State {
    if id in s.pushes && delivered && s.online then
      s.(link := s.link + [PushMessage(id, s.pushes[id].policyId, s.pushes[id].payload)],
         sent := s.sent + [id],
         dispatching := Listed(todo))
    else s.(dispatching := RollingBack(id, todo))
  }

  function Rollback(s: State, id: nat, todo: seq<nat>): State {
    var moved := s.(dispatching := Listed(todo));
    if id in s.pushes && s.pushes[id].status.Active() then SetStatus(moved, id, Pending) else moved
  }

  // ---- Reconciling and restarting ------------------------------------------------------------

  // A list that was read is sent, or lost when the agent is not connected.
  function Reconcile(s: State, ids: set<string>): State {
    var taken := s.(lists := s.lists - multiset{ids});
    if s.online then taken.(link := s.link + [ReconcileMessage(ids)]) else taken
  }

  // The master starts anew: the rows stand, and everything it held in memory is gone.
  function Restarted(s: State): State {
    s.(tracker := map[], findings := multiset{}, acked := map[], ensuring := NotEnsuring, dispatching := Idle,
       lists := multiset{}, online := false, link := [])
  }

  // ---- The agent -----------------------------------------------------------------------------

  function Receive(s: State, accepted: bool): State
    requires s.link != []
  {
    var rest := s.(link := s.link[1..]);
    match s.link[0]
    case PushMessage(m, id, payload) =>
      rest.(agent := if accepted then s.agent[id := AgentCopy(payload, m)] else s.agent,
            acks := s.acks + {Ack(m, accepted)})
    case ReconcileMessage(ids) =>
      rest.(agent := map p | p in s.agent && p in ids :: s.agent[p])
  }

  // ---- Acknowledgements ----------------------------------------------------------------------

  // The push an acknowledgement is about: from the tracker, or else from its active command.
  function TrackedPush(s: State, m: nat): Option<Tracked> {
    if m in s.tracker then Some(s.tracker[m])
    else if m in s.pushes && s.pushes[m].status.Active() then Some(Tracked(s.pushes[m].policyId, s.pushes[m].updatedAt))
    else None
  }

  // First what the acknowledgement is about is looked up.
  function FindPush(s: State, m: nat, success: bool): State {
    s.(findings := s.findings + multiset{Finding(m, success, TrackedPush(s, m))})
  }

  function CompletePush(s: State, m: nat, success: bool): State {
    if m in s.pushes && s.pushes[m].status.Active() then SetStatus(s, m, if success then Succeeded else Failed) else s
  }

  // Then its command is completed.
  function CompleteAck(s: State, f: Finding): State {
    var done := CompletePush(s.(findings := s.findings - multiset{f}), f.messageId, f.success);
    if f.tracked.None? then done
    else if f.success then done.(acked := s.acked[f.messageId := f.tracked.value])
    else done.(tracker := s.tracker - {f.messageId})
  }

  // At last the policy is marked synced, if it is still the one that was pushed.
  function MarkSynced(s: State, m: nat): State
    requires m in s.acked
  {
    var t := s.acked[m];
    var done := s.(acked := s.acked - {m}, tracker := s.tracker - {m});
    if t.policyId in s.settings.policies && !s.settings.policies[t.policyId].synced
       && s.settings.policies[t.policyId].updatedAt == t.updatedAt
    then Write(done, SyncPolicy(s.settings, s.now + 1, t.policyId))
    else done
  }

  // ---- Steps ---------------------------------------------------------------------------------

  function Step(s: State, e: Event): State {
    match e
    case Tick => s.(now := s.now + 1)
    case CreatePolicy(id, storageId, content) =>
      if id in s.settings.usedIds || storageId !in s.settings.storages then s
      else Write(s, WritePolicy(s.settings, s.now + 1, id, storageId, content))
    case EditPolicy(id, storageId, content) =>
      if id !in s.settings.policies || storageId !in s.settings.storages then s
      else Write(s, WritePolicy(s.settings, s.now + 1, id, storageId, content))
    case DeletePolicy(id) => s.(settings := DropPolicy(s.settings, id))
    case SaveStorage(id, content) => Write(s, WriteStorage(s.settings, s.now + 1, id, content))
    case Connect => s.(online := true)
    case Disconnect => s.(online := false, link := [])
    case MarkUnsynced => s.(settings := UnsyncAll(s.settings))
    case ReadReconcile => s.(lists := s.lists + multiset{s.settings.policies.Keys})
    case SendReconcile(ids) => if ids in s.lists then Reconcile(s, ids) else s
    case Restart => Restarted(s)
    case EnsureRead(id) =>
      if s.ensuring.NotEnsuring? && IsCurrent(s.settings.policies, id) then s.(ensuring := PolicyRead(id, s.settings.policies[id])) else s
    case EnsureLook => if s.ensuring.PolicyRead? then Look(s, s.ensuring.policyId, s.ensuring.policy) else s
    case EnsureRetire =>
      if s.ensuring.Looked?
      then s.(pushes := RetireSuperseded(s.pushes, s.ensuring.current), ensuring := Retired(s.ensuring.current)) else s
    case EnsureCheck =>
      if !s.ensuring.Retired? then s
      else if HasActivePush(s.pushes, s.ensuring.current) then s.(ensuring := NotEnsuring)
      else s.(ensuring := NothingActive(s.ensuring.current))
    case EnsureCreate => if s.ensuring.NothingActive? then CreatePush(s, s.ensuring.current) else s
    case RetireAll => s.(pushes := RetireActive(s.pushes))
    case ListPushes(todo) => if s.dispatching.Idle? || s.dispatching.Listed? then s.(dispatching := Listed(todo)) else s
    case RecordNext =>
      if s.dispatching.Listed? && s.dispatching.todo != [] then Record(s, s.dispatching.todo) else s
    case SendNext(delivered) =>
      if s.dispatching.Sending? then Send(s, s.dispatching.id, s.dispatching.todo, delivered) else s
    case RollbackNext =>
      if s.dispatching.RollingBack? then Rollback(s, s.dispatching.id, s.dispatching.todo) else s
    case EndPush(id, cancelled) =>
      if id in s.pushes && s.pushes[id].status.Active() then SetStatus(s, id, if cancelled then Cancelled else Timeout) else s
    case AgentReceives(accepted) => if s.link != [] then Receive(s, accepted) else s
    case AckArrives(m, success) => if Ack(m, success) in s.acks then FindPush(s, m, success) else s
    case AckCompletes(f) => if f in s.findings then CompleteAck(s, f) else s
    case AckMarks(m) => if m in s.acked then MarkSynced(s, m) else s
  }

  function Steps(s: State, run: seq<Event>): State {
    if run == [] then s else Step(Steps(s, run[..|run| - 1]), run[|run| - 1])
  }
}
