/** A policy that is not synced can always become so. */
module PolicySyncEnding {
  import opened PolicySyncAnswers
  import opened PolicySyncLists
  import opened PolicySyncModel
  import opened PolicySyncPusher
  import opened PolicySyncSafety
  import opened PolicySyncService
  import opened PolicySyncSoundness
  import opened PolicySyncSteps
  import opened PolicySyncTheorems
  import opened Wrappers

  // The master starts anew and the agent connects.
  function Afresh(s: State): State { Restarted(s).(online := true) }

  lemma RestartRun(s: State) returns (run: seq<Event>)
    ensures Steps(s, run) == Afresh(s) && NoLists(run)
  {
    OneStep(s, Restart);
    LinkEventIs(s, Restart);
    StepsAppend(s, [Restart], Connect);
    LinkEventIs(Restarted(s), Connect);
    run := [Restart] + [Connect];
  }

  lemma EnsureRun(s: State, p: string) returns (run: seq<Event>)
    ensures Steps(s, run) == EnsureSteps(s, p) && NoLists(run)
  {
    var a, b, c, d, e := EnsureRead(p), EnsureLook, EnsureRetire, EnsureCheck, EnsureCreate;
    OneStep(s, a);
    StepsAppend(s, [a], b);
    StepsAppend(s, [a] + [b], c);
    StepsAppend(s, [a] + [b] + [c], d);
    StepsAppend(s, [a] + [b] + [c] + [d], e);
    run := [a] + [b] + [c] + [d] + [e];
  }

  // The pusher leaves a push of the policy as it is, and nothing else in the way.
  lemma PushStands(s: State, p: string) returns (m: nat)
    requires Inv(s) && s.ensuring == NotEnsuring && IsLatest(s.settings.policies, p)
    ensures var r := EnsureSteps(s, p);
            && r.settings == s.settings && r.link == s.link && r.online == s.online && r.dispatching == s.dispatching && r.agent == s.agent
            && IsActive(r.pushes, m) && Of(r.pushes, m, p) && r.pushes[m].updatedAt == s.settings.policies[p].updatedAt
  {
    EnsuredPushIsCurrent(s, p);
    CheckReadyIs(s, p);
    FinishEnsuringIs(CheckReady(s, p), CurrentOf(s, p));
    var r := EnsureSteps(s, p);
    m :| IsLive(r.pushes, m, s.now) && Of(r.pushes, m, p);
  }

  // It is dispatched over an empty link.
  lemma DispatchPushRun(s: State, m: nat) returns (run: seq<Event>)
    requires s.dispatching == Idle && s.online && IsActive(s.pushes, m)
    ensures NoLists(run)
    ensures Steps(s, run) == SetStatus(s, m, Dispatched).(link := s.link + [PushMessage(m, s.pushes[m].policyId, s.pushes[m].payload)],
                                                          sent := s.sent + [m], dispatching := Listed([]))
  {
    var a, b, c := ListPushes([m]), RecordNext, SendNext(true);
    OneStep(s, a);
    StepsAppend(s, [a], b);
    StepsAppend(s, [a] + [b], c);
    RecordedIs(s, m);
    DispatchEventIs(SetStatus(s, m, Dispatched).(dispatching := Sending(m, [])), c);
    run := [a] + [b] + [c];
  }

  lemma AckRun(s: State, m: nat, p: string) returns (run: seq<Event>)
    requires Inv(s) && PushArrives(s, m, p)
    ensures NoLists(run) && OnlySyncs(s, Steps(s, run), p)
  {
    AcceptedPushSyncs(s, m, p);
    var a, b := AgentReceives(true), AckArrives(m, true);
    var c, d := AckCompletes(Finding(m, true, Some(Tracked(p, s.settings.policies[p].updatedAt)))), AckMarks(m);
    OneStep(s, a);
    StepsAppend(s, [a], b);
    StepsAppend(s, [a] + [b], c);
    StepsAppend(s, [a] + [b] + [c], d);
    run := [a] + [b] + [c] + [d];
  }

  lemma {:induction false} StepsKept(s: State, run: seq<Event>)
    requires Inv(s)
    ensures Inv(Steps(s, run))
  {
    if run != [] {
      StepsKept(s, run[..|run| - 1]);
      StepKept(Steps(s, run[..|run| - 1]), run[|run| - 1]);
    }
  }

  // Two parts of a run, the second from where the first ends.
  lemma Join(s: State, a: seq<Event>, b: seq<Event>)
    requires Inv(s) && NoLists(a) && NoLists(b)
    ensures Steps(s, a + b) == Steps(Steps(s, a), b) && Inv(Steps(s, a + b)) && NoLists(a + b)
  {
    StepsJoin(s, a, b);
    StepsKept(s, a + b);
    NoListsJoin(a, b);
  }

  // A push of the policy as it is has been prepared, afresh.
  lemma PushRun(s: State, p: string) returns (run: seq<Event>, m: nat)
    requires Inv(s) && IsLatest(s.settings.policies, p)
    ensures NoLists(run) && Inv(Steps(s, run)) && PushArrives(Steps(s, run), m, p)
    ensures Steps(s, run).settings == s.settings && Steps(s, run).agent == s.agent
  {
    var first := RestartRun(s);
    StepsKept(s, first);
    var second := EnsureRun(Afresh(s), p);
    m := PushStands(Afresh(s), p);
    Join(s, first, second);
    var third := DispatchPushRun(EnsureSteps(Afresh(s), p), m);
    Join(s, first + second, third);
    run := first + second + third;
  }

  lemma LatestCanSync(s: State, p: string) returns (run: seq<Event>)
    requires Inv(s) && IsLatest(s.settings.policies, p)
    ensures NoLists(run) && Inv(Steps(s, run)) && OnlySyncs(s, Steps(s, run), p)
  {
    var first, m := PushRun(s, p);
    var second := AckRun(Steps(s, first), m, p);
    Join(s, first, second);
    run := first + second;
  }

  function Unsynced(s: State): set<string> { set p | p in s.settings.policies && !s.settings.policies[p].synced }

  // All that were not synced have become so, and are on the agent; what was stays as it was.
  predicate AllSynced(s: State, r: State) {
    && r.settings.policies.Keys == s.settings.policies.Keys && r.settings.storages == s.settings.storages
    && forall p :: p in s.settings.policies ==>
         && r.settings.policies[p] == s.settings.policies[p].(synced := true, updatedAt := r.settings.policies[p].updatedAt)
         && if s.settings.policies[p].synced then (p in r.agent <==> p in s.agent) && (p in s.agent ==> r.agent[p] == s.agent[p])
            else IsOnAgent(r, p)
  }

  lemma SyncsOneMore(s: State, m: State, r: State, p: string)
    requires p in Unsynced(s) && OnlySyncs(s, m, p) && AllSynced(m, r)
    ensures AllSynced(s, r)
  {
  }

  lemma FewerUnsynced(s: State, m: State, p: string)
    requires p in Unsynced(s) && OnlySyncs(s, m, p)
    ensures Unsynced(m) == Unsynced(s) - {p} && |Unsynced(m)| < |Unsynced(s)|
  {
  }

  lemma SomeIsLatest(s: State) returns (p: string)
    requires Unsynced(s) != {}
    ensures IsLatest(s.settings.policies, p)
  {
    p := SomeRowChangedLast(s.settings.policies, Unsynced(s));
    assert forall q :: q in s.settings.policies && !s.settings.policies[q].synced ==> q in Unsynced(s);
  }

  lemma {:induction false} RestCanSync(s: State) returns (run: seq<Event>)
    requires Inv(s)
    ensures NoLists(run) && Inv(Steps(s, run)) && AllSynced(s, Steps(s, run))
    decreases |Unsynced(s)|
  {
    if Unsynced(s) == {} {
      run := [];
      NothingUnsynced(s);
    } else {
      var p := SomeIsLatest(s);
      var first := LatestCanSync(s, p);
      var m := Steps(s, first);
      FewerUnsynced(s, m, p);
      var rest := RestCanSync(m);
      SyncsOneMore(s, m, Steps(m, rest), p);
      Join(s, first, rest);
      run := first + rest;
    }
  }

  lemma NothingUnsynced(s: State)
    requires Unsynced(s) == {}
    ensures AllSynced(s, s)
  {
    forall p | p in s.settings.policies ensures s.settings.policies[p].synced {
      assert p !in Unsynced(s);
    }
  }

  // From every state that a run can reach there is a run, without any list, at whose end all policies are
  // synced: each that was not is on the agent with its present settings and those of its storage.
  lemma EverythingCanSync(run: seq<Event>) returns (later: seq<Event>)
    ensures NoLists(later) && AllSynced(Steps(INITIAL, run), Steps(INITIAL, run + later))
  {
    Reachable(run);
    later := RestCanSync(Steps(INITIAL, run));
    StepsJoin(INITIAL, run, later);
  }
}
