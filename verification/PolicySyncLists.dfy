/** Which policy lists may be sent for reconciliation, exactly. */
module PolicySyncLists {
  import opened PolicySyncModel
  import opened PolicySyncPusher
  import opened PolicySyncSafety
  import opened PolicySyncSoundness
  import opened PolicySyncSteps
  import opened PolicySyncTheorems
  import opened Wrappers

  predicate NoLists(run: seq<Event>) { forall e :: e in run ==> !e.SendReconcile? }

  lemma {:induction false} NoListsIsSafe(s: State, run: seq<Event>)
    requires NoLists(run)
    ensures SafeRun(s, run)
  {
    if run != [] {
      NoListsIsSafe(s, run[..|run| - 1]);
      assert run[|run| - 1] in run;
    }
  }

  // ---- Which lists are safe -------------------------------------------------------------------

  // A list that names every policy there is when it goes out is safe; so is one that goes out before
  // anything else happens after it was read.
  lemma CompleteListIsSafe(s: State, ids: set<string>)
    requires s.settings.policies.Keys <= ids
    ensures SafeList(s, ids)
    ensures SafeList(Step(s, ReadReconcile), s.settings.policies.Keys)
  {
  }

  // The agent takes everything that is under way.
  function Drain(s: State): State
    decreases |s.link|
  {
    if s.link == [] then s else Drain(Receive(s, true))
  }

  lemma {:induction false} DrainedReconcile(s: State, p: string)
    requires s.link != [] && Omits(s.link, |s.link| - 1, p)
    ensures p !in Drain(s).agent && Drain(s).settings == s.settings
    decreases |s.link|
  {
    var r := Receive(s, true);
    if |s.link| > 1 {
      assert r.link[|r.link| - 1] == s.link[|s.link| - 1];
      DrainedReconcile(r, p);
    } else {
      assert r.link == [] && Drain(r) == r;
    }
  }

  lemma {:induction false} DrainRun(s: State) returns (run: seq<Event>)
    ensures Steps(s, run) == Drain(s) && NoLists(run)
    decreases |s.link|
  {
    if s.link == [] {
      run := [];
    } else {
      var rest := DrainRun(Receive(s, true));
      run := [AgentReceives(true)] + rest;
      OneStep(s, AgentReceives(true));
      ReceiveEventIs(s, AgentReceives(true));
      StepsJoin(s, [AgentReceives(true)], rest);
    }
  }

  // `t` differs from `s` in what the agent has taken from the link and answered.
  predicate TookFrom(s: State, t: State, n: nat) {
    n <= |s.link| && t == s.(link := s.link[n..], agent := t.agent, acks := t.acks)
  }

  lemma NoListsJoin(a: seq<Event>, b: seq<Event>)
    requires NoLists(a) && NoLists(b)
    ensures NoLists(a + b)
  {
  }

  lemma TookOneMore(s: State, r: State, t: State, n: nat)
    requires TookFrom(s, r, 1) && TookFrom(r, t, n)
    ensures TookFrom(s, t, n + 1)
  {
    assert s.link[1..][n..] == s.link[n + 1..];
  }

  // The agent takes the first `n` messages.
  function Taken(s: State, n: nat): State
    requires n <= |s.link|
    decreases n
  {
    if n == 0 then s else Taken(Receive(s, true), n - 1)
  }

  lemma {:induction false} TakenRun(s: State, n: nat) returns (run: seq<Event>)
    requires n <= |s.link|
    ensures Steps(s, run) == Taken(s, n) && NoLists(run)
    decreases n
  {
    if n == 0 {
      run := [];
    } else {
      var e := AgentReceives(true);
      var rest := TakenRun(Receive(s, true), n - 1);
      run := [e] + rest;
      NoListsJoin([e], rest);
      OneStep(s, e);
      ReceiveEventIs(s, e);
      StepsJoin(s, [e], rest);
    }
  }

  lemma ReceiveTakes(s: State)
    requires s.link != []
    ensures TookFrom(s, Receive(s, true), 1)
    ensures s.link[0].PushMessage? ==> Ack(s.link[0].messageId, true) in Receive(s, true).acks
  {
  }

  // It accepts the push at position `j` of the link with them.
  lemma {:induction false} AcceptFromLink(s: State, j: nat, m: nat)
    requires IsPush(s.link, j, m)
    ensures TookFrom(s, Taken(s, j + 1), j + 1) && Ack(m, true) in Taken(s, j + 1).acks
    decreases j
  {
    var r := Receive(s, true);
    ReceiveTakes(s);
    if j == 0 {
      assert Taken(r, 0) == r;
    } else {
      assert IsPush(r.link, j - 1, m);
      AcceptFromLink(r, j - 1, m);
      TookOneMore(s, r, Taken(r, j), j);
    }
  }

  // What is remembered of push `m` is about it.
  ghost predicate Known(s: State, m: nat) {
    (m in s.acked ==> TrackedOk(s.acked[m], m, s.pushes)) && (m in s.tracker ==> TrackedOk(s.tracker[m], m, s.pushes))
  }

  ghost predicate AllKnown(s: State) { forall m :: m in s.pushes ==> Known(s, m) }

  lemma InvKnows(s: State)
    requires Inv(s)
    ensures AllKnown(s)
  {
  }

  // An accepted acknowledgement that can mark a policy does so.
  lemma MarkRun(s: State, m: nat, p: string) returns (run: seq<Event>, t: State)
    requires Known(s, m) && Ack(m, true) in s.acks && CanMark(s, m, p) && !s.settings.policies[p].synced
    ensures t == Steps(s, run) && NoLists(run) && t.link == s.link
    ensures p in t.settings.policies && t.settings.policies[p].synced
  {
    run, t := CompleteRun(s, m, p);
    var marks := AckMarks(m);
    AckMarksPush(t, m, p);
    AckEventIs(t, marks);
    StepsAppend(s, run, marks);
    run, t := run + [marks], MarkSynced(t, m);
  }

  // Up to where the acknowledgement's policy is marked.
  lemma CompleteRun(s: State, m: nat, p: string) returns (run: seq<Event>, t: State)
    requires Known(s, m) && Ack(m, true) in s.acks && CanMark(s, m, p)
    ensures t == Steps(s, run) && NoLists(run) && t.link == s.link && t.settings == s.settings
    ensures m in t.acked && t.acked[m] == Tracked(p, s.settings.policies[p].updatedAt)
  {
    run, t := [], s;
    if m !in s.acked {
      run, t := FindRun(s, m);
      var completes := AckCompletes(FindingOf(s.pushes, m));
      AckEventIs(t, completes);
      FindingCompletes(t, FindingOf(s.pushes, m));
      StepsAppend(s, run, completes);
      run, t := run + [completes], CompleteAck(t, FindingOf(s.pushes, m));
    }
  }

  lemma FindRun(s: State, m: nat) returns (run: seq<Event>, t: State)
    requires Known(s, m) && m in s.pushes && Ack(m, true) in s.acks && Followed(s, m) && m !in s.acked
    ensures t == Steps(s, run) && NoLists(run) && t == s.(findings := t.findings) && FindingOf(s.pushes, m) in t.findings
  {
    run, t := [], s;
    if !IsFound(s, m) {
      var arrives := AckArrives(m, true);
      OneStep(s, arrives);
      AckEventIs(s, arrives);
      run, t := [arrives], FindPush(s, m, true);
    }
  }

  // Policy `p` is marked synced, and the agent does not have it.
  predicate Lost(s: State, p: string) { p in s.settings.policies && s.settings.policies[p].synced && p !in s.agent }

  // From a synced policy and a list that omits it at the end of the link, the agent loses the policy.
  lemma LoseRun(s: State, p: string) returns (run: seq<Event>)
    requires s.link != [] && Omits(s.link, |s.link| - 1, p)
    requires p in s.settings.policies && s.settings.policies[p].synced
    ensures NoLists(run) && Lost(Steps(s, run), p)
  {
    run := DrainRun(s);
    DrainedReconcile(s, p);
  }

  // The agent accepts the push, if it has not.
  lemma AcceptPush(s: State, m: nat, p: string) returns (n: nat)
    requires Known(s, m) && s.link != [] && Omits(s.link, |s.link| - 1, p)
    requires CanMark(s, m, p) && Acceptable(s.link, s.acks, |s.link| - 1, m)
    ensures n < |s.link| && Known(Taken(s, n), m) && Taken(s, n).settings == s.settings
    ensures Ack(m, true) in Taken(s, n).acks && CanMark(Taken(s, n), m, p)
    ensures Taken(s, n).link != [] && Omits(Taken(s, n).link, |Taken(s, n).link| - 1, p)
  {
    n := 0;
    if Ack(m, true) !in s.acks {
      var j: nat :| j < |s.link| - 1 && IsPush(s.link, j, m);
      n := j + 1;
      AcceptFromLink(s, j, m);
      TookStillOmits(s, Taken(s, n), n, p);
      TookKeeps(s, Taken(s, n), n, m, p);
    }
  }

  lemma TookKeeps(s: State, t: State, n: nat, m: nat, p: string)
    requires TookFrom(s, t, n) && Known(s, m) && CanMark(s, m, p)
    ensures Known(t, m) && CanMark(t, m, p) && t.settings == s.settings
  {
  }

  lemma TookStillOmits(s: State, t: State, n: nat, p: string)
    requires TookFrom(s, t, n) && n < |s.link| && Omits(s.link, |s.link| - 1, p)
    ensures t.link != [] && Omits(t.link, |t.link| - 1, p)
  {
  }

  // A policy that can still become synced before the list at the end of the link arrives is lost in
  // some continuation.
  lemma UnsafeLosesPolicy(s: State, p: string) returns (run: seq<Event>)
    requires AllKnown(s) && s.link != [] && Omits(s.link, |s.link| - 1, p) && SyncsBefore(s, p, |s.link| - 1)
    ensures NoLists(run) && Lost(Steps(s, run), p)
  {
    if s.settings.policies[p].synced {
      run := LoseRun(s, p);
    } else {
      var m: nat :| CanMark(s, m, p) && Acceptable(s.link, s.acks, |s.link| - 1, m);
      assert Known(s, m);
      var n := AcceptPush(s, m, p);
      var first := TakenRun(s, n);
      var rest := MarkAndLose(Taken(s, n), m, p);
      NoListsJoin(first, rest);
      StepsJoin(s, first, rest);
      run := first + rest;
    }
  }

  lemma MarkAndLose(s: State, m: nat, p: string) returns (run: seq<Event>)
    requires Known(s, m) && s.link != [] && Omits(s.link, |s.link| - 1, p)
    requires Ack(m, true) in s.acks && CanMark(s, m, p) && !s.settings.policies[p].synced
    ensures NoLists(run) && Lost(Steps(s, run), p)
  {
    var first, t := MarkRun(s, m, p);
    var rest := LoseRun(t, p);
    StepsJoin(s, first, rest);
    run := first + rest;
  }

  // Sending a list keeps every continuation sound, in which lists are safe, exactly when it is safe
  // itself.
  lemma SoundForeverIffSafe(s: State, ids: set<string>)
    requires Inv(s) && SyncInv(s) && s.online && ids in s.lists
    ensures (forall later :: SafeRun(Step(s, SendReconcile(ids)), later) ==> Sound(Steps(Step(s, SendReconcile(ids)), later)))
       <==> SafeList(s, ids)
  {
    var r := Step(s, SendReconcile(ids));
    LinkEventIs(s, SendReconcile(ids));
    if SafeList(s, ids) {
      forall later | SafeRun(r, later)
        ensures Sound(Steps(r, later))
      {
        StepKept(s, SendReconcile(ids));
        SyncStepKept(s, SendReconcile(ids));
        SafeRunKept(r, later);
        SyncInvIsSound(Steps(r, later));
      }
    } else {
      var p :| p in s.settings.policies && p !in ids && SyncsBefore(s, p, |s.link|);
      InvKnows(s);
      SyncsBehind(s, ids, p);
      var later := UnsafeLosesPolicy(r, p);
      NoListsIsSafe(r, later);
      assert !Sound(Steps(r, later));
    }
  }

  lemma SyncsBehind(s: State, ids: set<string>, p: string)
    requires s.online && SyncsBefore(s, p, |s.link|) && p !in ids
    ensures var r := Reconcile(s, ids);
            && r.link != [] && Omits(r.link, |r.link| - 1, p) && SyncsBefore(r, p, |r.link| - 1)
            && (AllKnown(s) ==> AllKnown(r))
  {
    var r := Reconcile(s, ids);
    if !s.settings.policies[p].synced {
      var m: nat :| CanMark(s, m, p) && Acceptable(s.link, s.acks, |s.link|, m);
      assert CanMark(r, m, p);
      if j :| 0 <= j < |s.link| && IsPush(s.link, j, m) {
        assert IsPush(r.link, j, m);
      }
      assert Acceptable(r.link, r.acks, |s.link|, m);
    }
  }

  // A list that leaves out a synced policy is lost on the agent once it has taken what is under way.
  lemma StaleReconcileLosesPolicy(s: State, ids: set<string>, p: string)
    requires s.online && ids in s.lists && p in s.settings.policies && s.settings.policies[p].synced && p !in ids
    ensures Lost(Drain(Step(s, SendReconcile(ids))), p)
  {
    LinkEventIs(s, SendReconcile(ids));
    DrainedReconcile(Reconcile(s, ids), p);
  }

  predicate Keeps(link: seq<Message>, p: string) { forall k :: 0 <= k < |link| ==> !Omits(link, k, p) }

  lemma {:induction false} KeptThrough(s: State, p: string)
    requires p in s.agent && Keeps(s.link, p)
    ensures p in Drain(s).agent
    decreases |s.link|
  {
    if s.link != [] {
      var r := Receive(s, true);
      assert !Omits(s.link, 0, p);
      assert forall k :: 0 <= k < |r.link| ==> r.link[k] == s.link[k + 1] && !Omits(s.link, k + 1, p);
      KeptThrough(r, p);
    }
  }

  // What is under way alone leaves the agent with every policy that is synced now exactly when the list
  // names them all. That is less than being safe: a policy may become synced in the meantime.
  lemma DrainKeepsSyncedIff(s: State, ids: set<string>)
    requires SyncInv(s) && s.settings.contentAt.Keys == s.settings.policies.Keys && s.online && ids in s.lists
    ensures (forall p :: IsSynced(s.settings, p) ==> p in Drain(Step(s, SendReconcile(ids))).agent)
       <==> (forall p :: IsSynced(s.settings, p) ==> p in ids)
  {
    LinkEventIs(s, SendReconcile(ids));
    forall p | IsSynced(s.settings, p)
      ensures p in Drain(Step(s, SendReconcile(ids))).agent <==> p in ids
    {
      if p in ids {
        SyncedIsKept(s, ids, p);
        KeptThrough(Reconcile(s, ids), p);
      } else {
        StaleReconcileLosesPolicy(s, ids, p);
      }
    }
  }

  predicate IsSynced(g: Settings, p: string) { p in g.policies && g.policies[p].synced }

  lemma SyncedIsKept(s: State, ids: set<string>, p: string)
    requires SyncInv(s) && s.settings.contentAt.Keys == s.settings.policies.Keys && s.online
    requires IsSynced(s.settings, p) && p in ids
    ensures p in Reconcile(s, ids).agent && Keeps(Reconcile(s, ids).link, p)
  {
    assert Holds(s.agent, s.pushes, p, s.settings.contentAt[p]);
    forall k: nat
      ensures SyncsBefore(s, p, k)
    {
    }
    assert forall k: nat :: !Omits(s.link, k, p);
    BehindOmits(s.link, ids, p);
  }

  lemma BehindOmits(link: seq<Message>, ids: set<string>, p: string)
    requires p in ids && forall k: nat :: !Omits(link, k, p)
    ensures Keeps(link + [ReconcileMessage(ids)], p)
  {
    var all := link + [ReconcileMessage(ids)];
    assert forall k :: 0 <= k < |link| ==> all[k] == link[k] && !Omits(link, k, p);
  }

  // ---- A policy is lost -----------------------------------------------------------------------

  const STORED := INITIAL.(now := 1, settings := Settings(map[], map[], {}, map["s" := 0]), lists := multiset{{}}, online := true)

  const PLANNED := STORED.(now := 2, settings := Settings(map["p" := Policy("s", 0, false, 2)], map["p" := 2], {"p"}, map["s" := 0]))

  const PUSHED := PLANNED.(pushes := map[0 := Push("p", "s", 2, Content(0, 0), Pending, 2 + PUSH_TTL)], nextMessage := 1,
                           tracker := map[0 := Tracked("p", 2)])

  lemma StepsAppend(s: State, run: seq<Event>, e: Event)
    ensures Steps(s, run + [e]) == Step(Steps(s, run), e)
  {
    StepsJoin(s, run, [e]);
    OneStep(Steps(s, run), e);
  }

  // The list is read when there is no policy.
  lemma ReachStored() returns (run: seq<Event>)
    ensures Steps(INITIAL, run) == STORED && NoLists(run)
  {
    var a, b, c := Connect, SaveStorage("s", 0), ReadReconcile;
    OneStep(INITIAL, a);
    StepsAppend(INITIAL, [a], b);
    StepsAppend(INITIAL, [a] + [b], c);
    var stored := INITIAL.(now := 1, settings := WriteStorage(INITIAL.settings, 1, "s", 0), online := true);
    assert Step(Step(INITIAL, a), b) == stored;
    assert stored.settings == STORED.settings;
    assert stored.settings.policies.Keys == {};
    run := [a] + [b] + [c];
  }

  lemma ReachPlanned() returns (run: seq<Event>)
    ensures Steps(INITIAL, run) == PLANNED && NoLists(run)
  {
    var before := ReachStored();
    var e := CreatePolicy("p", "s", 0);
    StepsAppend(INITIAL, before, e);
    PolicyEventIs(STORED, "p", "s", 0);
    run := before + [e];
  }

  lemma ReachReady() returns (run: seq<Event>)
    ensures Steps(INITIAL, run) == CheckReady(PLANNED, "p") && NoLists(run)
  {
    var before := ReachPlanned();
    var a, b, c := EnsureRead("p"), EnsureLook, EnsureRetire;
    StepsAppend(INITIAL, before, a);
    StepsAppend(INITIAL, before + [a], b);
    StepsAppend(INITIAL, before + [a] + [b], c);
    run := before + [a] + [b] + [c];
  }

  lemma PushedIs()
    ensures FinishEnsuring(CheckReady(PLANNED, "p")) == PUSHED
  {
    CheckReadyIs(PLANNED, "p");
    FinishEnsuringIs(CheckReady(PLANNED, "p"), CurrentOf(PLANNED, "p"));
  }

  lemma ReachPushed() returns (run: seq<Event>)
    ensures Steps(INITIAL, run) == PUSHED && NoLists(run)
  {
    var before := ReachReady();
    StepsAppend(INITIAL, before, EnsureCheck);
    StepsAppend(INITIAL, before + [EnsureCheck], EnsureCreate);
    PushedIs();
    run := before + [EnsureCheck] + [EnsureCreate];
  }

  const RECORDED := SetStatus(PUSHED, 0, Dispatched).(dispatching := Sending(0, []))

  // The dispatcher lists and records one active push.
  lemma RecordedIs(s: State, m: nat)
    requires s.dispatching.Idle? && IsActive(s.pushes, m)
    ensures Step(Step(s, ListPushes([m])), RecordNext) == SetStatus(s, m, Dispatched).(dispatching := Sending(m, []))
  {
    DispatchEventIs(s, ListPushes([m]));
    DispatchEventIs(s.(dispatching := Listed([m])), RecordNext);
    assert [m][1..] == [];
  }

  lemma ReachRecorded() returns (run: seq<Event>)
    ensures Steps(INITIAL, run) == RECORDED && NoLists(run)
  {
    var before := ReachPushed();
    StepsAppend(INITIAL, before, ListPushes([0]));
    StepsAppend(INITIAL, before + [ListPushes([0])], RecordNext);
    RecordedIs(PUSHED, 0);
    run := before + [ListPushes([0])] + [RecordNext];
  }

  // The push is on its way; the list that was read before the policy came is not.
  lemma ReachSent() returns (run: seq<Event>)
    ensures NoLists(run)
    ensures var s := Steps(INITIAL, run);
            && s.online && {} in s.lists && s.settings == PUSHED.settings && IsPush(s.link, 0, 0) && CanMark(s, 0, "p")
  {
    var before := ReachRecorded();
    StepsAppend(INITIAL, before, SendNext(true));
    DispatchEventIs(RECORDED, SendNext(true));
    run := before + [SendNext(true)];
  }

  // So there is a run of the code's own steps, with a list that was the policy table when it was read,
  // after which a policy is marked synced and is not on the agent.
  lemma StaleListLosesPolicy() returns (before: seq<Event>, later: seq<Event>)
    ensures NoLists(before) && NoLists(later)
    ensures Lost(Steps(INITIAL, before + [SendReconcile({})] + later), "p")
  {
    before := ReachSent();
    var s, e := Steps(INITIAL, before), SendReconcile({});
    Reachable(before);
    InvKnows(s);
    LinkEventIs(s, e);
    assert Acceptable(s.link, s.acks, |s.link|, 0);
    SyncsBehind(s, {}, "p");
    later := UnsafeLosesPolicy(Step(s, e), "p");
    StepsAppend(INITIAL, before, e);
    StepsJoin(INITIAL, before + [e], later);
  }
}
