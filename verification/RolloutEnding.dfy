/** How a rollout ends when the agents answer. */
module RolloutEnding {
  import opened RolloutModel
  import opened RolloutAnswers
  import opened RolloutSafety
  import opened RolloutRuns
  import opened RolloutTheorems
  import Text
  import opened Wrappers

  // ---- Nothing goes wrong ----------------------------------------------------------------------

  // Every agent of the rollout takes its request, or the caller's context ends while it waits.
  predicate AllTake(items: seq<Item>, env: Env) {
    forall i :: 0 <= i < |items| ==> Answers(env, items[i].agentId, Accepted) || Answers(env, items[i].agentId, ContextDone)
  }

  predicate GoesWell(ro: Rollout, env: Env) { !AnyLate(ro.items, env.now) && AllTake(ro.items, env) }

  // The event leaves rollout `r` alone, or finds it well.
  predicate Kind(s: seq<Rollout>, e: Event, r: nat)
    requires r < |s|
  {
    match e
    case CreateEvent(_, _) => true
    case AdvanceEvent(k, env) => k == r ==> GoesWell(s[r], env)
    case HeartbeatEvent(_, _, env) => GoesWell(s[r], env)
    case CancelEvent(k) => k != r
  }

  predicate Well(status: RolloutStatus) { status == RPending || status == RRunning || status == RSucceeded }

  lemma AdvanceGoesWell(a: Rollout, b: Rollout, env: Env)
    requires Advanced(a, b, env) && Well(a.status) && GoesWell(a, env)
    ensures Well(b.status)
  {
  }

  lemma MarkedGoesWell(ro: Rollout, i: nat, version: string, env: Env)
    requires i < |ro.items| && ro.items[i].status == Running && GoesWell(ro, env)
    ensures GoesWell(Marked(ro, i, version), env)
  {
    var m := Marked(ro, i, version);
    forall j | 0 <= j < |m.items| ensures !Late(m.items[j], env.now) {
      assert !Late(ro.items[j], env.now);
    }
  }

  lemma BeatGoesWell(s: seq<Rollout>, t: seq<Rollout>, r: nat, agentId: string, version: string, env: Env)
    requires r < |s| == |t| && Beaten(s, t, r, agentId, version, env) && Well(s[r].status) && GoesWell(s[r], env)
    ensures Well(t[r].status)
  {
    if i: nat :| Heard(s, r, agentId, version, env) && Reports(s, r, i, agentId) {
      MarkedGoesWell(s[r], i, version, env);
      if version == s[r].items[i].targetVersion {
        AdvanceGoesWell(Marked(s[r], i, version), t[r], env);
      }
    }
  }

  lemma StepGoesWell(s: seq<Rollout>, e: Event, r: nat)
    requires Inv(s) && r < |s| && Well(s[r].status) && Kind(s, e, r)
    ensures Well(Step(s, e)[r].status)
  {
    var t := Step(s, e);
    match e
    case CreateEvent(_, _) =>
    case AdvanceEvent(k, env) =>
      if k == r {
        AdvanceRow(s[r], env);
        AdvanceGoesWell(s[r], t[r], env);
      }
    case HeartbeatEvent(agentId, version, env) =>
      if t != s {
        BeatenAt(s, t, r, agentId, version, env);
        BeatGoesWell(s, t, r, agentId, version, env);
      }
    case CancelEvent(_) =>
  }

  predicate KindRun(run: seq<Event>, later: seq<Event>, r: nat) {
    later == [] ||
    (var before := Exec(run + later[..|later| - 1]);
     KindRun(run, later[..|later| - 1], r) && r < |before| && Kind(before, later[|later| - 1], r))
  }

  // As long as its agents take their requests and no upgrade is overdue when it is advanced, an active
  // rollout that nobody cancels does not fail, whatever else happens.
  lemma {:induction false} NeverFailsWhileAnswered(run: seq<Event>, later: seq<Event>, r: nat)
    requires r < |Exec(run)| && Alive(Exec(run)[r].status) && KindRun(run, later, r)
    ensures r < |Exec(run + later)| && Well(Exec(run + later)[r].status)
    decreases |later|
  {
    if later == [] {
      assert run + later == run;
    } else {
      var n := |later| - 1;
      NeverFailsWhileAnswered(run, later[..n], r);
      JoinLast(run, later);
      GoesOnWell(run + later[..n], later[n], r);
    }
  }

  lemma JoinLast(run: seq<Event>, later: seq<Event>)
    requires later != []
    ensures run + later == run + later[..|later| - 1] + [later[|later| - 1]]
  {
  }

  lemma GoesOnWell(run: seq<Event>, e: Event, r: nat)
    requires r < |Exec(run)| && Well(Exec(run)[r].status) && Kind(Exec(run), e, r)
    ensures r < |Exec(run + [e])| && Well(Exec(run + [e])[r].status)
  {
    ExecMore(run, e);
    Reachable(run);
    StepGoesWell(Exec(run), e, r);
  }

  // ---- It ends ---------------------------------------------------------------------------------

  // All agents of the row are there, have names, and take requests with some time to answer; nothing
  // under way is overdue.
  predicate Ready(ro: Rollout, env: Env) {
    && !Text.Blank(ro.targetVersion) && env.itemTimeout > 0
    && (forall a :: a in env.hub ==> env.hub[a] == Accepted)
    && !AnyLate(ro.items, env.now)
    && forall i :: 0 <= i < |ro.items| ==> ro.items[i].agentId != "" && ro.items[i].agentId in env.hub
  }

  lemma AdvanceStaysReady(a: Rollout, b: Rollout, env: Env)
    requires Advanced(a, b, env) && Ready(a, env) && Well(a.status)
    ensures Ready(b, env) && Well(b.status)
  {
    if i :| 0 <= i < |b.items| && Late(b.items[i], env.now) {
      assert !Late(a.items[i], env.now);
    }
  }

  lemma MarkedStaysReady(ro: Rollout, i: nat, version: string, env: Env)
    requires i < |ro.items| && ro.items[i].status == Running && Ready(ro, env)
    ensures Ready(Marked(ro, i, version), env)
  {
    var m := Marked(ro, i, version);
    forall j | 0 <= j < |m.items| ensures !Late(m.items[j], env.now) {
      assert !Late(ro.items[j], env.now);
    }
  }

  lemma AdvanceGoesForward(run: seq<Event>, r: nat, env: Env)
    requires r < |Exec(run)| && Alive(Exec(run)[r].status) && Ready(Exec(run)[r], env) && !AnyIs(Exec(run)[r].items, Running)
    ensures GoneForward(run, AdvanceEvent(r, env), r, env)
  {
    var ro := Exec(run)[r];
    ExecMore(run, AdvanceEvent(r, env));
    AdvanceAnswer(run, r, env);
    AdvanceStaysReady(ro, Exec(run + [AdvanceEvent(r, env)])[r], env);
    StatusesAre(ro);
    AdvanceProgresses(run, r, env);
    WeightNeverRises(run, AdvanceEvent(r, env), r);
  }

  // The row is still ready, and has ended well or has less before it.
  ghost predicate GoneForward(run: seq<Event>, e: Event, r: nat, env: Env)
    requires r < |Exec(run)|
  {
    var s, t := Exec(run), Exec(run + [e]);
    && r < |t| && Ready(t[r], env) && Well(t[r].status) && t[r].targetVersion == s[r].targetVersion
    && Weight(t[r].items) <= Weight(s[r].items)
    && (t[r].status == RSucceeded || Weight(t[r].items) < Weight(s[r].items))
  }

  lemma ReportGoesForward(run: seq<Event>, r: nat, i: nat, env: Env)
    requires r < |Exec(run)| && Alive(Exec(run)[r].status) && Ready(Exec(run)[r], env)
    requires i < |Exec(run)[r].items| && Exec(run)[r].items[i].status == Running
    ensures GoneForward(run, HeartbeatEvent(Exec(run)[r].items[i].agentId, Exec(run)[r].targetVersion, env), r, env)
  {
    var ro := Exec(run)[r];
    var e := HeartbeatEvent(ro.items[i].agentId, ro.targetVersion, env);
    Reachable(run);
    assert Shape(ro) && ro.items[i].targetVersion == ro.targetVersion;
    HeartbeatDecides(run, ro.items[i].agentId, ro.targetVersion, env, r, i);
    MarkedStaysReady(ro, i, ro.targetVersion, env);
    AdvanceStaysReady(Marked(ro, i, ro.targetVersion), Exec(run + [e])[r], env);
    ExecMore(run, e);
    WeightNeverRises(run, e, r);
  }

  // Calls that advance the rollout, and heartbeats with its target version.
  predicate Calls(later: seq<Event>, r: nat, target: string, env: Env) {
    forall e :: e in later ==> e == AdvanceEvent(r, env) || (e.HeartbeatEvent? && e.version == target && e.env == env)
  }

  lemma JoinFirst(run: seq<Event>, e: Event, rest: seq<Event>)
    ensures run + [e] + rest == run + ([e] + rest)
  {
  }

  // From every state a run can reach, an active rollout whose agents take their requests and report the
  // target version in time ends well, by nothing but those reports and advances.
  lemma {:induction false} AnsweredRolloutSucceeds(run: seq<Event>, r: nat, env: Env) returns (later: seq<Event>)
    requires r < |Exec(run)| && Well(Exec(run)[r].status) && Ready(Exec(run)[r], env)
    ensures Calls(later, r, Exec(run)[r].targetVersion, env)
    ensures r < |Exec(run + later)| && Exec(run + later)[r].status == RSucceeded
    decreases Weight(Exec(run)[r].items), if Exec(run)[r].status == RSucceeded then 0 else 1
  {
    var ro := Exec(run)[r];
    if ro.status == RSucceeded {
      later := [];
      assert run + later == run;
    } else {
      var e := AdvanceEvent(r, env);
      if i: nat :| i < |ro.items| && ro.items[i].status == Running {
        e := HeartbeatEvent(ro.items[i].agentId, ro.targetVersion, env);
        ReportGoesForward(run, r, i, env);
      } else {
        AdvanceGoesForward(run, r, env);
      }
      var rest := AnsweredRolloutSucceeds(run + [e], r, env);
      later := [e] + rest;
      JoinFirst(run, e, rest);
    }
  }
}
