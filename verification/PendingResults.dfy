/**
 The task results an agent could not send: saved to a file, and sent again on every connection.

 Loading and saving fail in the ways a file can: a read error, content that does not parse, a write
 that leaves the file as it was or damaged. A write that only reports an error has been saved.
 */
module PendingResults {
  import opened Places
  import opened Wrappers

  datatype Result = Result(messageId: string, payload: int)

  datatype File = Absent | Holds(results: seq<Result>) | Damaged

  datatype SaveOutcome = Saved | NotSaved | SaveDamaged

  // `unsaved` are the results whose send has failed and which wait for the lock of the file. `saved`
  // lists the results in the order in which they entered the file.
  datatype State = State(file: File, unsaved: seq<Result>, produced: seq<Result>, sent: seq<Result>, saved: seq<Result>)

  const INITIAL := State(Absent, [], [], [], [])

  datatype Event =
    | Report(result: Result, built: bool, delivered: bool)
    | Persist(index: nat, readError: bool, save: SaveOutcome)
    | Flush(readError: bool, deliveries: seq<bool>, save: SaveOutcome)

  function Stored(file: File): seq<Result> { if file.Holds? then file.results else [] }

  // `None` for an error.
  function Load(file: File, readError: bool): Option<seq<Result>> {
    if readError || file.Damaged? then None else Some(Stored(file))
  }

  function Save(file: File, results: seq<Result>, outcome: SaveOutcome): File {
    match outcome
    case Saved => Holds(results)
    case NotSaved => file
    case SaveDamaged => Damaged
  }

  // Removing the file works or changes nothing.
  function Clear(file: File, outcome: SaveOutcome): File { if outcome.Saved? then Absent else file }

  predicate At(flags: seq<bool>, i: nat) { i < |flags| && flags[i] }

  // The results whose flag is `want`, in order.
  function Pick(results: seq<Result>, flags: seq<bool>, want: bool): seq<Result> {
    if results == [] then []
    else
      var n := |results| - 1;
      var rest := Pick(results[..n], flags, want);
      if At(flags, n) == want then rest + [results[n]] else rest
  }

  // A result whose message cannot be built is dropped.
  function ReportResult(s: State, r: Result, built: bool, delivered: bool): State {
    var made := s.(produced := s.produced + [r]);
    if !built then made
    else if delivered then made.(sent := s.sent + [r])
    else made.(unsaved := s.unsaved + [r])
  }

  function PersistResult(s: State, i: nat, readError: bool, save: SaveOutcome): State
    requires i < |s.unsaved|
  {
    var loaded := Load(s.file, readError);
    var results := if loaded.Some? then loaded.value else [];
    s.(file := Save(s.file, results + [s.unsaved[i]], save),
       unsaved := s.unsaved[..i] + s.unsaved[i + 1..],
       saved := if save.Saved? then s.saved + [s.unsaved[i]] else s.saved)
  }

  function FlushResults(s: State, readError: bool, delivered: seq<bool>, save: SaveOutcome): State {
    var loaded := Load(s.file, readError);
    if loaded.None? || loaded.value == [] then s
    else
      var remaining := Pick(loaded.value, delivered, false);
      s.(sent := s.sent + Pick(loaded.value, delivered, true),
         file := if remaining == [] then Clear(s.file, save) else Save(s.file, remaining, save))
  }

  function Step(s: State, e: Event): State {
    match e
    case Report(r, built, delivered) => ReportResult(s, r, built, delivered)
    case Persist(i, readError, save) => if i < |s.unsaved| then PersistResult(s, i, readError, save) else s
    case Flush(readError, delivered, save) => FlushResults(s, readError, delivered, save)
  }

  function Steps(s: State, run: seq<Event>): State {
    if run == [] then s else Step(Steps(s, run[..|run| - 1]), run[|run| - 1])
  }

  // ---- One flush ------------------------------------------------------------------------------

  // Sending splits the results in two, each in the order it had.
  lemma {:induction false} PickSplits(results: seq<Result>, flags: seq<bool>)
    ensures multiset(results) == multiset(Pick(results, flags, true)) + multiset(Pick(results, flags, false))
  {
    if results != [] {
      var n := |results| - 1;
      PickSplits(results[..n], flags);
      assert results == results[..n] + [results[n]];
    }
  }

  lemma {:induction false} PickKeepsOrder(results: seq<Result>, flags: seq<bool>, want: bool)
    ensures Subsequence(Pick(results, flags, want), results)
  {
    if results != [] {
      var n := |results| - 1;
      var rest := Pick(results[..n], flags, want);
      PickKeepsOrder(results[..n], flags, want);
      assert results == results[..n] + [results[n]];
      if At(flags, n) == want {
        SameEnd(rest, results[..n], results[n]);
      } else {
        SubsequenceOfLonger(rest, results[..n], results[n]);
      }
    }
  }

  predicate Subsequence(a: seq<Result>, b: seq<Result>) {
    if a == [] then true
    else if b == [] then false
    else if a[|a| - 1] == b[|b| - 1] then Subsequence(a[..|a| - 1], b[..|b| - 1])
    else Subsequence(a, b[..|b| - 1])
  }

  lemma {:induction false} SubsequenceOfLonger(a: seq<Result>, b: seq<Result>, r: Result)
    requires Subsequence(a, b)
    ensures Subsequence(a, b + [r])
    decreases |b|, 1
  {
    assert (b + [r])[..|b|] == b;
    if a != [] && a[|a| - 1] == r {
      DropLast(a, b);
    }
  }

  lemma {:induction false} DropLast(a: seq<Result>, b: seq<Result>)
    requires a != [] && Subsequence(a, b)
    ensures Subsequence(a[..|a| - 1], b)
    decreases |b|, 0
  {
    if a[|a| - 1] == b[|b| - 1] {
      SubsequenceOfLonger(a[..|a| - 1], b[..|b| - 1], b[|b| - 1]);
      assert b == b[..|b| - 1] + [b[|b| - 1]];
    } else {
      DropLast(a, b[..|b| - 1]);
      var front := a[..|a| - 1];
      if front != [] && front[|front| - 1] == b[|b| - 1] {
        DropLast(front, b[..|b| - 1]);
      }
    }
  }

  lemma {:induction false} SubsequenceOfSubsequence(a: seq<Result>, b: seq<Result>, c: seq<Result>)
    requires Subsequence(a, b) && Subsequence(b, c)
    ensures Subsequence(a, c)
    decreases |c|
  {
    if a != [] {
      if b[|b| - 1] == c[|c| - 1] {
        if a[|a| - 1] == b[|b| - 1] {
          SubsequenceOfSubsequence(a[..|a| - 1], b[..|b| - 1], c[..|c| - 1]);
        } else {
          SubsequenceOfSubsequence(a, b[..|b| - 1], c[..|c| - 1]);
        }
      } else {
        SubsequenceOfSubsequence(a, b, c[..|c| - 1]);
        if a[|a| - 1] == c[|c| - 1] {
          DropLast(a, c[..|c| - 1]);
        }
      }
    }
  }

  lemma SameEnd(a: seq<Result>, b: seq<Result>, r: Result)
    requires Subsequence(a, b)
    ensures Subsequence(a + [r], b + [r])
  {
    assert (a + [r])[..|a|] == a && (b + [r])[..|b|] == b;
  }

  // ---- Nothing is lost ------------------------------------------------------------------------

  // Everywhere a result can be.
  function Held(s: State): multiset<Result> { multiset(s.sent) + multiset(Stored(s.file)) + multiset(s.unsaved) }

  // What an event must not meet: a result that cannot be built; results in the file that cannot be
  // read when another is to join them, or a save that fails; remaining results whose save damages the file.
  predicate Harmless(s: State, e: Event) {
    match e
    case Report(_, built, _) => built
    case Persist(i, readError, save) =>
      i < |s.unsaved| ==> save.Saved? && (Load(s.file, readError).Some? || Stored(s.file) == [])
    case Flush(readError, delivered, save) =>
      var loaded := Load(s.file, readError);
      loaded.Some? && Pick(loaded.value, delivered, false) != [] ==> !save.SaveDamaged?
  }

  function Made(e: Event): multiset<Result> { if e.Report? then multiset{e.result} else multiset{} }

  // A step keeps every result it found or made exactly when it is harmless.
  lemma LosesNothingIffHarmless(s: State, e: Event)
    ensures Held(s) + Made(e) <= Held(Step(s, e)) <==> Harmless(s, e)
  {
    match e
    case Report(r, built, delivered) => ReportIff(s, r, built, delivered);
    case Persist(i, readError, save) =>
      if i < |s.unsaved| {
        PersistIff(s, i, readError, save);
      }
    case Flush(readError, delivered, save) => FlushIff(s, readError, delivered, save);
  }

  lemma ReportIff(s: State, r: Result, built: bool, delivered: bool)
    ensures Held(s) + multiset{r} <= Held(ReportResult(s, r, built, delivered)) <==> built
  {
    if !built {
      assert (Held(s) + multiset{r})[r] == Held(s)[r] + 1;
    }
  }

  lemma PersistIff(s: State, i: nat, readError: bool, save: SaveOutcome)
    requires i < |s.unsaved|
    ensures Held(s) <= Held(PersistResult(s, i, readError, save)) <==> Harmless(s, Persist(i, readError, save))
  {
    var after, r, stored := PersistResult(s, i, readError, save), s.unsaved[i], Stored(s.file);
    assert s.unsaved == s.unsaved[..i] + [r] + s.unsaved[i + 1..];
    assert multiset(s.unsaved) == multiset(after.unsaved) + multiset{r};
    if !save.Saved? {
      assert Held(s)[r] > Held(after)[r];
    } else if Load(s.file, readError).None? && stored != [] {
      var lost := stored[0];
      assert multiset(stored)[lost] > 0;
      assert Held(s)[lost] > Held(after)[lost];
    }
  }

  lemma FlushIff(s: State, readError: bool, delivered: seq<bool>, save: SaveOutcome)
    ensures Held(s) <= Held(FlushResults(s, readError, delivered, save)) <==> Harmless(s, Flush(readError, delivered, save))
  {
    var stored, after := Stored(s.file), FlushResults(s, readError, delivered, save);
    var remaining := Pick(stored, delivered, false);
    PickSplits(stored, delivered);
    if Load(s.file, readError).Some? && remaining != [] && save.SaveDamaged? {
      var lost := remaining[0];
      assert multiset(remaining)[lost] > 0;
      assert Held(s)[lost] > Held(after)[lost];
    }
  }

  predicate HarmlessRun(run: seq<Event>) {
    run == [] || (HarmlessRun(run[..|run| - 1]) && Harmless(Steps(INITIAL, run[..|run| - 1]), run[|run| - 1]))
  }

  // In a run of harmless steps every result produced has been sent, is in the file, or is about to be
  // put there.
  lemma {:induction false} NoResultLost(run: seq<Event>)
    requires HarmlessRun(run)
    ensures multiset(Steps(INITIAL, run).produced) <= Held(Steps(INITIAL, run))
  {
    if run != [] {
      NoResultLost(run[..|run| - 1]);
      LosesNothingIffHarmless(Steps(INITIAL, run[..|run| - 1]), run[|run| - 1]);
    }
  }

  // ---- Nothing is sent twice ------------------------------------------------------------------

  // What else an event must not meet for results to be in one place only: a flush that sends
  // something and cannot record it. The file is left as it was, and its results are sent again.
  predicate Faultless(s: State, e: Event) {
    Harmless(s, e)
    && (e.Flush? ==>
          var loaded := Load(s.file, e.readError);
          loaded.Some? && Pick(loaded.value, e.deliveries, true) != [] ==> e.save.Saved?)
  }

  predicate FaultlessRun(run: seq<Event>) {
    run == [] || (FaultlessRun(run[..|run| - 1]) && Faultless(Steps(INITIAL, run[..|run| - 1]), run[|run| - 1]))
  }

  // A step leaves every result in one place more than before if it made it, and in as many as before
  // otherwise, exactly when it is faultless.
  lemma ConservesIffFaultless(s: State, e: Event)
    ensures Held(Step(s, e)) == Held(s) + Made(e) <==> Faultless(s, e)
  {
    LosesNothingIffHarmless(s, e);
    if Harmless(s, e) {
      match e
      case Report(_, _, _) =>
      case Persist(i, readError, save) =>
        if i < |s.unsaved| {
          PersistConserves(s, i, readError);
        }
      case Flush(readError, flags, save) => FlushConservesIff(s, readError, flags, save);
    }
  }

  lemma FlushConservesIff(s: State, readError: bool, flags: seq<bool>, save: SaveOutcome)
    requires Harmless(s, Flush(readError, flags, save))
    ensures Held(FlushResults(s, readError, flags, save)) == Held(s) <==> Faultless(s, Flush(readError, flags, save))
  {
    PickSplits(Stored(s.file), flags);
    var picked, after := Pick(Stored(s.file), flags, true), FlushResults(s, readError, flags, save);
    if Load(s.file, readError).Some? && picked != [] && !save.Saved? {
      assert after.file == s.file;
      assert multiset(picked)[picked[0]] > 0;
      assert Held(after)[picked[0]] > Held(s)[picked[0]];
    }
  }

  lemma PersistConserves(s: State, i: nat, readError: bool)
    requires i < |s.unsaved| && (Load(s.file, readError).Some? || Stored(s.file) == [])
    ensures Held(PersistResult(s, i, readError, Saved)) == Held(s)
  {
    var r, after := s.unsaved[i], PersistResult(s, i, readError, Saved);
    assert s.unsaved == s.unsaved[..i] + [r] + s.unsaved[i + 1..];
    assert Stored(after.file) == Stored(s.file) + [r];
  }

  // In a run of faultless steps each result produced has been sent once, or is in the file once, or is
  // about to be put there.
  lemma {:induction false} ResultsConserved(run: seq<Event>)
    requires FaultlessRun(run)
    ensures multiset(Steps(INITIAL, run).produced) == Held(Steps(INITIAL, run))
  {
    if run != [] {
      ResultsConserved(run[..|run| - 1]);
      ConservesIffFaultless(Steps(INITIAL, run[..|run| - 1]), run[|run| - 1]);
    }
  }

  // ---- Order ----------------------------------------------------------------------------------

  // The file keeps the order in which results entered it, whatever goes wrong.
  lemma {:induction false} FileKeepsOrder(run: seq<Event>)
    ensures Subsequence(Stored(Steps(INITIAL, run).file), Steps(INITIAL, run).saved)
  {
    if run != [] {
      FileKeepsOrder(run[..|run| - 1]);
      StepKeepsOrder(Steps(INITIAL, run[..|run| - 1]), run[|run| - 1]);
    }
  }

  lemma StepKeepsOrder(s: State, e: Event)
    requires Subsequence(Stored(s.file), s.saved)
    ensures Subsequence(Stored(Step(s, e).file), Step(s, e).saved)
  {
    match e
    case Report(_, _, _) =>
    case Persist(i, readError, save) =>
      if i < |s.unsaved| {
        PersistKeepsOrder(s, i, readError, save);
      }
    case Flush(readError, flags, save) => FlushKeepsOrder(s, readError, flags, save);
  }

  lemma PersistKeepsOrder(s: State, i: nat, readError: bool, save: SaveOutcome)
    requires i < |s.unsaved| && Subsequence(Stored(s.file), s.saved)
    ensures var after := PersistResult(s, i, readError, save);
            Subsequence(Stored(after.file), after.saved)
  {
    SameEnd(Stored(s.file), s.saved, s.unsaved[i]);
    SameEnd([], s.saved, s.unsaved[i]);
  }

  lemma FlushKeepsOrder(s: State, readError: bool, flags: seq<bool>, save: SaveOutcome)
    requires Subsequence(Stored(s.file), s.saved)
    ensures var after := FlushResults(s, readError, flags, save);
            Subsequence(Stored(after.file), after.saved)
  {
    var stored := Stored(s.file);
    PickKeepsOrder(stored, flags, false);
    SubsequenceOfSubsequence(Pick(stored, flags, false), stored, s.saved);
  }

  // ---- What each step does ------------------------------------------------------------------------

  // A result that is made is sent, waits to be put in the file, or is dropped when it cannot be built.
  lemma ReportAnswer(s: State, r: Result, built: bool, delivered: bool)
    ensures Step(s, Report(r, built, delivered))
         == s.(produced := s.produced + [r],
               sent := if built && delivered then s.sent + [r] else s.sent,
               unsaved := if built && !delivered then s.unsaved + [r] else s.unsaved)
  {
  }

  // What a load yields: the results of a file that is there, none when there is no file, nothing at all
  // when it cannot be read.
  predicate Loads(file: File, readError: bool, results: seq<Result>) {
    !readError && (file == Holds(results) || (file == Absent && results == []))
  }

  // A result that waits joins those in the file; when they cannot be read, it takes their place.
  lemma PersistAnswer(s: State, i: nat, readError: bool, save: SaveOutcome)
    requires i < |s.unsaved|
    ensures var r := Step(s, Persist(i, readError, save));
            && r == s.(file := r.file, unsaved := s.unsaved[..i] + s.unsaved[i + 1..],
                       saved := if save == Saved then s.saved + [s.unsaved[i]] else s.saved)
            && (save == NotSaved ==> r.file == s.file) && (save == SaveDamaged ==> r.file == Damaged)
            && (forall results :: Loads(s.file, readError, results) && save == Saved ==> r.file == Holds(results + [s.unsaved[i]]))
            && (readError || s.file == Damaged ==> save == Saved ==> r.file == Holds([s.unsaved[i]]))
  {
    assert [] + [s.unsaved[i]] == [s.unsaved[i]];
  }

  // The places whose flag is `want`.
  function Flagged(flags: seq<bool>, want: bool): nat -> bool { (i: nat) => (i < |flags| && flags[i]) == want }

  // `part` consists of the results at those places.
  ghost predicate IsPart(part: seq<Result>, at: seq<nat>, results: seq<Result>, flags: seq<bool>, want: bool) {
    Picked(at, |results|, Flagged(flags, want)) && TakenFrom(part, at, results)
  }

  predicate TakenFrom(part: seq<Result>, at: seq<nat>, results: seq<Result>) {
    |part| == |at| && forall k :: 0 <= k < |at| ==> at[k] < |results| && part[k] == results[at[k]]
  }

  lemma TakeMore(part: seq<Result>, at: seq<nat>, results: seq<Result>)
    requires results != [] && TakenFrom(part, at, results[..|results| - 1])
    ensures TakenFrom(part, at, results) && TakenFrom(part + [results[|results| - 1]], at + [|results| - 1], results)
  {
  }

  lemma {:induction false} PickIs(results: seq<Result>, flags: seq<bool>, want: bool) returns (at: seq<nat>)
    ensures IsPart(Pick(results, flags, want), at, results, flags, want)
  {
    if results == [] {
      at := [];
    } else {
      var n := |results| - 1;
      at := PickIs(results[..n], flags, want);
      PickedMore(at, n, Flagged(flags, want), Flagged(flags, want));
      TakeMore(Pick(results[..n], flags, want), at, results);
      if (n < |flags| && flags[n]) == want {
        at := at + [n];
      }
    }
  }

  // A flush sends the results of the file one by one: those the hub takes are sent, in their order, and
  // the others stay in the file, in theirs; when none is left the file is removed.
  lemma FlushAnswer(s: State, readError: bool, flags: seq<bool>, save: SaveOutcome) returns (sentAt: seq<nat>, leftAt: seq<nat>)
    ensures var r := Step(s, Flush(readError, flags, save));
            && (readError || s.file == Damaged || s.file == Absent || s.file == Holds([]) ==> r == s)
            && (!readError && s.file.Holds? && s.file.results != [] ==>
                  exists out, left ::
                    && IsPart(out, sentAt, s.file.results, flags, true) && IsPart(left, leftAt, s.file.results, flags, false)
                    && r == s.(sent := s.sent + out, file := r.file)
                    && r.file == match save
                                 case Saved => if left == [] then Absent else Holds(left)
                                 case NotSaved => s.file
                                 case SaveDamaged => if left == [] then s.file else Damaged)
  {
    sentAt, leftAt := [], [];
    if !readError && s.file.Holds? && s.file.results != [] {
      sentAt := PickIs(s.file.results, flags, true);
      leftAt := PickIs(s.file.results, flags, false);
      var out, left := Pick(s.file.results, flags, true), Pick(s.file.results, flags, false);
      assert IsPart(out, sentAt, s.file.results, flags, true) && IsPart(left, leftAt, s.file.results, flags, false);
    }
  }

  // ---- The agent's code -----------------------------------------------------------------------

  class Handler {
    var file: File
    ghost var unsaved: seq<Result>
    ghost var produced: seq<Result>
    ghost var sent: seq<Result>
    ghost var saved: seq<Result>

    ghost function View(): State
      reads this
    {
      State(file, unsaved, produced, sent, saved)
    }

    constructor ()
      ensures View() == INITIAL
    {
      file := Absent;
      unsaved, produced, sent, saved := [], [], [], [];
    }

    // Sends a result; what is left to do is to put it in the file.
    method SendTaskResult(r: Result, built: bool, delivered: bool) returns (persist: bool)
      modifies this
      ensures View() == Step(old(View()), Report(r, built, delivered))
      ensures persist <==> built && !delivered
    {
      produced := produced + [r];
      if !built {
        return false;
      }
      if !delivered {
        unsaved := unsaved + [r];
        return true;
      }
      sent := sent + [r];
      return false;
    }

    method PersistPendingResult(r: Result, ghost i: nat, readError: bool, save: SaveOutcome)
      requires i < |unsaved| && unsaved[i] == r
      modifies this
      ensures View() == Step(old(View()), Persist(i, readError, save))
    {
      var results := [];
      var loaded := Load(file, readError);
      if loaded.Some? {
        results := loaded.value;
      }
      results := results + [r];
      file := Save(file, results, save);
      unsaved := unsaved[..i] + unsaved[i + 1..];
      if save.Saved? {
        saved := saved + [r];
      }
    }

    method FlushPendingResults(readError: bool, delivered: seq<bool>, save: SaveOutcome)
      modifies this`file, this`sent
      ensures View() == Step(old(View()), Flush(readError, delivered, save))
    {
      var loaded := Load(file, readError);
      if loaded.None? || |loaded.value| == 0 {
        return;
      }
      var results := loaded.value;
      var remaining := [];
      for i := 0 to |results|
        invariant remaining == Pick(results[..i], delivered, false)
        invariant sent == old(sent) + Pick(results[..i], delivered, true)
        invariant file == old(file)
      {
        assert results[..i + 1][..i] == results[..i];
        if i < |delivered| && delivered[i] {
          sent := sent + [results[i]];
        } else {
          remaining := remaining + [results[i]];
        }
      }
      assert results[..|results|] == results;
      file := if |remaining| == 0 then Clear(file, save) else Save(file, remaining, save);
    }
  }
}
