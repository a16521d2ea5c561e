/** What the roadmap realization runner guarantees over a whole invocation, and across invocations. */
module RoadmapSafety {
  import opened Wrappers
  import opened Ordering
  import opened RealizationRuntime
  import opened BehavioralProof
  import opened RoadmapRunner

  /** The evidence behind a step that passes: no gate was skipped and every declared test ran, in order, and
      returned 0. */
  ghost predicate Proven(w: World, policies: map<string, OwnerPolicy>, c: Contract, runs: seq<TestRun>) {
    var tests := c.surface.targetTests;
    && Ownership(w, policies, c) == Some(true)
    && w.scan(c) == Some(0)
    && EntrypointsExist(w, c)
    && (exists t :: t in tests && Relevant(w.lex, c.surface, t))
    && |runs| == |tests| > 0
    && forall i :: 0 <= i < |runs| ==>
         && IsBehavioral(w.lex, tests[i])
         && runs[i].command == tests[i]
         && runs[i].argv == PinInterpreter(w.lex, w.interpreter, w.lex.shlexSplit(tests[i]).value)
         && runs[i].code == 0
  }

  /** The status a step reaches from a start status that is not ready. */
  ghost function Reached(w: World, c: Contract): Status {
    if VerificationChecks(w, c) && Strict(w.lex, c.surface) then Verified else RuntimeRealized
  }

  ghost predicate NotStarted(s: Status) { !Ready(s) && !s.Unlisted? }

  lemma TransitionsFromStart(prior: Status, g: Gates)
    ensures Transitions(prior, g).Some? ==> !prior.Unlisted?
    ensures Transitions(prior, g).Some? && g.Runtime() ==>
        Ready(Transitions(prior, g).value.0) && Ready(Transitions(prior, g).value.1)
    ensures NotStarted(prior) && g.Runtime() ==>
              Transitions(prior, g) == Some((RuntimeRealized, if g.verification then Verified else RuntimeRealized))
  {
  }

  lemma ConcludeSound(prior: Status, g: Gates, categories: set<Category>, runs: seq<TestRun>)
    requires g.dependencies && g.ownership
    requires categories == {} ==> g.patternsAbsent && g.entrypoints && g.tests
    ensures var o := Conclude(prior, g, categories, runs);
            match o
            case Raised => true
            case Failed(cats, dependency, _) => cats != {} && cats == categories && !dependency
            case Passed(next, final, r) =>
              && categories == {} && r == runs && Ready(final)
              && (NotStarted(prior) ==>
                 next == RuntimeRealized && final == if g.verification then Verified else RuntimeRealized)
  {
    TransitionsFromStart(prior, g);
  }

  lemma ProvenBy(w: World, policies: map<string, OwnerPolicy>, id: string, c: Contract)
    requires Ownership(w, policies, c) == Some(true) && w.scan(c) == Some(0) && EntrypointsExist(w, c)
    requires Admissible(w.lex, c.surface) && AllPassed(RunTests(w, id, c.surface.targetTests))
    ensures Proven(w, policies, c, RunTests(w, id, c.surface.targetTests))
  {
  }

  lemma GatedSound(
      w: World, policies: map<string, OwnerPolicy>, id: string, c: Contract, prior: Status, earlier: set<Category>)
    requires Ownership(w, policies, c) == Some(true) && w.scan(c).Some?
    ensures var o := Gated(w, id, c, prior, earlier, w.scan(c).value);
            match o
            case Raised => true
            case Failed(cats, dependency, _) => cats != {} && !dependency && earlier <= cats
            case Passed(next, final, runs) =>
              && Proven(w, policies, c, runs) && earlier == {} && Ready(final)
              && (NotStarted(prior) ==> next == RuntimeRealized && final == Reached(w, c))
  {
    var hits := w.scan(c).value;
    var runs := if Admissible(w.lex, c.surface) then RunTests(w, id, c.surface.targetTests) else [];
    var tested := Admissible(w.lex, c.surface) && AllPassed(runs);
    var found := EntrypointsExist(w, c);
    var categories := earlier + Flag(ForbiddenPattern, hits != 0) + Flag(RuntimeEntrypoint, !found)
        + Flag(BehavioralTest, !tested);
    assert hits != 0 ==> ForbiddenPattern in categories;
    assert !found ==> RuntimeEntrypoint in categories;
    assert !tested ==> BehavioralTest in categories;
    assert earlier <= categories;
    var gates := Gates(true, true, hits == 0, found, tested, VerificationChecks(w, c) && Strict(w.lex, c.surface));
    ConcludeSound(prior, gates, categories, runs);
    if hits == 0 && found && tested { ProvenBy(w, policies, id, c); }
  }

  lemma EvaluateSound(w: World, policies: map<string, OwnerPolicy>, id: string, c: Contract,
                      attempted: seq<string>, status: map<string, Status>, earlier: set<Category>)
    requires id in status
    ensures var o := Evaluate(w, policies, id, c, attempted, status, earlier);
            match o
            case Raised => true
            case Failed(cats, dependency, _) => cats != {} && earlier <= cats
                && (dependency ==> DependencyValidation in cats)
            case Passed(next, final, runs) =>
              && Proven(w, policies, c, runs) && earlier == {} && Ready(final)
              && ValidateDependencies(id, c.dependsOn, attempted, status).None?
              && (NotStarted(status[id]) ==> next == RuntimeRealized && final == Reached(w, c))
  {
    var dependencyOk := ValidateDependencies(id, c.dependsOn, attempted, status).None?;
    if Ownership(w, policies, c) == Some(true) && dependencyOk && w.scan(c).Some? {
      GatedSound(w, policies, id, c, status[id], earlier);
    } else if Ownership(w, policies, c).Some? && !(Ownership(w, policies, c).value && dependencyOk) {
      var cats := earlier + Flag(DependencyValidation, !dependencyOk)
          + Flag(OwnershipValidation, !Ownership(w, policies, c).value);
      assert DependencyValidation in cats || OwnershipValidation in cats;
    }
  }

  /** The six gates, stated on the inputs: ownership, dependencies, no forbidden pattern, entrypoints, and tests that
      are admissible and all return 0. */
  ghost predicate GatesHold(
      w: World, policies: map<string, OwnerPolicy>, id: string, c: Contract, attempted: seq<string>,
      status: map<string, Status>) {
    && Ownership(w, policies, c) == Some(true)
    && ValidateDependencies(id, c.dependsOn, attempted, status).None?
    && w.scan(c) == Some(0)
    && EntrypointsExist(w, c)
    && Admissible(w.lex, c.surface) && AllPassed(RunTests(w, id, c.surface.targetTests))
  }

  lemma GatedPasses(w: World, id: string, c: Contract, prior: Status)
    requires NotStarted(prior) && EntrypointsExist(w, c)
    requires Admissible(w.lex, c.surface) && AllPassed(RunTests(w, id, c.surface.targetTests))
    ensures Gated(w, id, c, prior, {}, 0)
        == Passed(RuntimeRealized, Reached(w, c), RunTests(w, id, c.surface.targetTests))
  {
    TransitionsFromStart(prior,
      Gates(true, true, true, true, true, VerificationChecks(w, c) && Strict(w.lex, c.surface)));
  }

  /** A step that has not started, with no failure recorded, passes exactly when the six gates hold, and then reaches
      the status its verification evidence warrants. */
  lemma StepPassesIff(
      w: World, policies: map<string, OwnerPolicy>, id: string, c: Contract, attempted: seq<string>,
      status: map<string, Status>)
    requires id in status && NotStarted(status[id])
    ensures var o := Evaluate(w, policies, id, c, attempted, status, {});
            && (o.Passed? <==> GatesHold(w, policies, id, c, attempted, status))
            && (o.Passed? ==> o == Passed(RuntimeRealized, Reached(w, c), RunTests(w, id, c.surface.targetTests)))
  {
    if GatesHold(w, policies, id, c, attempted, status) {
      GatedPasses(w, id, c, status[id]);
    } else if Ownership(w, policies, c) == Some(true) && ValidateDependencies(id, c.dependsOn, attempted, status).None?
      && w.scan(c).Some? {
      GatedFails(w, id, c, status[id], w.scan(c).value);
    }
  }

  lemma GatedFails(w: World, id: string, c: Contract, prior: Status, hits: nat)
    requires !(hits == 0 && EntrypointsExist(w, c) && Admissible(w.lex, c.surface)
        && AllPassed(RunTests(w, id, c.surface.targetTests)))
    ensures !Gated(w, id, c, prior, {}, hits).Passed?
  {
    var tested := Admissible(w.lex, c.surface) && AllPassed(RunTests(w, id, c.surface.targetTests));
    var found := EntrypointsExist(w, c);
    var categories := {} + Flag(ForbiddenPattern, hits != 0) + Flag(RuntimeEntrypoint, !found)
        + Flag(BehavioralTest, !tested);
    assert hits != 0 ==> ForbiddenPattern in categories;
    assert !found ==> RuntimeEntrypoint in categories;
    assert !tested ==> BehavioralTest in categories;
  }

  // ------------------------------------------------- invariants of the step loop

  /** What the loop starts from: nothing placed yet, load failures apart from the loaded contracts. */
  ghost predicate Entry(contracts: map<string, Contract>, st: RunState) {
    && contracts.Keys <= st.status.Keys
    && contracts.Keys <= st.files.Keys
    && st.attempted == [] && st.passed == [] && st.updates == [] && st.dependencyFailures == {} && !st.crashed
    && (forall id :: id in contracts ==> id !in st.failed && CriticalOf(st.critical, id) == {})
    && (forall id :: id in st.failed ==> CriticalOf(st.critical, id) != {})
    && (forall id :: id in contracts ==> NotStarted(st.status[id]))
    && (forall id :: id in st.status && Ready(st.status[id]) ==> id in BASELINE)
  }

  /** Nothing recorded under `id` differs. */
  ghost predicate SameAt(a: RunState, b: RunState, id: string) {
    && (id in a.status <==> id in b.status) && (id in a.status ==> b.status[id] == a.status[id])
    && CriticalOf(b.critical, id) == CriticalOf(a.critical, id)
    && (id in b.passed <==> id in a.passed)
    && (id in b.failed <==> id in a.failed)
    && (id in b.runs <==> id in a.runs) && (id in a.runs ==> b.runs[id] == a.runs[id])
  }

  lemma ApplyFrame(st: RunState, id: string, c: Contract, o: Outcome, other: string)
    requires id in st.status && other != id
    ensures SameAt(st, Apply(st, id, c, o), other)
  {
  }

  lemma {:induction false} UntouchedSteps(
      w: World, policies: map<string, OwnerPolicy>, contracts: map<string, Contract>, st: RunState, steps: seq<string>,
      id: string)
    requires contracts.Keys <= st.status.Keys && id !in steps
    ensures SameAt(st, Run(w, policies, contracts, st, steps), id)
  {
    if steps != [] {
      var init, last := steps[..|steps| - 1], steps[|steps| - 1];
      assert id !in init && last != id;
      UntouchedSteps(w, policies, contracts, st, init, id);
      var mid := Run(w, policies, contracts, st, init);
      if !mid.crashed && last in contracts {
        var entered := mid.(attempted := mid.attempted + [last]);
        ApplyFrame(entered, last, contracts[last],
                   Evaluate(w, policies, last, contracts[last], entered.attempted, mid.status,
                            CriticalOf(mid.critical, last)), id);
      }
    }
  }

  /** If the step is listed as passed, it carries its full evidence and stands at the status that evidence warrants. */
  ghost predicate ProvenAt(
      w: World, policies: map<string, OwnerPolicy>, contracts: map<string, Contract>, st: RunState, id: string) {
    id in st.passed ==>
      && id in contracts && id in st.runs && id in st.status
      && Proven(w, policies, contracts[id], st.runs[id])
      && CriticalOf(st.critical, id) == {}
      && st.status[id] == Reached(w, contracts[id])
  }

  lemma StepKeepsProof(w: World, policies: map<string, OwnerPolicy>, contracts: map<string, Contract>,
                       st: RunState, last: string, id: string)
    requires contracts.Keys <= st.status.Keys && ProvenAt(w, policies, contracts, st, id)
    requires last in contracts ==> last !in st.passed && NotStarted(st.status[last])
    ensures ProvenAt(w, policies, contracts, Step(w, policies, contracts, st, last), id)
  {
    if !st.crashed && last in contracts {
      var entered := st.(attempted := st.attempted + [last]);
      var o := Evaluate(w, policies, last, contracts[last], entered.attempted, st.status,
          CriticalOf(st.critical, last));
      if id == last {
        EvaluateSound(w, policies, last, contracts[last], entered.attempted, st.status, CriticalOf(st.critical, last));
      } else {
        ApplyFrame(entered, last, contracts[last], o, id);
      }
    }
  }

  lemma {:induction false} PassedAreAttempted(
      w: World, policies: map<string, OwnerPolicy>, contracts: map<string, Contract>, st: RunState, steps: seq<string>)
    requires Entry(contracts, st)
    ensures forall id :: id in Run(w, policies, contracts, st, steps).passed ==> id in steps
  {
    if steps != [] { PassedAreAttempted(w, policies, contracts, st, steps[..|steps| - 1]); }
  }

  lemma {:induction false} ProvenThroughout(
      w: World, policies: map<string, OwnerPolicy>, contracts: map<string, Contract>, st: RunState, steps: seq<string>,
      id: string)
    requires Entry(contracts, st) && Distinct(steps)
    ensures ProvenAt(w, policies, contracts, Run(w, policies, contracts, st, steps), id)
  {
    if steps != [] {
      var init, last := steps[..|steps| - 1], steps[|steps| - 1];
      ProvenThroughout(w, policies, contracts, st, init, id);
      UntouchedSteps(w, policies, contracts, st, init, last);
      StepKeepsProof(w, policies, contracts, Run(w, policies, contracts, st, init), last, id);
    }
  }

  /** Every step listed as passed carries its full evidence and stands at the status that evidence warrants. */
  lemma PassedStepsAreProven(w: World, policies: map<string, OwnerPolicy>, contracts: map<string, Contract>,
                             st: RunState, steps: seq<string>)
    requires Entry(contracts, st) && Distinct(steps)
    ensures var end := Run(w, policies, contracts, st, steps);
            forall id {:trigger id in end.passed} :: ProvenAt(w, policies, contracts, end, id)
              && (id in end.passed ==> id in steps)
  {
    PassedAreAttempted(w, policies, contracts, st, steps);
    var end := Run(w, policies, contracts, st, steps);
    forall id ensures ProvenAt(w, policies, contracts, end, id) {
      ProvenThroughout(w, policies, contracts, st, steps, id);
    }
  }

  lemma {:induction false} PlacedOnce(w: World, policies: map<string, OwnerPolicy>, contracts: map<string, Contract>,
                                      st: RunState, steps: seq<string>)
    requires Entry(contracts, st) && Distinct(steps)
    requires !Run(w, policies, contracts, st, steps).crashed
    ensures var end := Run(w, policies, contracts, st, steps);
            forall id :: id in steps && id in contracts ==> (id in end.passed <==> id !in end.failed)
  {
    if steps != [] {
      var init, last := steps[..|steps| - 1], steps[|steps| - 1];
      PlacedOnce(w, policies, contracts, st, init);
      UntouchedSteps(w, policies, contracts, st, init, last);
    }
  }

  /** Every failed step has a critical failure, and every dependency failure is flagged as one. */
  ghost predicate Flagged(st: RunState) {
    && (forall id :: id in st.failed ==> CriticalOf(st.critical, id) != {})
    && (forall id :: id in st.dependencyFailures ==> DependencyValidation in CriticalOf(st.critical, id))
  }

  lemma ApplyFlags(st: RunState, id: string, c: Contract, o: Outcome)
    requires Flagged(st) && id in st.status
    requires match o
             case Failed(cats, dependency, _) =>
               cats != {} && CriticalOf(st.critical, id) <= cats && (dependency ==> DependencyValidation in cats)
             case _ => true
    ensures Flagged(Apply(st, id, c, o))
    ensures forall x :: x in st.failed ==> x in Apply(st, id, c, o).failed
    ensures forall x :: x in Apply(st, id, c, o).failed ==> x in st.failed || x == id
  {
  }

  lemma {:induction false} FailedAreCritical(
      w: World, policies: map<string, OwnerPolicy>, contracts: map<string, Contract>, st: RunState, steps: seq<string>)
    requires Entry(contracts, st)
    ensures Flagged(Run(w, policies, contracts, st, steps))
    ensures forall id :: id in Run(w, policies, contracts, st, steps).failed ==> id in st.failed || id in steps
    ensures forall id :: id in st.failed ==> id in Run(w, policies, contracts, st, steps).failed
  {
    if steps != [] {
      var init, last := steps[..|steps| - 1], steps[|steps| - 1];
      FailedAreCritical(w, policies, contracts, st, init);
      var mid := Run(w, policies, contracts, st, init);
      if !mid.crashed && last in contracts {
        var entered := mid.(attempted := mid.attempted + [last]);
        EvaluateSound(w, policies, last, contracts[last], entered.attempted, mid.status,
          CriticalOf(mid.critical, last));
        ApplyFlags(entered, last, contracts[last],
                   Evaluate(w, policies, last, contracts[last], entered.attempted, mid.status,
                     CriticalOf(mid.critical, last)));
      }
    }
  }

  /** Unless a step raises, every loaded step is placed once, and a failed one always has a critical failure. */
  lemma StepsArePlaced(w: World, policies: map<string, OwnerPolicy>, contracts: map<string, Contract>,
                       st: RunState, steps: seq<string>)
    requires Entry(contracts, st) && Distinct(steps)
    requires !Run(w, policies, contracts, st, steps).crashed
    ensures var end := Run(w, policies, contracts, st, steps);
            && (forall id :: id in steps && id in contracts ==> (id in end.passed <==> id !in end.failed))
            && (forall id :: id in end.failed ==>
               (id in st.failed || id in steps) && CriticalOf(end.critical, id) != {})
            && (forall id :: id in st.failed ==> id in end.failed)
            && (forall id :: id in end.dependencyFailures ==> DependencyValidation in CriticalOf(end.critical, id))
  {
    PlacedOnce(w, policies, contracts, st, steps);
    FailedAreCritical(w, policies, contracts, st, steps);
  }

  // ------------------------------------------------------------- status updates

  /** Replaying reported updates in order; None when some `from` is not the status at that point. */
  function Replay(start: map<string, Status>, updates: seq<Update>): Option<map<string, Status>> {
    if updates == [] then Some(start)
    else
      var u := updates[|updates| - 1];
      match Replay(start, updates[..|updates| - 1])
      case None => None
      case Some(m) => if u.step in m && m[u.step] == u.from then Some(m[u.step := u.to]) else None
  }

  lemma ReplayOne(start: map<string, Status>, updates: seq<Update>, u: Update)
    ensures Replay(start, updates + [u]) ==
            match Replay(start, updates)
            case None => None
            case Some(m) => if u.step in m && m[u.step] == u.from then Some(m[u.step := u.to]) else None
  {
    assert (updates + [u])[..|updates|] == updates;
  }

  lemma ReplayMove(start: map<string, Status>, updates: seq<Update>, m: map<string, Status>, id: string, to: Status)
    requires Replay(start, updates) == Some(m) && id in m
    ensures Replay(start, updates + Move(id, m[id], to)) == Some(m[id := to])
  {
    if to != m[id] {
      ReplayOne(start, updates, Update(id, m[id], to));
    } else {
      assert updates + [] == updates && m[id := to] == m;
    }
  }

  lemma TwoMoves(
      updates: seq<Update>, first: seq<Update>, second: seq<Update>, m: map<string, Status>, id: string, a: Status,
      b: Status)
    ensures updates + (first + second) == (updates + first) + second
    ensures m[id := a][id := b] == m[id := b]
  {
  }

  lemma ReplayStep(
      start: map<string, Status>, updates: seq<Update>, m: map<string, Status>, id: string, next: Status, final: Status)
    requires Replay(start, updates) == Some(m) && id in m
    ensures Replay(start, updates + StepUpdates(id, m[id], next, final)) == Some(m[id := final])
  {
    var first, second := Move(id, m[id], next), Move(id, next, final);
    ReplayMove(start, updates, m, id, next);
    ReplayMove(start, updates + first, m[id := next], id, final);
    TwoMoves(updates, first, second, m, id, next, final);
  }

  /** The status updates replay from the start statuses to the end statuses, every `from` matching. */
  lemma {:induction false} UpdatesReplay(w: World, policies: map<string, OwnerPolicy>, contracts: map<string, Contract>,
                                         st: RunState, steps: seq<string>)
    requires contracts.Keys <= st.status.Keys && st.updates == []
    ensures var end := Run(w, policies, contracts, st, steps);
            Replay(st.status, end.updates) == Some(end.status)
  {
    if steps != [] {
      var init, last := steps[..|steps| - 1], steps[|steps| - 1];
      UpdatesReplay(w, policies, contracts, st, init);
      var mid := Run(w, policies, contracts, st, init);
      if !mid.crashed && last in contracts {
        var o := Evaluate(w, policies, last, contracts[last], mid.attempted + [last], mid.status,
                          CriticalOf(mid.critical, last));
        if o.Passed? { ReplayStep(st.status, mid.updates, mid.status, last, o.next, o.final); }
      }
    }
  }

  // ---------------------------------------------------------- the contract files

  /** The contract directory once the steps in `passed` have been written at their reached status. */
  ghost function Overlaid(
      w: World, files: map<string, Contract>, contracts: map<string, Contract>, passed: seq<string>)
      : map<string, Contract> {
    map id | id in files ::
      if id in passed && id in contracts
      then contracts[id].(realizationStatus := Reached(w, contracts[id])) else files[id]
  }

  lemma OverlayOne(
      w: World, files: map<string, Contract>, contracts: map<string, Contract>, passed: seq<string>, id: string)
    requires id in contracts && id in files
    ensures Overlaid(w, files, contracts, passed)[id := contracts[id].(realizationStatus := Reached(w, contracts[id]))]
         == Overlaid(w, files, contracts, passed + [id])
  {
  }

  /** The directory holds exactly the passed steps at their reached status; nothing else is written, whatever the
      verdict. */
  lemma {:induction false} StoreHoldsPassedSteps(
      w: World, policies: map<string, OwnerPolicy>, contracts: map<string, Contract>, st: RunState, steps: seq<string>)
    requires Entry(contracts, st) && Distinct(steps)
    ensures var end := Run(w, policies, contracts, st, steps);
            end.files == Overlaid(w, st.files, contracts, end.passed)
  {
    if steps == [] {
      assert st.files == Overlaid(w, st.files, contracts, []);
    } else {
      var init, last := steps[..|steps| - 1], steps[|steps| - 1];
      StoreHoldsPassedSteps(w, policies, contracts, st, init);
      UntouchedSteps(w, policies, contracts, st, init, last);
      var mid := Run(w, policies, contracts, st, init);
      if !mid.crashed && last in contracts {
        EvaluateSound(w, policies, last, contracts[last], mid.attempted + [last], mid.status,
                      CriticalOf(mid.critical, last));
        OverlayOne(w, st.files, contracts, mid.passed, last);
      }
    }
  }

  // ------------------------------------------------------------- the dependencies

  /** A dependency is baseline or listed as passed before the n-th passed step. */
  ghost predicate Settled(passed: seq<string>, n: nat, d: string) {
    d in BASELINE || exists k :: 0 <= k < n && k < |passed| && passed[k] == d
  }

  /** Every ready status is settled by the steps passed so far. */
  ghost predicate ReadySettled(st: RunState) {
    forall id {:trigger id in st.status} :: id in st.status && Ready(st.status[id]) ==>
      Settled(st.passed, |st.passed|, id)
  }

  /** Every dependency of a passed step is settled by the steps passed before it. */
  ghost predicate DependenciesSettled(contracts: map<string, Contract>, passed: seq<string>) {
    forall n :: 0 <= n < |passed| && passed[n] in contracts ==> StepSettled(contracts[passed[n]], passed, n)
  }

  ghost predicate StepSettled(c: Contract, passed: seq<string>, n: nat) {
    forall d :: d in c.dependsOn ==> Settled(passed, n, d)
  }

  lemma SettledExtends(passed: seq<string>, n: nat, d: string, more: seq<string>)
    requires Settled(passed, n, d) && n <= |passed|
    ensures Settled(passed + more, n, d)
  {
    if d !in BASELINE {
      var k :| 0 <= k < n && passed[k] == d;
      assert (passed + more)[k] == d;
    }
  }

  /** A step either leaves the passed steps and the statuses alone, or passes and changes its own status. */
  ghost predicate OneMore(st: RunState, r: RunState, id: string) {
    || (r.passed == st.passed && r.status == st.status)
    || (r.passed == st.passed + [id]
        && forall other :: other != id && other in r.status ==>
           other in st.status && r.status[other] == st.status[other])
  }

  lemma ApplyListing(st: RunState, id: string, c: Contract, o: Outcome)
    requires id in st.status
    ensures OneMore(st, Apply(st, id, c, o), id)
  {
  }

  lemma StepListing(
      w: World, policies: map<string, OwnerPolicy>, contracts: map<string, Contract>, st: RunState, id: string)
    requires contracts.Keys <= st.status.Keys
    ensures OneMore(st, Step(w, policies, contracts, st, id), id)
  {
    if !st.crashed && id in contracts {
      var entered := st.(attempted := st.attempted + [id]);
      ApplyListing(entered, id, contracts[id],
                   Evaluate(w, policies, id, contracts[id], entered.attempted, st.status, CriticalOf(st.critical, id)));
    }
  }

  lemma ReadyStaysSettled(st: RunState, r: RunState, id: string)
    requires ReadySettled(st) && OneMore(st, r, id)
    ensures ReadySettled(r)
  {
    forall x | x in r.status && Ready(r.status[x]) ensures Settled(r.passed, |r.passed|, x) {
      if r.passed == st.passed + [id] {
        if x == id { assert r.passed[|st.passed|] == x; } else { SettledExtends(st.passed, |st.passed|, x, [id]); }
      }
    }
  }

  lemma {:induction false} ReadyMeansPassed(
      w: World, policies: map<string, OwnerPolicy>, contracts: map<string, Contract>, st: RunState, steps: seq<string>)
    requires Entry(contracts, st)
    ensures ReadySettled(Run(w, policies, contracts, st, steps))
  {
    if steps != [] {
      var init, last := steps[..|steps| - 1], steps[|steps| - 1];
      var mid := Run(w, policies, contracts, st, init);
      ReadyMeansPassed(w, policies, contracts, st, init);
      StepListing(w, policies, contracts, mid, last);
      ReadyStaysSettled(mid, Step(w, policies, contracts, mid, last), last);
    }
  }

  /** No step passes before its dependencies: each is baseline or an earlier passed step of the same invocation. */
  lemma {:induction false} DependenciesComeFirst(
      w: World, policies: map<string, OwnerPolicy>, contracts: map<string, Contract>, st: RunState, steps: seq<string>)
    requires Entry(contracts, st)
    ensures DependenciesSettled(contracts, Run(w, policies, contracts, st, steps).passed)
  {
    if steps != [] {
      var init, last := steps[..|steps| - 1], steps[|steps| - 1];
      DependenciesComeFirst(w, policies, contracts, st, init);
      ReadyMeansPassed(w, policies, contracts, st, init);
      var mid, end := Run(w, policies, contracts, st, init), Run(w, policies, contracts, st, steps);
      forall n, d | 0 <= n < |end.passed| && end.passed[n] in contracts && d in contracts[end.passed[n]].dependsOn
        ensures Settled(end.passed, n, d)
      {
        if end.passed == mid.passed {
          assert StepSettled(contracts[mid.passed[n]], mid.passed, n);
        } else {
          assert end.passed == mid.passed + [last];
          if n < |mid.passed| {
            assert StepSettled(contracts[mid.passed[n]], mid.passed, n);
          } else {
            var attempted := mid.attempted + [last];
            EvaluateSound(w, policies, last, contracts[last], attempted, mid.status, CriticalOf(mid.critical, last));
            DependenciesValidIff(last, contracts[last].dependsOn, attempted, mid.status);
            assert d in mid.status;
          }
          SettledExtends(mid.passed, n, d, [last]);
        }
      }
    }
  }

  // ------------------------------------------------------- the whole invocation

  lemma LoadedIsNotStarted(w: World, files: map<string, Contract>, id: string)
    requires Load(w, files, id).Ok?
    ensures id in files && NotStarted(files[id].realizationStatus)
    ensures NotStarted(StartOf(Load(w, files, id).value))
    ensures Load(w, files, id).value.dependsOn == files[id].dependsOn
  {
  }

  lemma StartStatusFacts(w: World, files: map<string, Contract>, steps: seq<string>)
    requires Supported(steps)
    ensures var contracts, status := Contracts(w, files, steps), StartStatus(Contracts(w, files, steps));
            && contracts.Keys <= status.Keys
            && (forall id :: id in contracts ==> id in files && NotStarted(status[id]))
            && (forall id :: id in status && Ready(status[id]) ==> id in BASELINE)
  {
    var contracts := Contracts(w, files, steps);
    forall id | id in contracts ensures id in files && NotStarted(StartOf(contracts[id])) {
      LoadedIsNotStarted(w, files, id);
    }
  }

  lemma StartListsFacts(w: World, files: map<string, Contract>, steps: seq<string>)
    ensures var failures := LoadFailures(w, files, steps);
            && (forall id :: id in SortedStrings(failures.Keys) <==> id in failures)
            && (forall id :: id in Contracts(w, files, steps) ==> id !in failures)
            && (forall id :: id in failures ==> CriticalOf(StartCritical(steps, failures), id) == {ContractValidation})
            && (forall id :: id !in failures ==> CriticalOf(StartCritical(steps, failures), id) == {})
  {
    SortedStringsLists(LoadFailures(w, files, steps).Keys);
  }

  lemma EntryHolds(w: World, files: map<string, Contract>, steps: seq<string>)
    requires Supported(steps)
    ensures Entry(Contracts(w, files, steps), Start(w, files, steps))
  {
    StartStatusFacts(w, files, steps);
    StartListsFacts(w, files, steps);
  }

  /** Every step that loads is placed in exactly one list; the others are listed as failed from the start. */
  lemma InvocationPlacesEveryStep(w: World, files: map<string, Contract>, steps: seq<string>)
    requires w.policy.Some? && Supported(steps) && Distinct(steps)
    requires !Invocation(w, files, steps).crashed
    ensures var end := Invocation(w, files, steps);
            && (forall id :: id in steps ==> (id in end.passed <==> id !in end.failed))
            && (forall id :: id in end.passed || id in end.failed ==> id in steps)
            && (forall id :: id in end.passed ==> CriticalOf(end.critical, id) == {})
            && (forall id :: id in end.failed ==> CriticalOf(end.critical, id) != {})
  {
    EntryHolds(w, files, steps);
    var contracts, st := Contracts(w, files, steps), Start(w, files, steps);
    SortedStringsLists(LoadFailures(w, files, steps).Keys);
    PassedStepsAreProven(w, w.policy.value, contracts, st, steps);
    StepsArePlaced(w, w.policy.value, contracts, st, steps);
    var end := Invocation(w, files, steps);
    forall id | id in steps ensures id in end.passed <==> id !in end.failed {
      if id !in contracts { assert id in LoadFailures(w, files, steps); }
    }
  }

  lemma {:induction false} CriticalKeys(w: World, policies: map<string, OwnerPolicy>, contracts: map<string, Contract>,
                                        st: RunState, steps: seq<string>)
    requires contracts.Keys <= st.status.Keys
    ensures forall id :: id in Run(w, policies, contracts, st, steps).critical ==> id in st.critical || id in steps
  {
    if steps != [] { CriticalKeys(w, policies, contracts, st, steps[..|steps| - 1]); }
  }

  /** A failed step always raises a critical flag, and only failed steps do: the wipe happens exactly when some step
      failed. */
  lemma WipeIffSomeStepFailed(w: World, files: map<string, Contract>, steps: seq<string>)
    requires w.policy.Some? && Supported(steps) && Distinct(steps)
    requires !Invocation(w, files, steps).crashed
    ensures var end := Invocation(w, files, steps);
            && (AnyCritical(end.critical) <==> end.failed != [])
            && (end.dependencyFailures != {} ==> AnyCritical(end.critical))
  {
    InvocationPlacesEveryStep(w, files, steps);
    EntryHolds(w, files, steps);
    var end := Invocation(w, files, steps);
    CriticalKeys(w, w.policy.value, Contracts(w, files, steps), Start(w, files, steps), steps);
    StepsArePlaced(w, w.policy.value, Contracts(w, files, steps), Start(w, files, steps), steps);
    if end.failed != [] {
      assert end.failed[0] in end.failed;
      assert CriticalOf(end.critical, end.failed[0]) != {};
    }
    forall id | id in end.critical && end.critical[id] != {} ensures id in end.failed {
      assert CriticalOf(end.critical, id) != {};
      assert id in steps;
    }
    if d :| d in end.dependencyFailures {
      assert CriticalOf(end.critical, d) != {};
    }
  }

  /** No partial success: a verdict of pass lists exactly the requested steps, any other verdict lists no step and no
      status update. */
  lemma VerdictIsAllOrNothing(w: World, files: map<string, Contract>, steps: seq<string>)
    requires Distinct(steps) && Realize(w, files, steps).0.Ok?
    ensures var report, end := Realize(w, files, steps).0.value, Invocation(w, files, steps);
            && (report.pass <==> steps != [] && forall id :: id in steps ==> id in end.passed)
            && (report.pass ==>
                  report.passed == SortedStrings(SetOf(steps)) && report.failed == [] && report.updates == end.updates)
            && (!report.pass ==> report.passed == [] && report.updates == [])
  {
    InvocationPlacesEveryStep(w, files, steps);
    WipeIffSomeStepFailed(w, files, steps);
    var end := Invocation(w, files, steps);
    var report := Realize(w, files, steps).0.value;
    if end.failed == [] {
      assert SetOf(end.passed) == SetOf(steps);
      assert SetOf(end.failed) == {};
    } else {
      assert end.failed[0] in end.failed;
    }
    if steps == [] && end.failed == [] {
      assert forall id :: id !in end.passed;
      NothingPassesWithoutSteps(w, files);
    }
  }

  lemma NothingPassesWithoutSteps(w: World, files: map<string, Contract>)
    requires w.policy.Some?
    ensures Invocation(w, files, []).passed == [] && Invocation(w, files, []).updates == []
    ensures SortedStrings(SetOf<string>([])) == []
  {
    SortedStringsLists(SetOf<string>([]));
  }

  /** No vacuous behavioural proof: a pass means every requested contract loaded, went through every gate, and had all
      its declared tests classified behavioural and run to 0, and its file now holds the status this warrants. */
  lemma PassIsEarned(w: World, files: map<string, Contract>, steps: seq<string>, id: string)
    requires Distinct(steps) && Realize(w, files, steps).0.Ok? && Realize(w, files, steps).0.value.pass
    requires id in steps
    ensures var (report, after) := (Realize(w, files, steps).0.value, Realize(w, files, steps).1);
            && Load(w, files, id).Ok?
            && var c := Load(w, files, id).value;
            && id in report.runs && Proven(w, w.policy.value, c, report.runs[id])
            && id in after && after[id] == c.(realizationStatus := Reached(w, c))
  {
    VerdictIsAllOrNothing(w, files, steps);
    EntryHolds(w, files, steps);
    var contracts, st := Contracts(w, files, steps), Start(w, files, steps);
    PassedStepsAreProven(w, w.policy.value, contracts, st, steps);
    StoreHoldsPassedSteps(w, w.policy.value, contracts, st, steps);
  }

  /** A pass reports updates that replay, every `from` matching, from the start statuses to the statuses now on file. */
  lemma ReportedUpdatesReplay(w: World, files: map<string, Contract>, steps: seq<string>)
    requires Distinct(steps) && Realize(w, files, steps).0.Ok? && Realize(w, files, steps).0.value.pass
    ensures var (report, after) := (Realize(w, files, steps).0.value, Realize(w, files, steps).1);
            var final := Replay(StartStatus(Contracts(w, files, steps)), report.updates);
            && final.Some?
            && forall id :: id in steps ==>
               id in final.value && id in after && final.value[id] == after[id].realizationStatus
  {
    VerdictIsAllOrNothing(w, files, steps);
    EntryHolds(w, files, steps);
    var contracts, st := Contracts(w, files, steps), Start(w, files, steps);
    UpdatesReplay(w, w.policy.value, contracts, st, steps);
    PassedStepsAreProven(w, w.policy.value, contracts, st, steps);
    StoreHoldsPassedSteps(w, w.policy.value, contracts, st, steps);
  }

  lemma PassedFileIsReady(w: World, files: map<string, Contract>, steps: seq<string>, id: string)
    requires w.policy.Some? && Supported(steps) && Distinct(steps)
    requires id in Invocation(w, files, steps).passed
    ensures var after := Realize(w, files, steps).1;
            && id in after && Ready(after[id].realizationStatus)
            && id in files && !Ready(files[id].realizationStatus)
  {
    EntryHolds(w, files, steps);
    var contracts, st := Contracts(w, files, steps), Start(w, files, steps);
    PassedStepsAreProven(w, w.policy.value, contracts, st, steps);
    StoreHoldsPassedSteps(w, w.policy.value, contracts, st, steps);
    assert Load(w, files, id).Ok?;
    LoadedIsNotStarted(w, files, id);
  }

  lemma StoreIsOverlay(w: World, files: map<string, Contract>, steps: seq<string>)
    requires w.policy.Some? && Supported(steps) && Distinct(steps)
    ensures Realize(w, files, steps).1
        == Overlaid(w, files, Contracts(w, files, steps), Invocation(w, files, steps).passed)
  {
    EntryHolds(w, files, steps);
    StoreHoldsPassedSteps(w, w.policy.value, Contracts(w, files, steps), Start(w, files, steps), steps);
  }

  lemma OverlaidByNone(w: World, files: map<string, Contract>, contracts: map<string, Contract>)
    ensures Overlaid(w, files, contracts, []) == files
  {
  }

  /** The wipe does not undo writes: whatever the verdict, and also when a step raises, the directory holds the passed
      steps at their reached status. It is unchanged exactly when no step got that far. */
  lemma StoreAfterInvocation(w: World, files: map<string, Contract>, steps: seq<string>)
    requires w.policy.Some? && Supported(steps) && Distinct(steps)
    ensures var (after, end) := (Realize(w, files, steps).1, Invocation(w, files, steps));
            && after == Overlaid(w, files, Contracts(w, files, steps), end.passed)
            && (after == files <==> end.passed == [])
  {
    StoreIsOverlay(w, files, steps);
    OverlaidByNone(w, files, Contracts(w, files, steps));
    var passed := Invocation(w, files, steps).passed;
    if passed != [] {
      assert passed[0] in passed;
      PassedFileIsReady(w, files, steps, passed[0]);
    }
  }

  /** Realization is once only: after an invocation, no later one that requests a step it passed can pass,
      whatever has changed in the world meanwhile, as long as that step's file has not. */
  lemma RealizedStepsAreRejected(w: World, files: map<string, Contract>, steps: seq<string>,
                                 later: World, files': map<string, Contract>, again: seq<string>, id: string)
    requires w.policy.Some? && Supported(steps) && Distinct(steps) && Distinct(again)
    requires id in Invocation(w, files, steps).passed && id in again
    requires id in files' && id in Realize(w, files, steps).1 && files'[id] == Realize(w, files, steps).1[id]
    ensures Realize(later, files', again).0.Ok? ==> !Realize(later, files', again).0.value.pass
  {
    PassedFileIsReady(w, files, steps, id);
    if Realize(later, files', again).0.Ok? && Realize(later, files', again).0.value.pass {
      PassIsEarned(later, files', again, id);
      LoadedIsNotStarted(later, files', id);
    }
  }

  /** A step with a dependency outside the baseline passes only together with that dependency, in one invocation. */
  lemma PassNeedsDependenciesInInvocation(
      w: World, files: map<string, Contract>, steps: seq<string>, id: string, d: string)
    requires Distinct(steps) && Realize(w, files, steps).0.Ok? && Realize(w, files, steps).0.value.pass
    requires id in steps && id in files && d in files[id].dependsOn && d !in BASELINE
    ensures d in steps && d != id
  {
    VerdictIsAllOrNothing(w, files, steps);
    InvocationPlacesEveryStep(w, files, steps);
    EntryHolds(w, files, steps);
    PassIsEarned(w, files, steps, id);
    LoadedIsNotStarted(w, files, id);
    var contracts := Contracts(w, files, steps);
    DependenciesComeFirst(w, w.policy.value, contracts, Start(w, files, steps), steps);
    var passed := Invocation(w, files, steps).passed;
    var n := FirstIndex(passed, id);
    assert StepSettled(contracts[id], passed, n);
    var k :| 0 <= k < n && passed[k] == d;
    assert passed[k] in passed && passed[k] in passed[..n];
  }

  lemma SameContractsBesideMissing(w: World, files: map<string, Contract>, a: string, b: string)
    requires b !in files
    ensures Contracts(w, files, [a, b]) == Contracts(w, files, [a])
  {
    var one, two := [a], [a, b];
    assert forall id :: id in two && Load(w, files, id).Ok? ==> id in one;
  }

  lemma StepDependsOn(
      w: World, policies: map<string, OwnerPolicy>, contracts: map<string, Contract>, a: RunState, b: RunState,
      id: string)
    requires contracts.Keys <= a.status.Keys
    requires a.status == b.status && a.files == b.files && a.attempted == b.attempted && a.passed == b.passed
        && a.crashed == b.crashed
    requires CriticalOf(a.critical, id) == CriticalOf(b.critical, id) || id !in contracts
    ensures var (x, y) := (Step(w, policies, contracts, a, id), Step(w, policies, contracts, b, id));
            x.passed == y.passed && x.files == y.files && x.crashed == y.crashed
  {
  }

  lemma SameRunBesideMissing(w: World, files: map<string, Contract>, a: string, b: string)
    requires w.policy.Some? && b !in files
    ensures var (one, two) := (Invocation(w, files, [a]), Invocation(w, files, [a, b]));
            two.passed == one.passed && two.files == one.files && two.crashed == one.crashed
  {
    var one, two := [a], [a, b];
    var policies, contracts := w.policy.value, Contracts(w, files, one);
    SameContractsBesideMissing(w, files, a, b);
    StartListsFacts(w, files, one);
    StartListsFacts(w, files, two);
    var alone, beside := Start(w, files, one), Start(w, files, two);
    StepDependsOn(w, policies, contracts, alone, beside, a);
    OneStepRun(w, policies, contracts, alone, a);
    OneStepRun(w, policies, contracts, beside, a);
    assert two[..1] == one && b !in contracts;
  }

  lemma OneStepRun(
      w: World, policies: map<string, OwnerPolicy>, contracts: map<string, Contract>, st: RunState, id: string)
    requires contracts.Keys <= st.status.Keys
    ensures Run(w, policies, contracts, st, [id]) == Step(w, policies, contracts, st, id)
  {
    assert [id][..0] == [];
    assert Run(w, policies, contracts, st, []) == st;
  }

  lemma WrittenAlike(w: World, files: map<string, Contract>, a: string, b: string)
    requires w.policy.Some? && Supported([a, b]) && b !in files
    requires a in Invocation(w, files, [a]).passed
    ensures Realize(w, files, [a, b]).1 == Realize(w, files, [a]).1 != files
  {
    SameRunBesideMissing(w, files, a, b);
    assert a in [a, b];
    PassedFileIsReady(w, files, [a], a);
  }

  lemma MissingStepFails(w: World, files: map<string, Contract>, steps: seq<string>, id: string)
    requires Distinct(steps) && Realize(w, files, steps).0.Ok? && id in steps && id !in files
    ensures var report := Realize(w, files, steps).0.value; !report.pass && report.passed == [] && report.updates == []
  {
    VerdictIsAllOrNothing(w, files, steps);
    EntryHolds(w, files, steps);
    ProvenThroughout(w, w.policy.value, Contracts(w, files, steps), Start(w, files, steps), steps, id);
    assert id !in Contracts(w, files, steps);
  }

  lemma OkBesideMissing(w: World, files: map<string, Contract>, a: string, b: string)
    requires b in SUPPORTED_STEPS && b !in files && Realize(w, files, [a]).0.Ok?
    ensures w.policy.Some? && Supported([a, b]) && Realize(w, files, [a, b]).0.Ok?
  {
    assert a in [a];
    SameRunBesideMissing(w, files, a, b);
  }

  /** The wipe leaves a written file behind: a step that passes alone also passes beside a step whose contract is
      missing, and its file is rewritten, yet that second report fails and lists neither the step nor its updates. */
  lemma WipedReportLeavesWrites(w: World, files: map<string, Contract>, a: string, b: string)
    requires a != b && b in SUPPORTED_STEPS && b !in files
    requires Realize(w, files, [a]).0.Ok? && Realize(w, files, [a]).0.value.pass
    ensures var (result, after) := Realize(w, files, [a, b]);
            && result.Ok? && !result.value.pass && result.value.passed == [] && result.value.updates == []
            && after == Realize(w, files, [a]).1 != files
  {
    OkBesideMissing(w, files, a, b);
    assert b in [a, b];
    MissingStepFails(w, files, [a, b], b);
    assert a in Invocation(w, files, [a]).passed by {
      VerdictIsAllOrNothing(w, files, [a]);
      assert a in [a];
    }
    WrittenAlike(w, files, a, b);
  }
}
