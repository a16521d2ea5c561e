/** When an invocation of the roadmap realization runner passes, and when it writes nothing, stated on what it reads. */
module RoadmapVerdict {
  import opened Wrappers
  import opened Ordering
  import opened RealizationRuntime
  import opened RoadmapRunner
  import opened RoadmapSafety

  // -------------------------------------------------------------------- one step

  /** The gates raise: shlex refuses a test command, or a file to scan for forbidden patterns is missing. */
  ghost predicate Raises(
    w: World, policies: map<string, OwnerPolicy>, id: string, c: Contract, attempted: seq<string>,
    status: map<string, Status>)
  {
    || Ownership(w, policies, c).None?
    || (Ownership(w, policies, c) == Some(true)
        && ValidateDependencies(id, c.dependsOn, attempted, status).None? && w.scan(c).None?)
  }

  lemma ConcludeReturns(prior: Status)
    requires NotStarted(prior)
    ensures forall g, categories, runs :: !Conclude(prior, g, categories, runs).Raised?
  {
  }

  lemma GatedReturns(w: World, id: string, c: Contract, prior: Status, hits: nat)
    requires NotStarted(prior)
    ensures !Gated(w, id, c, prior, {}, hits).Raised?
  {
    ConcludeReturns(prior);
  }

  lemma RaisedIff(
    w: World, policies: map<string, OwnerPolicy>, id: string, c: Contract, attempted: seq<string>,
    status: map<string, Status>)
    requires id in status && NotStarted(status[id])
    ensures Evaluate(w, policies, id, c, attempted, status, {}).Raised? <==>
        Raises(w, policies, id, c, attempted, status)
  {
    if w.scan(c).Some? { GatedReturns(w, id, c, status[id], w.scan(c).value); }
  }

  lemma ApplyOutcome(st: RunState, id: string, c: Contract, o: Outcome)
    requires id in st.status && !st.crashed
    ensures Apply(st, id, c, o).attempted == st.attempted
    ensures Apply(st, id, c, o).crashed <==> o.Raised?
    ensures o.Passed? ==>
      Apply(st, id, c, o).passed == st.passed + [id] && Apply(st, id, c, o).status == st.status[id := o.final]
    ensures !o.Passed? ==> Apply(st, id, c, o).passed == st.passed && Apply(st, id, c, o).status == st.status
  {
  }

  /** What a step does to the lists and statuses, decided by its inputs. */
  ghost predicate StepEffect(
    w: World, policies: map<string, OwnerPolicy>, c: Contract, st: RunState, r: RunState, id: string)
  {
    && r.attempted == st.attempted + [id]
    && (r.crashed <==> Raises(w, policies, id, c, r.attempted, st.status))
    && (if GatesHold(w, policies, id, c, r.attempted, st.status)
        then r.passed == st.passed + [id] && r.status == st.status[id := Reached(w, c)]
        else r.passed == st.passed && r.status == st.status)
  }

  lemma StepHasEffect(
    w: World, policies: map<string, OwnerPolicy>, contracts: map<string, Contract>, st: RunState, id: string)
    requires contracts.Keys <= st.status.Keys && !st.crashed && id in contracts
    requires NotStarted(st.status[id]) && CriticalOf(st.critical, id) == {}
    ensures StepEffect(w, policies, contracts[id], st, Step(w, policies, contracts, st, id), id)
  {
    var attempted := st.attempted + [id];
    StepPassesIff(w, policies, id, contracts[id], attempted, st.status);
    RaisedIff(w, policies, id, contracts[id], attempted, st.status);
    ApplyOutcome(st.(attempted := attempted), id, contracts[id],
                 Evaluate(w, policies, id, contracts[id], attempted, st.status, {}));
  }

  // ------------------------------------------------------------------- the run so far

  lemma RunStep(
    w: World, policies: map<string, OwnerPolicy>, contracts: map<string, Contract>, st: RunState,
    steps: seq<string>, n: nat)
    requires contracts.Keys <= st.status.Keys && n < |steps|
    ensures Run(w, policies, contracts, st, steps[..n + 1])
         == Step(w, policies, contracts, Run(w, policies, contracts, st, steps[..n]), steps[n])
  {
    assert steps[..n + 1][..n] == steps[..n];
  }

  /** Until its turn, a step of distinct steps stands as it started. */
  lemma NextIsUntouched(
    w: World, policies: map<string, OwnerPolicy>, contracts: map<string, Contract>, st: RunState,
    steps: seq<string>, n: nat)
    requires Entry(contracts, st) && Distinct(steps) && n < |steps| && steps[n] in contracts
    ensures var mid := Run(w, policies, contracts, st, steps[..n]);
            && NotStarted(mid.status[steps[n]]) && CriticalOf(mid.critical, steps[n]) == {} && steps[n] !in mid.passed
  {
    UntouchedSteps(w, policies, contracts, st, steps[..n], steps[n]);
  }

  lemma TurnHasEffect(
    w: World, policies: map<string, OwnerPolicy>, contracts: map<string, Contract>, st: RunState,
    steps: seq<string>, n: nat)
    requires Entry(contracts, st) && Distinct(steps) && n < |steps| && steps[n] in contracts
    requires !Run(w, policies, contracts, st, steps[..n]).crashed
    ensures StepEffect(w, policies, contracts[steps[n]], Run(w, policies, contracts, st, steps[..n]),
                       Run(w, policies, contracts, st, steps[..n + 1]), steps[n])
  {
    NextIsUntouched(w, policies, contracts, st, steps, n);
    StepHasEffect(w, policies, contracts, Run(w, policies, contracts, st, steps[..n]), steps[n]);
    RunStep(w, policies, contracts, st, steps, n);
  }

  lemma TurnIsSkipped(
    w: World, policies: map<string, OwnerPolicy>, contracts: map<string, Contract>, st: RunState,
    steps: seq<string>, n: nat)
    requires contracts.Keys <= st.status.Keys && n < |steps|
    requires steps[n] !in contracts || Run(w, policies, contracts, st, steps[..n]).crashed
    ensures Run(w, policies, contracts, st, steps[..n + 1]) == Run(w, policies, contracts, st, steps[..n])
  {
    RunStep(w, policies, contracts, st, steps, n);
  }

  // ------------------------------------------------------------------ when all steps pass

  /** The statuses once the steps in `done` have reached theirs. */
  ghost function StatusAfter(
    w: World, contracts: map<string, Contract>, start: map<string, Status>, done: seq<string>): map<string, Status>
  {
    map id | id in start :: if id in done && id in contracts then Reached(w, contracts[id]) else start[id]
  }

  lemma StatusAfterOne(
    w: World, contracts: map<string, Contract>, start: map<string, Status>, done: seq<string>, id: string)
    requires id in contracts && id in start
    ensures StatusAfter(w, contracts, start, done)[id := Reached(w, contracts[id])]
         == StatusAfter(w, contracts, start, done + [id])
    ensures StatusAfter(w, contracts, start, []) == start
  {
  }

  /** Step n loads, and the six gates hold of it once the steps before it have been attempted and reached their
      status. */
  ghost predicate Ripe(
    w: World, policies: map<string, OwnerPolicy>, contracts: map<string, Contract>, start: map<string, Status>,
    steps: seq<string>, n: nat)
    requires n < |steps|
  {
    && steps[n] in contracts
    && GatesHold(w, policies, steps[n], contracts[steps[n]], steps[..n + 1],
       StatusAfter(w, contracts, start, steps[..n]))
  }

  ghost predicate AllRipe(
    w: World, policies: map<string, OwnerPolicy>, contracts: map<string, Contract>, start: map<string, Status>,
    steps: seq<string>, n: nat)
    requires n <= |steps|
  {
    forall k :: 0 <= k < n ==> Ripe(w, policies, contracts, start, steps, k)
  }

  /** The first n steps all passed, in order, and nothing raised. */
  ghost predicate AllPassedIn(
      w: World, contracts: map<string, Contract>, st: RunState, end: RunState, done: seq<string>) {
    && !end.crashed && end.passed == done && end.attempted == done
    && end.status == StatusAfter(w, contracts, st.status, done)
  }

  lemma PassesNext(
    w: World, policies: map<string, OwnerPolicy>, contracts: map<string, Contract>, st: RunState,
    mid: RunState, end: RunState, steps: seq<string>, n: nat)
    requires n < |steps| && steps[n] in contracts && steps[n] in st.status
    requires AllPassedIn(w, contracts, st, mid, steps[..n]) && steps[n] !in mid.passed
    requires StepEffect(w, policies, contracts[steps[n]], mid, end, steps[n])
    ensures if Ripe(w, policies, contracts, st.status, steps, n)
            then AllPassedIn(w, contracts, st, end, steps[..n + 1]) else steps[n] !in end.passed
  {
    assert steps[..n] + [steps[n]] == steps[..n + 1];
    StatusAfterOne(w, contracts, st.status, steps[..n], steps[n]);
  }

  lemma {:induction false} RipePass(
    w: World, policies: map<string, OwnerPolicy>, contracts: map<string, Contract>, st: RunState,
    steps: seq<string>, n: nat)
    requires Entry(contracts, st) && Distinct(steps) && n <= |steps|
        && AllRipe(w, policies, contracts, st.status, steps, n)
    ensures AllPassedIn(w, contracts, st, Run(w, policies, contracts, st, steps[..n]), steps[..n])
  {
    if n == 0 {
      assert StatusAfter(w, contracts, st.status, []) == st.status;
    } else {
      RipePass(w, policies, contracts, st, steps, n - 1);
      assert Ripe(w, policies, contracts, st.status, steps, n - 1);
      NextIsUntouched(w, policies, contracts, st, steps, n - 1);
      TurnHasEffect(w, policies, contracts, st, steps, n - 1);
      PassesNext(w, policies, contracts, st, Run(w, policies, contracts, st, steps[..n - 1]),
                 Run(w, policies, contracts, st, steps[..n]), steps, n - 1);
    }
  }

  /** A step that is not ripe when all before it passed is not among the passed, then or later. */
  lemma UnripeFails(
    w: World, policies: map<string, OwnerPolicy>, contracts: map<string, Contract>, st: RunState,
    steps: seq<string>, n: nat)
    requires Entry(contracts, st) && Distinct(steps) && n < |steps|
    requires AllRipe(w, policies, contracts, st.status, steps, n) && !Ripe(w, policies, contracts, st.status, steps, n)
    ensures steps[n] !in Run(w, policies, contracts, st, steps).passed
  {
    RipePass(w, policies, contracts, st, steps, n);
    assert steps[n] !in steps[..n];
    if steps[n] in contracts {
      TurnHasEffect(w, policies, contracts, st, steps, n);
      PassesNext(w, policies, contracts, st, Run(w, policies, contracts, st, steps[..n]),
                 Run(w, policies, contracts, st, steps[..n + 1]), steps, n);
    } else {
      TurnIsSkipped(w, policies, contracts, st, steps, n);
    }
    LaterTurns(w, policies, contracts, st, steps, n + 1, |steps|, steps[n]);
    assert steps[..|steps|] == steps;
  }

  lemma OneMoreKeeps(st: RunState, r: RunState, id: string, other: string)
    requires OneMore(st, r, id) && other != id
    ensures other in r.passed <==> other in st.passed
  {
  }

  lemma {:induction false} LaterTurns(
    w: World, policies: map<string, OwnerPolicy>, contracts: map<string, Contract>, st: RunState, steps: seq<string>,
    m: nat, n: nat, id: string)
    requires contracts.Keys <= st.status.Keys && m <= n <= |steps| && forall k :: m <= k < n ==> steps[k] != id
    ensures id in Run(w, policies, contracts, st, steps[..n]).passed
       <==> id in Run(w, policies, contracts, st, steps[..m]).passed
    decreases n - m
  {
    if m < n {
      LaterTurns(w, policies, contracts, st, steps, m, n - 1, id);
      RunStep(w, policies, contracts, st, steps, n - 1);
      var mid := Run(w, policies, contracts, st, steps[..n - 1]);
      StepListing(w, policies, contracts, mid, steps[n - 1]);
      OneMoreKeeps(mid, Step(w, policies, contracts, mid, steps[n - 1]), steps[n - 1], id);
    }
  }

  lemma FirstUnripe(
    w: World, policies: map<string, OwnerPolicy>, contracts: map<string, Contract>, start: map<string, Status>,
    steps: seq<string>) returns (n: nat)
    requires !AllRipe(w, policies, contracts, start, steps, |steps|)
    ensures n < |steps| && AllRipe(w, policies, contracts, start, steps, n)
        && !Ripe(w, policies, contracts, start, steps, n)
  {
    n := 0;
    while Ripe(w, policies, contracts, start, steps, n)
      invariant n < |steps| && AllRipe(w, policies, contracts, start, steps, n)
      decreases |steps| - n
    {
      n := n + 1;
      assert AllRipe(w, policies, contracts, start, steps, n);
    }
  }

  lemma AllPassIff(
    w: World, policies: map<string, OwnerPolicy>, contracts: map<string, Contract>, st: RunState, steps: seq<string>)
    requires Entry(contracts, st) && Distinct(steps)
    ensures var end := Run(w, policies, contracts, st, steps);
            && (AllRipe(w, policies, contracts, st.status, steps, |steps|) ==> !end.crashed && end.passed == steps)
            && ((forall id :: id in steps ==> id in end.passed) ==>
               AllRipe(w, policies, contracts, st.status, steps, |steps|))
  {
    assert steps[..|steps|] == steps;
    if AllRipe(w, policies, contracts, st.status, steps, |steps|) {
      RipePass(w, policies, contracts, st, steps, |steps|);
    } else {
      var n := FirstUnripe(w, policies, contracts, st.status, steps);
      UnripeFails(w, policies, contracts, st, steps, n);
      assert steps[n] in steps;
    }
  }

  /** The whole program: it reports a pass exactly when it is given steps, and each of them loads and meets the six
      gates once the steps before it have been attempted and have reached the statuses their evidence warrants. */
  lemma InvocationPassesIff(w: World, files: map<string, Contract>, steps: seq<string>)
    requires w.policy.Some? && Supported(steps) && Distinct(steps)
    ensures var contracts := Contracts(w, files, steps);
            Realize(w, files, steps).0.Ok? && Realize(w, files, steps).0.value.pass <==>
              steps != [] && AllRipe(w, w.policy.value, contracts, StartStatus(contracts), steps, |steps|)
  {
    EntryHolds(w, files, steps);
    AllPassIff(w, w.policy.value, Contracts(w, files, steps), Start(w, files, steps), steps);
    if Realize(w, files, steps).0.Ok? { VerdictIsAllOrNothing(w, files, steps); }
  }

  // ---------------------------------------------------------- when nothing is written

  /** The steps whose contract loads, in order. */
  function Loaded(contracts: map<string, Contract>, steps: seq<string>): seq<string> {
    if steps == [] then []
    else
      var last := steps[|steps| - 1];
      Loaded(contracts, steps[..|steps| - 1]) + (if last in contracts then [last] else [])
  }

  lemma LoadedStep(contracts: map<string, Contract>, steps: seq<string>, n: nat)
    requires n < |steps|
    ensures Loaded(contracts, steps[..n + 1])
         == if steps[n] in contracts then Loaded(contracts, steps[..n]) + [steps[n]] else Loaded(contracts, steps[..n])
  {
    assert steps[..n + 1][..n] == steps[..n];
    assert Loaded(contracts, steps[..n]) + [] == Loaded(contracts, steps[..n]);
  }

  /** Step n loads, and the gates hold of it on the start statuses. */
  ghost predicate HoldsAt(
    w: World, policies: map<string, OwnerPolicy>, contracts: map<string, Contract>, start: map<string, Status>,
    steps: seq<string>, n: nat)
    requires n < |steps|
  {
    && steps[n] in contracts
    && GatesHold(w, policies, steps[n], contracts[steps[n]], Loaded(contracts, steps[..n + 1]), start)
  }

  /** Step n loads, and the gates raise on it on the start statuses. */
  ghost predicate RaisesAt(
    w: World, policies: map<string, OwnerPolicy>, contracts: map<string, Contract>, start: map<string, Status>,
    steps: seq<string>, n: nat)
    requires n < |steps|
  {
    && steps[n] in contracts
    && Raises(w, policies, steps[n], contracts[steps[n]], Loaded(contracts, steps[..n + 1]), start)
  }

  /** Some step among the first n raises. */
  ghost predicate Halted(
    w: World, policies: map<string, OwnerPolicy>, contracts: map<string, Contract>, start: map<string, Status>,
    steps: seq<string>, n: nat)
    requires n <= |steps|
  {
    exists k :: 0 <= k < n && RaisesAt(w, policies, contracts, start, steps, k)
  }

  /** The gates hold of none of the first n steps, except behind a step that raises. */
  ghost predicate NoneHolds(
    w: World, policies: map<string, OwnerPolicy>, contracts: map<string, Contract>, start: map<string, Status>,
    steps: seq<string>, n: nat)
    requires n <= |steps|
  {
    forall k :: 0 <= k < n && HoldsAt(w, policies, contracts, start, steps, k)
      ==> Halted(w, policies, contracts, start, steps, k)
  }

  /** No step passed so far: statuses are those of the start, and the loop goes on unless a step raised. */
  ghost predicate Idle(contracts: map<string, Contract>, st: RunState, end: RunState, done: seq<string>, halted: bool) {
    && end.passed == [] && end.status == st.status && (end.crashed <==> halted)
    && (!end.crashed ==> end.attempted == Loaded(contracts, done))
  }

  lemma IdleNext(
    w: World, policies: map<string, OwnerPolicy>, contracts: map<string, Contract>, st: RunState,
    mid: RunState, end: RunState, steps: seq<string>, n: nat)
    requires n < |steps| && steps[n] in contracts && Idle(contracts, st, mid, steps[..n], false)
    requires StepEffect(w, policies, contracts[steps[n]], mid, end, steps[n])
    ensures if HoldsAt(w, policies, contracts, st.status, steps, n) then end.passed == [steps[n]]
            else Idle(contracts, st, end, steps[..n + 1], RaisesAt(w, policies, contracts, st.status, steps, n))
  {
    LoadedStep(contracts, steps, n);
  }

  lemma {:induction false} IdleIff(
    w: World, policies: map<string, OwnerPolicy>, contracts: map<string, Contract>, st: RunState,
    steps: seq<string>, n: nat)
    requires Entry(contracts, st) && Distinct(steps) && n <= |steps|
    ensures var end := Run(w, policies, contracts, st, steps[..n]);
            if NoneHolds(w, policies, contracts, st.status, steps, n)
            then Idle(contracts, st, end, steps[..n], Halted(w, policies, contracts, st.status, steps, n))
            else end.passed != []
  {
    if n > 0 {
      var m, start := n - 1, st.status;
      var mid, end := Run(w, policies, contracts, st, steps[..m]), Run(w, policies, contracts, st, steps[..n]);
      IdleIff(w, policies, contracts, st, steps, m);
      RunStep(w, policies, contracts, st, steps, m);
      StepListing(w, policies, contracts, mid, steps[m]);
      NoneHoldsStep(w, policies, contracts, start, steps, m);
      HaltedStep(w, policies, contracts, start, steps, m);
      LoadedStep(contracts, steps, m);
      if steps[m] !in contracts || mid.crashed {
        TurnIsSkipped(w, policies, contracts, st, steps, m);
      } else {
        TurnHasEffect(w, policies, contracts, st, steps, m);
        if mid.passed == [] { IdleNext(w, policies, contracts, st, mid, end, steps, m); }
      }
    }
  }

  lemma HaltedStep(
    w: World, policies: map<string, OwnerPolicy>, contracts: map<string, Contract>, start: map<string, Status>,
    steps: seq<string>, n: nat)
    requires n < |steps|
    ensures Halted(w, policies, contracts, start, steps, n + 1) <==>
            Halted(w, policies, contracts, start, steps, n) || RaisesAt(w, policies, contracts, start, steps, n)
  {
    if Halted(w, policies, contracts, start, steps, n + 1) {
      var k :| 0 <= k < n + 1 && RaisesAt(w, policies, contracts, start, steps, k);
      assert k < n || k == n;
    }
  }

  lemma NoneHoldsStep(
    w: World, policies: map<string, OwnerPolicy>, contracts: map<string, Contract>, start: map<string, Status>,
    steps: seq<string>, n: nat)
    requires n < |steps|
    ensures NoneHolds(w, policies, contracts, start, steps, n + 1) <==>
            NoneHolds(w, policies, contracts, start, steps, n)
            && (HoldsAt(w, policies, contracts, start, steps, n) ==> Halted(w, policies, contracts, start, steps, n))
  {
  }

  lemma NonePassIff(
    w: World, policies: map<string, OwnerPolicy>, contracts: map<string, Contract>, st: RunState, steps: seq<string>)
    requires Entry(contracts, st) && Distinct(steps)
    ensures Run(w, policies, contracts, st, steps).passed == [] <==>
            NoneHolds(w, policies, contracts, st.status, steps, |steps|)
  {
    IdleIff(w, policies, contracts, st, steps, |steps|);
    assert steps[..|steps|] == steps;
  }

  /** An invocation leaves the contract directory as it was exactly when the gates, judged on the start statuses, hold
      of no step that loads, steps behind one that raises aside. */
  lemma NothingWrittenIff(w: World, files: map<string, Contract>, steps: seq<string>)
    requires w.policy.Some? && Supported(steps) && Distinct(steps)
    ensures var contracts := Contracts(w, files, steps);
            Realize(w, files, steps).1 == files <==>
              NoneHolds(w, w.policy.value, contracts, StartStatus(contracts), steps, |steps|)
  {
    StoreAfterInvocation(w, files, steps);
    EntryHolds(w, files, steps);
    NonePassIff(w, w.policy.value, Contracts(w, files, steps), Start(w, files, steps), steps);
  }
}
