/** Status control of roadmap steps (spectrum_systems/modules/runtime/roadmap_realization_runtime.py). */
module RealizationRuntime {
  import opened Wrappers
  import opened Ordering

  datatype Status =
    | PlannedOnly
    | ArtifactMaterialized
    | PartiallyRealized
    | RuntimeRealized
    | Verified
    | Unlisted(text: string)

  predicate Ready(s: Status) { s.RuntimeRealized? || s.Verified? }

  /** None where the source raises. */
  function AuthoritativeStart(s: Status): Option<Status> {
    if s.Unlisted? then None else if Ready(s) then Some(PlannedOnly) else Some(s)
  }

  datatype DependencyError =
    | NotAttempted(step: string)
    | NotFound(dependency: string)
    | OutOfOrder(dependency: string)
    | NotReady(dependency: string, found: Status)

  /** The check one dependency goes through in the loop. */
  function CheckDependency(step: string, d: string, attempted: seq<string>, status: map<string, Status>)
    : Option<DependencyError>
    requires step in attempted
  {
    if d !in status then Some(NotFound(d))
    else if d in attempted && FirstIndex(attempted, d) >= FirstIndex(attempted, step) then Some(OutOfOrder(d))
    else if !Ready(status[d]) then Some(NotReady(d, status[d]))
    else None
  }

  function FirstError(step: string, deps: seq<string>, attempted: seq<string>, status: map<string, Status>)
    : Option<DependencyError>
    requires step in attempted
  {
    if deps == [] then None
    else
      var first := CheckDependency(step, deps[0], attempted, status);
      if first.Some? then first else FirstError(step, deps[1..], attempted, status)
  }

  /** The error `validate_realization_dependencies` raises, None when it returns. */
  function ValidateDependencies(step: string, deps: seq<string>, attempted: seq<string>, status: map<string, Status>)
    : Option<DependencyError>
  {
    if step !in attempted then Some(NotAttempted(step)) else FirstError(step, deps, attempted, status)
  }

  /** The check passes exactly when the step was attempted and every dependency is ready and came earlier. */
  lemma {:induction false} DependenciesValidIff(
      step: string, deps: seq<string>, attempted: seq<string>, status: map<string, Status>)
    ensures ValidateDependencies(step, deps, attempted, status).None? <==>
            && step in attempted
            && forall d :: d in deps ==>
                 && d in status && Ready(status[d])
                 && (d in attempted ==> FirstIndex(attempted, d) < FirstIndex(attempted, step))
  {
    if step in attempted && deps != [] {
      DependenciesValidIff(step, deps[1..], attempted, status);
      assert deps == [deps[0]] + deps[1..];
    }
  }

  datatype Gates = Gates(dependencies: bool, ownership: bool, patternsAbsent: bool, entrypoints: bool, tests: bool,
    verification: bool) {
    predicate Runtime() { dependencies && ownership && patternsAbsent && entrypoints && tests }
  }

  /** None where the source raises. */
  function NextStatus(current: Status, g: Gates): Option<Status> {
    if current.Unlisted? then None
    else if !g.Runtime() then Some(current)
    else if current.PlannedOnly? || current.ArtifactMaterialized?
        || current.PartiallyRealized? then Some(RuntimeRealized)
    else if current.RuntimeRealized? && g.verification then Some(Verified)
    else Some(current)
  }

  function Rank(s: Status): int {
    match s
    case PlannedOnly => 0
    case ArtifactMaterialized => 1
    case PartiallyRealized => 2
    case RuntimeRealized => 3
    case Verified => 4
    case Unlisted(_) => -1
  }

  /** One call never moves a status back, never reaches a ready status without the five runtime gates,
      and never reaches verified except from runtime_realized with the verification gate. */
  lemma NextStatusIsGuarded(current: Status, g: Gates)
    requires !current.Unlisted?
    ensures NextStatus(current, g).Some?
    ensures var next := NextStatus(current, g).value;
            && Rank(current) <= Rank(next)
            && (next != current ==> g.Runtime() && Ready(next))
            && (next.Verified? && next != current ==> current.RuntimeRealized? && g.verification)
            && (g.Runtime() ==> Ready(next))
  {
  }
}
