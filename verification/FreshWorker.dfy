/** The fresh worker: one model call that must leave a proven new head, then at most
    one review. */
module FreshWorker {
  import opened FencedEffect
  import opened Journal
  import opened ArbiterProtocol
  import opened RecoveryReview

  datatype Status =
    | Authorized | Requested | PreflightFailed | Running | WorkerSucceeded
    | ReviewRunning | RecoveryReviewed | Succeeded | Failed

  datatype Row = Row(
    status: Status, prepared: bool, calls: nat, reviews: nat,
    oldHead: string, head: string, reviewRun: string, error: string, finished: bool)

  datatype Event =
    | InputPrepared
    | CallStarted
    | PreflightRejected(code: string)
    | CallFailed(code: string)
    | CallCompleted(head: Sha)
    | ReviewFenced(run: string, target: string)
    | ReviewFailed(run: string, target: string, code: string)
    | Rebound(run: string, target: string)
    | Completed(run: string, target: string)
    | MergeFailed(run: string, target: string, code: string)
    | WorkerLaunched
    | CallEnded

  predicate Durable(e: Event) {
    !e.WorkerLaunched? && !e.CallEnded?
  }

  predicate Blank(r: Row) {
    r.head == "" && r.reviewRun == "" && r.error == "" && r.reviews == 0
  }

  predicate Reviewed(r: Row, run: string, target: string) {
    r.calls == 1 && r.reviews == 1 && r.reviewRun == run && r.head == target && r.error == ""
  }

  predicate Guard(r: Row, e: Event) {
    match e
    case InputPrepared => r.status == Authorized && r.calls == 0 && !r.prepared && Blank(r)
    case CallStarted => r.status == Requested && r.calls == 0 && r.prepared && Blank(r)
    case PreflightRejected(_) =>
      (r.status == Authorized || r.status == Requested) && r.calls == 0 && Blank(r)
    case CallFailed(_) => r.status == Running && r.calls == 1 && Blank(r)
    case CallCompleted(head) =>
      r.status == Running && r.calls == 1 && Blank(r) && head != r.oldHead
    case ReviewFenced(run, target) =>
      r.status == WorkerSucceeded && r.calls == 1 && r.reviews == 0 && r.head == target
      && r.reviewRun == "" && r.error == "" && run != ""
    case ReviewFailed(run, target, _) => r.status == ReviewRunning && Reviewed(r, run, target)
    case Rebound(run, target) => r.status == ReviewRunning && Reviewed(r, run, target)
    case Completed(run, target) => r.status == RecoveryReviewed && Reviewed(r, run, target)
    case MergeFailed(run, target, _) => r.status == RecoveryReviewed && Reviewed(r, run, target)
    case WorkerLaunched | CallEnded => true
  }

  function Apply(r: Row, e: Event): Row {
    match e
    case InputPrepared => r.(status := Requested, prepared := true)
    case CallStarted => r.(status := Running, calls := 1)
    case PreflightRejected(code) => r.(status := PreflightFailed, error := code, finished := true)
    case CallFailed(code) => r.(status := Failed, error := code, finished := true)
    case CallCompleted(head) => r.(status := WorkerSucceeded, head := head)
    case ReviewFenced(run, _) => r.(status := ReviewRunning, reviews := 1, reviewRun := run)
    case ReviewFailed(_, _, code) => r.(status := Failed, error := code, finished := true)
    case Rebound(_, _) => r.(status := RecoveryReviewed)
    case Completed(_, _) => r.(status := Succeeded, finished := true)
    case MergeFailed(_, _, code) => r.(status := Failed, error := code, finished := true)
    case WorkerLaunched | CallEnded => r
  }

  /** The table's CHECK constraints, and that a worker succeeds only with a head. */
  predicate Checks(r: Row) {
    && (r.status == Authorized ==> !r.prepared)
    && (r.status != Authorized && r.status != PreflightFailed ==> r.prepared)
    && r.calls <= 1 && r.reviews <= 1
    && (r.calls == 0 ==> r.head == "")
    && (r.status != Authorized && r.status != Requested && r.status != PreflightFailed ==> r.calls == 1)
    && (r.status == WorkerSucceeded ==> r.head != "")
    && (r.status == ReviewRunning || r.status == RecoveryReviewed || r.status == Succeeded ==>
          r.reviews == 1 && r.reviewRun != "" && r.head != "")
    && (r.finished <==> r.status == PreflightFailed || r.status == Succeeded || r.status == Failed)
  }

  function StatusRank(s: Status): nat {
    match s
    case Authorized => 6
    case Requested => 5
    case Running => 4
    case WorkerSucceeded => 3
    case ReviewRunning => 2
    case RecoveryReviewed => 1
    case PreflightFailed | Succeeded | Failed => 0
  }

  function Rank(r: Row): nat {
    StatusRank(r.status)
  }

  const TABLE := Table(Guard, Apply, Checks, Durable, Rank, CallEnded)

  // ----- What one call sees of the world

  datatype Presence = Missing | Present | Opaque

  /** The first check on the sealed result, log, worktree and provider that objects;
      `reported` is false where the objection carries no error of its own. */
  datatype Proof = Objection(code: string, reported: bool) | Proven(head: Sha)

  datatype Facts = Facts(
    loads: bool, predecessor: bool, derives: bool, preparedReloads: bool,
    launcher: bool, exact: bool, preflight: bool, fenceReloads: bool, launches: bool,
    result: Presence, alive: Liveness, proof: Proof, enrols: bool, faulty: Event -> bool)

  // ----- What each call leaves in the journal

  function ReconcileSpec(r: Row, f: Facts): Outcome<Event> {
    if !f.loads then Outcome([], true)
    else match r.status
      case Authorized => PrepareSpec(r, f)
      case Requested => LaunchSpec(r, f)
      case Running => InspectSpec(r, f)
      case _ => Outcome([], false)
  }

  function PrepareSpec(r: Row, f: Facts): Outcome<Event> {
    if !f.predecessor || !f.derives then
      var code := if !f.predecessor then "identity_drift" else "input_derivation_failed";
      Outcome(Commit(TABLE, r, PreflightRejected(code), f.faulty), true)
    else InputSpec(r, f)
  }

  /** The derived input on record, and on to the launch. */
  function InputSpec(r: Row, f: Facts): Outcome<Event> {
    if Commit(TABLE, r, InputPrepared, f.faulty) == [] then Outcome([], true)
    else if !f.preparedReloads then Outcome([InputPrepared], true)
    else
      var rest := LaunchSpec(Apply(r, InputPrepared), f);
      Outcome([InputPrepared] + rest.events, rest.failed)
  }

  function LaunchSpec(r: Row, f: Facts): Outcome<Event> {
    if !f.launcher then
      var e := PreflightRejected("launcher_unavailable");
      Outcome(Commit(TABLE, r, e, f.faulty), f.faulty(e))
    else if !f.exact || !f.preflight then
      var code := if !f.exact then "identity_drift" else "preflight_failed";
      Outcome(Commit(TABLE, r, PreflightRejected(code), f.faulty), true)
    else FenceSpec(r, f)
  }

  /** The fence and the launch behind it. */
  function FenceSpec(r: Row, f: Facts): Outcome<Event> {
    if Commit(TABLE, r, CallStarted, f.faulty) == [] then Outcome([], true)
    else if !f.fenceReloads then Outcome([CallStarted], true)
    else
      var lost := CallFailed("launch_failed");
      Outcome([CallStarted, WorkerLaunched]
              + (if f.launches then [] else Commit(TABLE, Apply(r, CallStarted), lost, f.faulty)),
              !f.launches)
  }

  function FailSpec(r: Row, code: string, f: Facts): Outcome<Event> {
    Outcome(Commit(TABLE, r, CallFailed(code), f.faulty), f.faulty(CallFailed(code)))
  }

  function InspectSpec(r: Row, f: Facts): Outcome<Event> {
    match f.result
    case Opaque => Outcome([], true)
    case Present => ConsumeSpec(r, true, 0, f)
    case Missing =>
      if !f.launcher then FailSpec(r, "launcher_unavailable", f)
      else match f.alive
        case Unknown => Outcome([], true)
        case Alive => Outcome([], false)
        case Dead => FailSpec(r, "missing_result", f)
  }

  function ConsumeSpec(r: Row, started: bool, exitCode: int, f: Facts): Outcome<Event> {
    if !started || exitCode != 0 then
      Outcome(FailSpec(r, "worker_process_failed", f).events, true)
    else match f.proof
      case Objection(code, reported) =>
        var o := FailSpec(r, code, f);
        Outcome(o.events, reported || o.failed)
      case Proven(head) =>
        var es := Commit(TABLE, r, CallCompleted(head), f.faulty);
        Outcome(es, es == [])
  }

  function ExitSpec(r: Row, started: bool, exitCode: int, f: Facts): Outcome<Event> {
    if !f.loads then Outcome([], true)
    else if r.status != Running then Outcome([], false)
    else ConsumeSpec(r, started, exitCode, f)
  }

  predicate Owns(r: Row, run: string, target: string) {
    r.status == ReviewRunning && r.reviewRun == run && r.head == target
  }

  /** The run is, or was, this recovery's own review. */
  predicate Concerns(r: Row, run: string, target: string) {
    r.reviewRun == run && r.head == target
    && (r.status == ReviewRunning || (r.status == Failed && r.error == "review_changes_requested"))
  }

  function RulingSpec(r: Row, ruling: Ruling, run: string, target: string, f: Facts): Outcome<Event> {
    match ruling
    case Hold(err) => Outcome([], err)
    case Fail(code, err) =>
      var e := ReviewFailed(run, target, code);
      Outcome(Commit(TABLE, r, e, f.faulty), err || f.faulty(e))
    case Accept =>
      var es := Commit(TABLE, r, Rebound(run, target), f.faulty);
      Outcome(es, es == [])
  }

  /** A finished review: the row's own run either fails the recovery or lets the
      admission queue drain, which is where the rebind happens. */
  function ReviewSpec(r: Row, run: Review, f: Facts): Outcome<Event> {
    if !f.loads then Outcome([], true)
    else if !Owns(r, run.id, run.target) then Outcome([], false)
    else if RuleOnRun(run).Accept? then Outcome([], !f.enrols)
    else RulingSpec(r, RuleOnRun(run), run.id, run.target, f)
  }

  function RebindSpec(r: Row, run: string, target: string, v: Evidence, f: Facts): Outcome<Event> {
    if !f.loads then Outcome([], true)
    else if !Owns(r, run, target) then Outcome([], false)
    else RulingSpec(r, RuleOnCandidate(v), run, target, f)
  }

  // ----- The engine itself

  class Engine {
    const ledger: Ledger<Row, Event>

    ghost predicate Ready()
      reads ledger
    {
      ledger.table == TABLE && ledger.Valid()
    }

    constructor (l: Ledger<Row, Event>)
      ensures ledger == l
    {
      ledger := l;
    }

    method Reconcile(f: Facts) returns (failed: bool)
      requires Ready()
      modifies ledger
      ensures Ready()
      ensures ledger.journal == old(ledger.journal) + ReconcileSpec(old(ledger.row), f).events
      ensures failed == ReconcileSpec(old(ledger.row), f).failed
    {
      if !f.loads {
        return true;
      }
      failed := Advance(ledger.row, f);
    }

    method Advance(recovery: Row, f: Facts) returns (failed: bool)
      requires Ready() && recovery == ledger.row && f.loads
      modifies ledger
      ensures Ready()
      ensures ledger.journal == old(ledger.journal) + ReconcileSpec(recovery, f).events
      ensures failed == ReconcileSpec(recovery, f).failed
      decreases StatusRank(recovery.status), 2
    {
      match recovery.status
      case Authorized => failed := Prepare(recovery, f);
      case Requested => failed := Launch(recovery, f);
      case Running => failed := Inspect(recovery, f);
      case PreflightFailed | WorkerSucceeded | ReviewRunning | RecoveryReviewed | Succeeded | Failed =>
        return false;
    }

    method Prepare(recovery: Row, f: Facts) returns (failed: bool)
      requires Ready() && recovery == ledger.row && recovery.status == Authorized && f.loads
      modifies ledger
      ensures Ready()
      ensures ledger.journal == old(ledger.journal) + PrepareSpec(recovery, f).events
      ensures failed == PrepareSpec(recovery, f).failed
      decreases StatusRank(recovery.status), 1
    {
      var updated: bool;
      if !f.predecessor {
        failed, updated := ledger.Update(PreflightRejected("identity_drift"), f.faulty);
        return true;
      }
      if !f.derives {
        failed, updated := ledger.Update(PreflightRejected("input_derivation_failed"), f.faulty);
        return true;
      }
      failed := RecordInput(recovery, f);
    }

    method RecordInput(recovery: Row, f: Facts) returns (failed: bool)
      requires Ready() && recovery == ledger.row && recovery.status == Authorized && f.loads
      modifies ledger
      ensures Ready()
      ensures ledger.journal == old(ledger.journal) + InputSpec(recovery, f).events
      ensures failed == InputSpec(recovery, f).failed
      decreases StatusRank(recovery.status), 0
    {
      var updated: bool;
      failed, updated := ledger.Update(InputPrepared, f.faulty);
      if failed || !updated || !f.preparedReloads {
        return true;
      }
      failed := Advance(ledger.row, f);
    }

    method Launch(recovery: Row, f: Facts) returns (failed: bool)
      requires Ready() && recovery == ledger.row && recovery.status == Requested
      modifies ledger
      ensures Ready()
      ensures ledger.journal == old(ledger.journal) + LaunchSpec(recovery, f).events
      ensures failed == LaunchSpec(recovery, f).failed
    {
      var updated: bool;
      if !f.launcher {
        failed, updated := ledger.Update(PreflightRejected("launcher_unavailable"), f.faulty);
        return;
      }
      if !f.exact {
        failed, updated := ledger.Update(PreflightRejected("identity_drift"), f.faulty);
        return true;
      }
      if !f.preflight {
        failed, updated := ledger.Update(PreflightRejected("preflight_failed"), f.faulty);
        return true;
      }
      failed := Fence(recovery, f);
    }

    method Fence(recovery: Row, f: Facts) returns (failed: bool)
      requires Ready() && recovery == ledger.row && recovery.status == Requested
      modifies ledger
      ensures Ready()
      ensures ledger.journal == old(ledger.journal) + FenceSpec(recovery, f).events
      ensures failed == FenceSpec(recovery, f).failed
    {
      var updated: bool;
      failed, updated := ledger.Update(CallStarted, f.faulty);
      if failed || !updated {
        return true;
      }
      if !f.fenceReloads || ledger.row.status != Running || ledger.row.calls != 1 {
        return true;
      }
      ledger.Perform(WorkerLaunched);
      if !f.launches {
        failed, updated := ledger.Update(CallFailed("launch_failed"), f.faulty);
        return true;
      }
    }

    method Inspect(recovery: Row, f: Facts) returns (failed: bool)
      requires Ready() && recovery == ledger.row && recovery.status == Running
      modifies ledger
      ensures Ready()
      ensures ledger.journal == old(ledger.journal) + InspectSpec(recovery, f).events
      ensures failed == InspectSpec(recovery, f).failed
    {
      var updated: bool;
      match f.result
      case Present => failed := Consume(recovery, true, 0, f);
      case Opaque => return true;
      case Missing =>
        if !f.launcher {
          failed, updated := ledger.Update(CallFailed("launcher_unavailable"), f.faulty);
          return;
        }
        if f.alive == Dead {
          failed, updated := ledger.Update(CallFailed("missing_result"), f.faulty);
          return;
        }
        failed := f.alive == Unknown;
    }

    method Consume(recovery: Row, started: bool, exitCode: int, f: Facts) returns (failed: bool)
      requires Ready() && recovery == ledger.row && recovery.status == Running
      modifies ledger
      ensures Ready()
      ensures ledger.journal == old(ledger.journal) + ConsumeSpec(recovery, started, exitCode, f).events
      ensures failed == ConsumeSpec(recovery, started, exitCode, f).failed
    {
      var updated: bool;
      if !started || exitCode != 0 {
        failed, updated := ledger.Update(CallFailed("worker_process_failed"), f.faulty);
        return true;
      }
      match f.proof
      case Objection(code, reported) =>
        failed, updated := ledger.Update(CallFailed(code), f.faulty);
        failed := failed || reported;
      case Proven(head) =>
        failed, updated := ledger.Update(CallCompleted(head), f.faulty);
        failed := failed || !updated;
    }

    method ProcessExit(started: bool, exitCode: int, f: Facts) returns (failed: bool)
      requires Ready()
      modifies ledger
      ensures Ready()
      ensures ledger.journal == old(ledger.journal) + ExitSpec(old(ledger.row), started, exitCode, f).events
      ensures failed == ExitSpec(old(ledger.row), started, exitCode, f).failed
    {
      if !f.loads {
        return true;
      }
      if ledger.row.status != Running {
        return false;
      }
      failed := Consume(ledger.row, started, exitCode, f);
    }

    method HandleReview(run: Review, f: Facts) returns (handled: bool, failed: bool)
      requires Ready()
      modifies ledger
      ensures Ready()
      ensures ledger.journal == old(ledger.journal) + ReviewSpec(old(ledger.row), run, f).events
      ensures failed == ReviewSpec(old(ledger.row), run, f).failed
      ensures handled <==> (f.loads && Concerns(old(ledger.row), run.id, run.target))
    {
      if !f.loads {
        return false, true;
      }
      var recovery, updated := ledger.row, false;
      if recovery.status == Failed && recovery.reviewRun == run.id && recovery.head == run.target
         && recovery.error == "review_changes_requested" {
        return true, false;
      }
      if recovery.status != ReviewRunning || recovery.reviewRun != run.id || recovery.head != run.target {
        return false, false;
      }
      handled := true;
      if !run.completed {
        failed, updated := ledger.Update(ReviewFailed(run.id, run.target, "review_result_malformed"), f.faulty);
        return;
      }
      if !run.approved {
        failed, updated := ledger.Update(ReviewFailed(run.id, run.target, "review_changes_requested"), f.faulty);
        return;
      }
      failed := !f.enrols;
    }

    method TryRebind(run: string, target: string, v: Evidence, f: Facts) returns (handled: bool, failed: bool)
      requires Ready()
      modifies ledger
      ensures Ready()
      ensures ledger.journal == old(ledger.journal) + RebindSpec(old(ledger.row), run, target, v, f).events
      ensures failed == RebindSpec(old(ledger.row), run, target, v, f).failed
      ensures handled <==> (f.loads && Owns(old(ledger.row), run, target))
    {
      if !f.loads {
        return false, true;
      }
      if !Owns(ledger.row, run, target) {
        return false, false;
      }
      handled := true;
      var updated: bool;
      match RuleOnCandidate(v)
      case Hold(err) => failed := err;
      case Fail(code, err) =>
        failed, updated := ledger.Update(ReviewFailed(run, target, code), f.faulty);
        failed := failed || err;
      case Accept =>
        failed, updated := ledger.Update(Rebound(run, target), f.faulty);
        failed := failed || !updated;
    }
  }
}
