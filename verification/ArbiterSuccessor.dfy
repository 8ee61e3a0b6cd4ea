/** The arbiter's successor attempt: the same one call and one wake, but a recorded
    decision always stops at `decided` until a later startup, and one failed row may
    come back as decided through a pending validation audit. */
module ArbiterSuccessor {
  import opened FencedEffect
  import opened Journal
  import opened ArbiterProtocol

  datatype Status =
    | Authorized | Requested | PreflightFailed | Running | Decided | SafeStopped
    | Repairing | RecoveryReviewed | Succeeded | Failed

  /** The validation-recovery audit row beside the attempt. */
  datatype Audit = NoAudit | Pending | Applied | Rejected

  /** `pinned` is what the one artifact of the audit row's fixed size and digest parses
      to; no update changes it. */
  datatype Row = Row(
    status: Status, prepared: bool, calls: nat, decision: string, wakes: nat,
    error: Code, finished: bool, audit: Audit, pinned: Parsed)

  datatype Event =
    | InputPrepared
    | CallStarted
    | PreflightRejected(code: Code)
    | DecisionRecorded(decision: Canonical, safeStop: bool, code: Code)
    | RepairConsumed
    | CallFailed(code: Code)
    | RepairFailed(code: Code)
    | DecisionRecovered(decision: Canonical, safeStop: bool)
    | AuditFailed(code: Code)
    | AuditOpened
    | Rebound
    | Completed
    | ProcessLaunched
    | WorkerWoken
    | CallEnded

  predicate Durable(e: Event) {
    !e.ProcessLaunched? && !e.WorkerWoken? && !e.CallEnded?
  }

  predicate Guard(r: Row, e: Event) {
    match e
    case InputPrepared => r.status == Authorized && r.calls == 0 && !r.prepared
    case CallStarted => r.status == Requested && r.calls == 0 && r.prepared
    case PreflightRejected(_) => r.status == Requested && r.calls == 0
    case DecisionRecorded(_, _, _) => r.status == Running && r.calls == 1 && r.decision == ""
    case RepairConsumed => r.status == Decided && r.wakes == 0
    case CallFailed(_) => r.status == Running && r.calls == 1 && r.decision == ""
    case RepairFailed(_) =>
      (r.status == Decided || r.status == Repairing) && r.calls == 1 && r.decision != ""
    case DecisionRecovered(_, _) => RejectedSubmit(r) && r.audit == Pending
    case AuditFailed(_) => r.audit == Pending
    case AuditOpened => RejectedSubmit(r) && r.audit == NoAudit
    case Rebound => r.status == Repairing && r.wakes == 1
    case Completed => r.status == RecoveryReviewed
    case ProcessLaunched | WorkerWoken | CallEnded => true
  }

  predicate RejectedSubmit(r: Row) {
    r.status == Failed && r.calls == 1 && r.decision == "" && r.wakes == 0 && r.error == "submit_failed"
  }

  function Apply(r: Row, e: Event): Row {
    match e
    case InputPrepared => r.(status := Requested, prepared := true)
    case CallStarted => r.(status := Running, calls := 1)
    case PreflightRejected(code) => r.(status := PreflightFailed, error := code, finished := true)
    case DecisionRecorded(d, safeStop, code) =>
      r.(status := if safeStop then SafeStopped else Decided,
         decision := d, error := code, finished := safeStop)
    case RepairConsumed => r.(status := Repairing, wakes := 1)
    case CallFailed(code) => r.(status := Failed, error := code, finished := true)
    case RepairFailed(code) => r.(status := Failed, error := code, finished := true)
    case DecisionRecovered(d, _) =>
      r.(status := Decided, decision := d, error := "", finished := false, audit := Applied)
    case AuditFailed(_) => r.(audit := Rejected)
    case AuditOpened => r.(audit := Pending)
    case Rebound => r.(status := RecoveryReviewed)
    case Completed => r.(status := Succeeded, error := "", finished := true)
    case ProcessLaunched | WorkerWoken | CallEnded => r
  }

  /** The table's CHECK constraints, status by status. */
  predicate Checks(r: Row) {
    && (r.prepared <==> r.status != Authorized)
    && match r.status
       case Authorized | Requested => r.calls == 0 && r.decision == "" && r.wakes == 0 && !r.finished
       case PreflightFailed => r.calls == 0 && r.decision == "" && r.wakes == 0 && r.finished
       case Running => r.calls == 1 && r.decision == "" && r.wakes == 0 && !r.finished
       case Decided => r.calls == 1 && r.decision != "" && r.wakes == 0 && !r.finished
       case SafeStopped => r.calls == 1 && r.decision != "" && r.wakes == 0 && r.finished
       case Repairing | RecoveryReviewed => r.calls == 1 && r.decision != "" && r.wakes == 1 && !r.finished
       case Succeeded => r.calls == 1 && r.decision != "" && r.wakes == 1 && r.finished
       case Failed => r.calls == 1 && r.wakes <= 1 && r.finished
  }

  /** A freshly authorized attempt. */
  function Fresh(pinned: Parsed): Row {
    Row(Authorized, false, 0, "", 0, "", false, NoAudit, pinned)
  }

  function StatusRank(s: Status): nat {
    match s
    case Authorized => 6
    case Requested => 5
    case Running => 4
    case Decided => 3
    case Repairing => 2
    case RecoveryReviewed => 1
    case PreflightFailed | SafeStopped | Succeeded | Failed => 0
  }

  function AuditRank(a: Audit): nat {
    match a
    case NoAudit => 2
    case Pending => 1
    case Applied | Rejected => 0
  }

  /** Lexicographic: the audit first, then the status. */
  function Rank(r: Row): nat {
    10 * AuditRank(r.audit) + StatusRank(r.status)
  }

  const TABLE := Table(Guard, Apply, Checks, Durable, Rank, CallEnded)

  // ----- What one call sees of the world

  /** The result file as the recovery finds it: only the pinned artifact gets past the
      size and the digest. */
  datatype Artifact = WrongFile | WrongDigest | Pinned

  datatype Facts = Facts(
    loads: bool, incidentExact: bool, derives: bool, preparedReloads: bool,
    launcher: bool, exact: bool, preflight: bool, fenceReloads: bool, launches: bool,
    resultPath: bool, result: ResultFile, alive: Liveness,
    waker: bool, policy: bool, wakes: bool,
    auditLoads: bool, knownInput: bool, auditExact: bool, artifact: Artifact,
    faulty: Event -> bool)

  // ----- What each call leaves in the journal

  function ReconcileSpec(r: Row, f: Facts): Outcome<Event> {
    if !f.loads then Outcome([], true)
    else match r.status
      case Authorized => PrepareSpec(r, f)
      case Requested => LaunchSpec(r, f)
      case Running => InspectSpec(r, f)
      case Decided => RepairSpec(r, f)
      case Failed => RecoverSpec(r, f)
      case _ => Outcome([], false)
  }

  /** Only the startup itself lets a wake through. */
  function AdvanceSpec(r: Row, f: Facts, allowWake: bool): Outcome<Event> {
    if r.status == Decided && !allowWake then Outcome([], false) else ReconcileSpec(r, f)
  }

  function PrepareSpec(r: Row, f: Facts): Outcome<Event> {
    if !f.incidentExact || !f.derives || Commit(TABLE, r, InputPrepared, f.faulty) == [] then Outcome([], true)
    else if !f.preparedReloads then Outcome([InputPrepared], true)
    else
      var rest := LaunchSpec(Apply(r, InputPrepared), f);
      Outcome([InputPrepared] + rest.events, rest.failed)
  }

  function LaunchSpec(r: Row, f: Facts): Outcome<Event> {
    if !f.launcher then
      var e := PreflightRejected("launcher_unavailable");
      Outcome(Commit(TABLE, r, e, f.faulty), f.faulty(e))
    else if !f.exact || !f.preflight then
      var code := if !f.exact then "identity_drift" else "preflight_failed";
      Outcome(Commit(TABLE, r, PreflightRejected(code), f.faulty), true)
    else FenceSpec(r, f)
  }

  /** The fence and the launch behind it. */
  function FenceSpec(r: Row, f: Facts): Outcome<Event> {
    if Commit(TABLE, r, CallStarted, f.faulty) == [] then
      Outcome([], true)
    else if !f.fenceReloads then
      Outcome([CallStarted], true)
    else
      var lost := CallFailed("launch_failed");
      Outcome([CallStarted, ProcessLaunched]
              + (if f.launches then [] else Commit(TABLE, Apply(r, CallStarted), lost, f.faulty)),
              !f.launches)
  }

  function InspectSpec(r: Row, f: Facts): Outcome<Event> {
    if !f.launcher then FailSpec(r, "launcher_unavailable", f)
    else if !f.resultPath then Outcome([], true)
    else match f.result
      case Unreadable => Outcome([], true)
      case Malformed => Outcome(FailSpec(r, "malformed_result", f).events, true)
      case Holds(v) => PersistSpec(r, v, f)
      case Absent =>
        match f.alive
        case Unknown => Outcome([], true)
        case Alive => Outcome([], false)
        case Dead => FailSpec(r, "missing_result", f)
  }

  function FailSpec(r: Row, code: Code, f: Facts): Outcome<Event> {
    Outcome(Commit(TABLE, r, CallFailed(code), f.faulty), f.faulty(CallFailed(code)))
  }

  function Recording(v: Verdict): Event {
    DecisionRecorded(v.canonical, v.safeStop, if v.safeStop then v.code else "")
  }

  /** The recovery stores the decision and `decided`, whatever the verdict. */
  function Recovering(v: Verdict): Event {
    DecisionRecovered(v.canonical, v.safeStop)
  }

  function PersistSpec(r: Row, v: Verdict, f: Facts): Outcome<Event> {
    if !f.exact then Outcome(FailSpec(r, "identity_drift", f).events, true)
    else
      var es := Commit(TABLE, r, Recording(v), f.faulty);
      Outcome(es, es == [])
  }

  function RepairSpec(r: Row, f: Facts): Outcome<Event> {
    if !f.waker then
      var e := RepairFailed("repair_waker_unavailable");
      Outcome(Commit(TABLE, r, e, f.faulty), f.faulty(e))
    else if !f.exact || !f.policy then
      var code := if !f.exact then "identity_drift" else "policy_drift";
      Outcome(Commit(TABLE, r, RepairFailed(code), f.faulty), true)
    else if Commit(TABLE, r, RepairConsumed, f.faulty) == [] then
      Outcome([], true)
    else
      var lost := RepairFailed("repair_launch_failed");
      Outcome([RepairConsumed, WorkerWoken]
              + (if f.wakes then [] else Commit(TABLE, Apply(r, RepairConsumed), lost, f.faulty)),
              !f.wakes)
  }

  /** Why a pending audit is rejected, or "" when the artifact may be recovered. */
  function Objection(r: Row, f: Facts): Code {
    if !f.auditExact || !RejectedSubmit(r) then "identity_drift"
    else if !f.launcher then "launcher_unavailable"
    else if !f.exact then "identity_drift"
    else if f.alive == Unknown then "process_state_ambiguous"
    else if f.alive == Alive then "process_still_active"
    else if !f.resultPath then "result_path_invalid"
    else match f.artifact
      case WrongFile => "result_identity_drift"
      case WrongDigest => "result_digest_drift"
      case Pinned => if r.pinned.Invalid? then "result_still_invalid" else ""
  }

  function RecoverSpec(r: Row, f: Facts): Outcome<Event> {
    if !f.auditLoads then Outcome([], true)
    else match r.audit
      case NoAudit => Outcome([], f.knownInput && r.error == "submit_failed" && r.calls == 1)
      case Applied | Rejected => Outcome([], false)
      case Pending =>
        var code := Objection(r, f);
        if code != "" then Outcome(Commit(TABLE, r, AuditFailed(code), f.faulty), true)
        else
          var es := Commit(TABLE, r, Recovering(r.pinned.verdict), f.faulty);
          Outcome(es, es == [])
  }

  function SubmitSpec(r: Row, parsed: Parsed, f: Facts): Outcome<Event> {
    if !f.loads || parsed.Invalid? then Outcome([], true)
    else if r.status == Running then PersistSpec(r, parsed.verdict, f)
    else Outcome([], r.decision != parsed.verdict.canonical)
  }

  function ExitSpec(r: Row, report: ExitReport, f: Facts): Outcome<Event> {
    if !f.loads then Outcome([], true)
    else if r.status != Running then Outcome([], false)
    else FailSpec(r, ExitCode(report), f)
  }

  // ----- The engine itself

  class Engine {
    const ledger: Ledger<Row, Event>

    ghost predicate Ready()
      reads ledger
    {
      ledger.table == TABLE && ledger.Valid()
    }

    constructor (l: Ledger<Row, Event>)
      ensures ledger == l
    {
      ledger := l;
    }

    /** The startup entry point, the only caller that lets a wake through. */
    method Reconcile(f: Facts) returns (failed: bool)
      requires Ready()
      modifies ledger
      ensures Ready()
      ensures ledger.journal == old(ledger.journal) + ReconcileSpec(old(ledger.row), f).events
      ensures failed == ReconcileSpec(old(ledger.row), f).failed
    {
      if !f.loads {
        return true;
      }
      failed := Advance(ledger.row, f, true);
    }

    method Advance(attempt: Row, f: Facts, allowWake: bool) returns (failed: bool)
      requires Ready() && attempt == ledger.row && f.loads
      modifies ledger
      ensures Ready()
      ensures ledger.journal == old(ledger.journal) + AdvanceSpec(attempt, f, allowWake).events
      ensures failed == AdvanceSpec(attempt, f, allowWake).failed
      decreases StatusRank(attempt.status), 1
    {
      match attempt.status
      case Authorized => failed := Prepare(attempt, f);
      case Requested => failed := Launch(attempt, f);
      case Running => failed := Inspect(attempt, f);
      case Decided =>
        if !allowWake {
          return false;
        }
        failed := Repair(attempt, f);
      case Failed => failed := Recover(attempt, f);
      case PreflightFailed | SafeStopped | Repairing | RecoveryReviewed | Succeeded =>
        return false;
    }

    method Prepare(attempt: Row, f: Facts) returns (failed: bool)
      requires Ready() && attempt == ledger.row && attempt.status == Authorized && f.loads
      modifies ledger
      ensures Ready()
      ensures ledger.journal == old(ledger.journal) + PrepareSpec(attempt, f).events
      ensures failed == PrepareSpec(attempt, f).failed
      decreases StatusRank(attempt.status), 0
    {
      var updated: bool;
      if !f.incidentExact || !f.derives {
        return true;
      }
      failed, updated := ledger.Update(InputPrepared, f.faulty);
      if failed || !updated || !f.preparedReloads {
        return true;
      }
      failed := Advance(ledger.row, f, false);
    }

    method Launch(attempt: Row, f: Facts) returns (failed: bool)
      requires Ready() && attempt == ledger.row && attempt.status == Requested
      modifies ledger
      ensures Ready()
      ensures ledger.journal == old(ledger.journal) + LaunchSpec(attempt, f).events
      ensures failed == LaunchSpec(attempt, f).failed
    {
      var updated: bool;
      if !f.launcher {
        failed, updated := ledger.Update(PreflightRejected("launcher_unavailable"), f.faulty);
        return;
      }
      if !f.exact {
        failed, updated := ledger.Update(PreflightRejected("identity_drift"), f.faulty);
        return true;
      }
      if !f.preflight {
        failed, updated := ledger.Update(PreflightRejected("preflight_failed"), f.faulty);
        return true;
      }
      failed := Fence(attempt, f);
    }

    method Fence(attempt: Row, f: Facts) returns (failed: bool)
      requires Ready() && attempt == ledger.row && attempt.status == Requested
      modifies ledger
      ensures Ready()
      ensures ledger.journal == old(ledger.journal) + FenceSpec(attempt, f).events
      ensures failed == FenceSpec(attempt, f).failed
    {
      var updated: bool;
      failed, updated := ledger.Update(CallStarted, f.faulty);
      if failed || !updated {
        return true;
      }
      if !f.fenceReloads || ledger.row.status != Running || ledger.row.calls != 1 {
        return true;
      }
      ledger.Perform(ProcessLaunched);
      if !f.launches {
        failed, updated := ledger.Update(CallFailed("launch_failed"), f.faulty);
        return true;
      }
    }

    method Inspect(attempt: Row, f: Facts) returns (failed: bool)
      requires Ready() && attempt == ledger.row && attempt.status == Running
      modifies ledger
      ensures Ready()
      ensures ledger.journal == old(ledger.journal) + InspectSpec(attempt, f).events
      ensures failed == InspectSpec(attempt, f).failed
    {
      var updated: bool;
      if !f.launcher {
        failed, updated := ledger.Update(CallFailed("launcher_unavailable"), f.faulty);
        return;
      }
      if !f.resultPath {
        return true;
      }
      match f.result
      case Unreadable => return true;
      case Malformed =>
        failed, updated := ledger.Update(CallFailed("malformed_result"), f.faulty);
        return true;
      case Holds(verdict) =>
        failed := Persist(attempt, verdict, f);
      case Absent =>
        if f.alive == Unknown {
          return true;
        }
        if f.alive == Dead {
          failed, updated := ledger.Update(CallFailed("missing_result"), f.faulty);
          return;
        }
        return false;
    }

    /** Stops at the decision: consuming it is left to a later startup. */
    method Persist(attempt: Row, verdict: Verdict, f: Facts) returns (failed: bool)
      requires Ready() && attempt == ledger.row && attempt.status == Running
      modifies ledger
      ensures Ready()
      ensures ledger.journal == old(ledger.journal) + PersistSpec(attempt, verdict, f).events
      ensures failed == PersistSpec(attempt, verdict, f).failed
    {
      var updated: bool;
      if !f.exact {
        failed, updated := ledger.Update(CallFailed("identity_drift"), f.faulty);
        return true;
      }
      failed, updated := ledger.Update(Recording(verdict), f.faulty);
      failed := failed || !updated;
    }

    method Repair(attempt: Row, f: Facts) returns (failed: bool)
      requires Ready() && attempt == ledger.row && attempt.status == Decided
      modifies ledger
      ensures Ready()
      ensures ledger.journal == old(ledger.journal) + RepairSpec(attempt, f).events
      ensures failed == RepairSpec(attempt, f).failed
    {
      var updated: bool;
      if !f.waker {
        failed, updated := ledger.Update(RepairFailed("repair_waker_unavailable"), f.faulty);
        return;
      }
      if !f.exact {
        failed, updated := ledger.Update(RepairFailed("identity_drift"), f.faulty);
        return true;
      }
      if !f.policy {
        failed, updated := ledger.Update(RepairFailed("policy_drift"), f.faulty);
        return true;
      }
      failed, updated := ledger.Update(RepairConsumed, f.faulty);
      if failed || !updated {
        return true;
      }
      ledger.Perform(WorkerWoken);
      if !f.wakes {
        failed, updated := ledger.Update(RepairFailed("repair_launch_failed"), f.faulty);
        return true;
      }
    }

    method Recover(attempt: Row, f: Facts) returns (failed: bool)
      requires Ready() && attempt == ledger.row && attempt.status == Failed
      modifies ledger
      ensures Ready()
      ensures ledger.journal == old(ledger.journal) + RecoverSpec(attempt, f).events
      ensures failed == RecoverSpec(attempt, f).failed
    {
      var updated: bool;
      if !f.auditLoads {
        return true;
      }
      if attempt.audit == NoAudit {
        return f.knownInput && attempt.error == "submit_failed" && attempt.calls == 1;
      }
      if attempt.audit != Pending {
        return false;
      }
      var code := Objection(attempt, f);
      if code != "" {
        failed, updated := ledger.Update(AuditFailed(code), f.faulty);
        return true;
      }
      failed, updated := ledger.Update(Recovering(attempt.pinned.verdict), f.faulty);
      failed := failed || !updated;
    }

    method SubmitDecision(parsed: Parsed, f: Facts) returns (failed: bool)
      requires Ready()
      modifies ledger
      ensures Ready()
      ensures ledger.journal == old(ledger.journal) + SubmitSpec(old(ledger.row), parsed, f).events
      ensures failed == SubmitSpec(old(ledger.row), parsed, f).failed
    {
      if !f.loads || parsed.Invalid? {
        return true;
      }
      var attempt := ledger.row;
      if attempt.status != Running {
        return attempt.decision != parsed.verdict.canonical;
      }
      failed := Persist(attempt, parsed.verdict, f);
    }

    method ReportProcessExit(report: ExitReport, f: Facts) returns (failed: bool)
      requires Ready()
      modifies ledger
      ensures Ready()
      ensures ledger.journal == old(ledger.journal) + ExitSpec(old(ledger.row), report, f).events
      ensures failed == ExitSpec(old(ledger.row), report, f).failed
    {
      if !f.loads {
        return true;
      }
      if ledger.row.status != Running {
        return false;
      }
      var updated: bool;
      failed, updated := ledger.Update(CallFailed(ExitCode(report)), f.faulty);
    }
  }
}
