/** The release arbiter: one model call and one recovery wake per incident, driven
    by startup reconciliation, live submits and process-exit reports that may each
    die between any two durable steps. */
module Arbiter {
  import opened FencedEffect
  import opened Journal
  import opened ArbiterProtocol

  datatype Status =
    | Requested | PreflightFailed | Running | Decided | SafeStopped
    | Repairing | RecoveryReviewed | Succeeded | Failed

  /** The durable incident row, plus `leased`: the admission it belongs to is still
      in its incident state under the incident's lease. */
  datatype Row = Row(
    status: Status, calls: nat, decision: string, wakes: nat,
    error: Code, finished: bool, leased: bool)

  /** One journal entry: a committed store update, an external effect, or the end
      of a call. The journal is everything that outlives the process. */
  datatype Event =
    | CallStarted
    | PreflightRejected(code: Code)
    | DecisionRecorded(decision: Canonical, safeStop: bool, code: Code)
    | RepairConsumed
    | CallFailed(code: Code)
    | RepairFailed(code: Code)
    | Rebound
    | Completed
    | AdmissionMoved
    | ProcessLaunched
    | WorkerWoken
    | CallEnded

  predicate Durable(e: Event) {
    !e.ProcessLaunched? && !e.WorkerWoken? && !e.CallEnded?
  }

  /** The WHERE clause of the store update behind each event. */
  predicate Guard(r: Row, e: Event) {
    match e
    case CallStarted => r.status == Requested && r.calls == 0 && r.leased
    case PreflightRejected(_) => r.status == Requested && r.calls == 0
    case DecisionRecorded(_, _, _) =>
      r.status == Running && r.calls == 1 && r.decision == "" && r.leased
    case RepairConsumed => r.status == Decided && r.wakes == 0 && r.leased
    case CallFailed(_) => r.status == Running && r.calls == 1 && r.decision == ""
    case RepairFailed(_) =>
      (r.status == Decided || r.status == Repairing) && r.calls == 1 && r.decision != ""
    case Rebound => r.status == Repairing && r.wakes == 1 && r.leased
    case Completed => r.status == RecoveryReviewed
    case AdmissionMoved => r.leased
    case ProcessLaunched | WorkerWoken | CallEnded => true
  }

  /** The SET clause of the same update; effects leave the row alone. */
  function Apply(r: Row, e: Event): Row {
    match e
    case CallStarted => r.(status := Running, calls := 1)
    case PreflightRejected(code) => r.(status := PreflightFailed, error := code, finished := true)
    case DecisionRecorded(d, safeStop, code) =>
      r.(status := if safeStop then SafeStopped else Decided,
         decision := d, error := code, finished := safeStop)
    case RepairConsumed => r.(status := Repairing, wakes := 1)
    case CallFailed(code) => r.(status := Failed, error := code, finished := true)
    case RepairFailed(code) => r.(status := Failed, error := code, finished := true)
    case Rebound => r.(status := RecoveryReviewed, leased := false)
    case Completed => r.(status := Succeeded, error := "", finished := true)
    case AdmissionMoved => r.(leased := false)
    case ProcessLaunched | WorkerWoken | CallEnded => r
  }

  /** The table's CHECK constraints, status by status. */
  predicate Checks(r: Row) {
    match r.status
    case Requested => r.calls == 0 && r.decision == "" && r.wakes == 0 && !r.finished
    case PreflightFailed => r.calls == 0 && r.decision == "" && r.wakes == 0 && r.finished
    case Running => r.calls == 1 && r.decision == "" && r.wakes == 0 && !r.finished
    case Decided => r.calls == 1 && r.decision != "" && r.wakes == 0 && !r.finished
    case SafeStopped => r.calls == 1 && r.decision != "" && r.wakes == 0 && r.finished
    case Repairing | RecoveryReviewed => r.calls == 1 && r.decision != "" && r.wakes == 1 && !r.finished
    case Succeeded => r.calls == 1 && r.decision != "" && r.wakes == 1 && r.finished
    case Failed => r.calls == 1 && r.wakes <= 1 && r.finished
  }

  const OPENED := Row(Requested, 0, "", 0, "", false, true)

  function StatusRank(s: Status): nat {
    match s
    case Requested => 5
    case Running => 4
    case Decided => 3
    case Repairing => 2
    case RecoveryReviewed => 1
    case PreflightFailed | SafeStopped | Succeeded | Failed => 0
  }

  function Rank(r: Row): nat {
    StatusRank(r.status) + if r.leased then 1 else 0
  }

  const TABLE := Table(Guard, Apply, Checks, Durable, Rank, CallEnded)

  // ----- What one call sees of the world

  /** Every answer the outside world gives during one call: which collaborators are
      wired, what each probe says, and which store updates return an error. */
  datatype Facts = Facts(
    loads: bool, launcher: bool, exact: bool, preflight: bool, launches: bool,
    resultPath: bool, result: ResultFile, alive: Liveness,
    waker: bool, wakes: bool, reloads: bool, faulty: Event -> bool)

  // ----- What each call leaves in the journal

  function AdvanceSpec(r: Row, f: Facts): Outcome<Event> {
    match r.status
    case Requested => LaunchSpec(r, f)
    case Running => InspectSpec(r, f)
    case Decided => RepairSpec(r, f)
    case _ => Outcome([], false)
  }

  function LaunchSpec(r: Row, f: Facts): Outcome<Event> {
    if !f.launcher then
      var e := PreflightRejected("launcher_unavailable");
      Outcome(Commit(TABLE, r, e, f.faulty), f.faulty(e))
    else if !f.exact || !f.preflight then
      var code := if !f.exact then "identity_drift" else "preflight_failed";
      Outcome(Commit(TABLE, r, PreflightRejected(code), f.faulty), true)
    else if Commit(TABLE, r, CallStarted, f.faulty) == [] then
      Outcome([], true)
    else
      var lost := CallFailed("launch_failed");
      Outcome([CallStarted, ProcessLaunched]
              + (if f.launches then [] else Commit(TABLE, Apply(r, CallStarted), lost, f.faulty)),
              !f.launches)
  }

  function InspectSpec(r: Row, f: Facts): Outcome<Event> {
    if !f.launcher then FailSpec(r, "launcher_unavailable", f)
    else if !f.resultPath then Outcome([], true)
    else match f.result
      case Unreadable => Outcome([], true)
      case Malformed => Outcome(FailSpec(r, "malformed_result", f).events, true)
      case Holds(v) => PersistSpec(r, v, f)
      case Absent =>
        match f.alive
        case Unknown => Outcome([], true)
        case Alive => Outcome([], false)
        case Dead => FailSpec(r, "missing_result", f)
  }

  function FailSpec(r: Row, code: Code, f: Facts): Outcome<Event> {
    Outcome(Commit(TABLE, r, CallFailed(code), f.faulty), f.faulty(CallFailed(code)))
  }

  function Recording(v: Verdict): Event {
    DecisionRecorded(v.canonical, v.safeStop, if v.safeStop then v.code else "")
  }

  function PersistSpec(r: Row, v: Verdict, f: Facts): Outcome<Event> {
    var e := Recording(v);
    if !f.exact then Outcome(FailSpec(r, "identity_drift", f).events, true)
    else if Commit(TABLE, r, e, f.faulty) == [] then Outcome([], true)
    else if v.safeStop then Outcome([e], false)
    else if !f.reloads then Outcome([e], true)
    else
      var rest := RepairSpec(Apply(r, e), f);
      Outcome([e] + rest.events, rest.failed)
  }

  function RepairSpec(r: Row, f: Facts): Outcome<Event> {
    if !f.waker then
      var e := RepairFailed("repair_waker_unavailable");
      Outcome(Commit(TABLE, r, e, f.faulty), f.faulty(e))
    else if Commit(TABLE, r, RepairConsumed, f.faulty) == [] then
      Outcome([], true)
    else
      var lost := RepairFailed("repair_launch_failed");
      Outcome([RepairConsumed, WorkerWoken]
              + (if f.wakes then [] else Commit(TABLE, Apply(r, RepairConsumed), lost, f.faulty)),
              !f.wakes)
  }

  function SubmitSpec(r: Row, parsed: Parsed, f: Facts): Outcome<Event> {
    if !f.loads || parsed.Invalid? then Outcome([], true)
    else if r.status == Running then PersistSpec(r, parsed.verdict, f)
    else Outcome([], r.decision != parsed.verdict.canonical)
  }

  function ExitSpec(r: Row, report: ExitReport, f: Facts): Outcome<Event> {
    if !f.loads then Outcome([], true)
    else if r.status != Running then Outcome([], false)
    else FailSpec(r, ExitCode(report), f)
  }

  // ----- The engine itself

  class Engine {
    const ledger: Ledger<Row, Event>

    ghost predicate Ready()
      reads ledger
    {
      ledger.table == TABLE && ledger.Valid()
    }

    constructor (l: Ledger<Row, Event>)
      ensures ledger == l
    {
      ledger := l;
    }

    method Advance(incident: Row, f: Facts) returns (failed: bool)
      requires Ready() && incident == ledger.row
      modifies ledger
      ensures Ready()
      ensures ledger.journal == old(ledger.journal) + AdvanceSpec(incident, f).events
      ensures failed == AdvanceSpec(incident, f).failed
      decreases StatusRank(incident.status), 2
    {
      match incident.status
      case Requested => failed := Launch(incident, f);
      case Running => failed := Inspect(incident, f);
      case Decided => failed := Repair(incident, f);
      case PreflightFailed | SafeStopped | Repairing | RecoveryReviewed | Succeeded | Failed =>
        return false;
    }

    method Launch(incident: Row, f: Facts) returns (failed: bool)
      requires Ready() && incident == ledger.row && incident.status == Requested
      modifies ledger
      ensures Ready()
      ensures ledger.journal == old(ledger.journal) + LaunchSpec(incident, f).events
      ensures failed == LaunchSpec(incident, f).failed
    {
      var updated: bool;
      if !f.launcher {
        failed, updated := ledger.Update(PreflightRejected("launcher_unavailable"), f.faulty);
        return;
      }
      if !f.exact {
        failed, updated := ledger.Update(PreflightRejected("identity_drift"), f.faulty);
        return true;
      }
      if !f.preflight {
        failed, updated := ledger.Update(PreflightRejected("preflight_failed"), f.faulty);
        return true;
      }
      failed, updated := ledger.Update(CallStarted, f.faulty);
      if failed || !updated {
        return true;
      }
      ledger.Perform(ProcessLaunched);
      if !f.launches {
        failed, updated := ledger.Update(CallFailed("launch_failed"), f.faulty);
        return true;
      }
    }

    method Inspect(incident: Row, f: Facts) returns (failed: bool)
      requires Ready() && incident == ledger.row && incident.status == Running
      modifies ledger
      ensures Ready()
      ensures ledger.journal == old(ledger.journal) + InspectSpec(incident, f).events
      ensures failed == InspectSpec(incident, f).failed
      decreases StatusRank(incident.status), 1
    {
      var updated: bool;
      if !f.launcher {
        failed, updated := ledger.Update(CallFailed("launcher_unavailable"), f.faulty);
        return;
      }
      if !f.resultPath {
        return true;
      }
      match f.result
      case Unreadable => return true;
      case Malformed =>
        failed, updated := ledger.Update(CallFailed("malformed_result"), f.faulty);
        return true;
      case Holds(verdict) =>
        failed := Persist(incident, verdict, f);
      case Absent =>
        if f.alive == Unknown {
          return true;
        }
        if f.alive == Dead {
          failed, updated := ledger.Update(CallFailed("missing_result"), f.faulty);
          return;
        }
        return false;
    }

    method Repair(incident: Row, f: Facts) returns (failed: bool)
      requires Ready() && incident == ledger.row && incident.status == Decided
      modifies ledger
      ensures Ready()
      ensures ledger.journal == old(ledger.journal) + RepairSpec(incident, f).events
      ensures failed == RepairSpec(incident, f).failed
    {
      var updated: bool;
      if !f.waker {
        failed, updated := ledger.Update(RepairFailed("repair_waker_unavailable"), f.faulty);
        return;
      }
      failed, updated := ledger.Update(RepairConsumed, f.faulty);
      if failed || !updated {
        return true;
      }
      ledger.Perform(WorkerWoken);
      if !f.wakes {
        failed, updated := ledger.Update(RepairFailed("repair_launch_failed"), f.faulty);
        return true;
      }
    }

    method Persist(incident: Row, verdict: Verdict, f: Facts) returns (failed: bool)
      requires Ready() && incident == ledger.row && incident.status == Running
      modifies ledger
      ensures Ready()
      ensures ledger.journal == old(ledger.journal) + PersistSpec(incident, verdict, f).events
      ensures failed == PersistSpec(incident, verdict, f).failed
      decreases StatusRank(incident.status), 0
    {
      var updated: bool;
      if !f.exact {
        failed, updated := ledger.Update(CallFailed("identity_drift"), f.faulty);
        return true;
      }
      failed, updated := ledger.Update(Recording(verdict), f.faulty);
      if failed || !updated {
        return true;
      }
      if verdict.safeStop {
        return false;
      }
      if !f.reloads {
        return true;
      }
      failed := Advance(ledger.row, f);
    }

    method SubmitDecision(parsed: Parsed, f: Facts) returns (failed: bool)
      requires Ready()
      modifies ledger
      ensures Ready()
      ensures ledger.journal == old(ledger.journal) + SubmitSpec(old(ledger.row), parsed, f).events
      ensures failed == SubmitSpec(old(ledger.row), parsed, f).failed
    {
      if !f.loads || parsed.Invalid? {
        return true;
      }
      var incident := ledger.row;
      if incident.status != Running {
        return incident.decision != parsed.verdict.canonical;
      }
      failed := Persist(incident, parsed.verdict, f);
    }

    method ReportProcessExit(report: ExitReport, f: Facts) returns (failed: bool)
      requires Ready()
      modifies ledger
      ensures Ready()
      ensures ledger.journal == old(ledger.journal) + ExitSpec(old(ledger.row), report, f).events
      ensures failed == ExitSpec(old(ledger.row), report, f).failed
    {
      if !f.loads {
        return true;
      }
      if ledger.row.status != Running {
        return false;
      }
      var updated: bool;
      failed, updated := ledger.Update(CallFailed(ExitCode(report)), f.faulty);
    }
  }
}
