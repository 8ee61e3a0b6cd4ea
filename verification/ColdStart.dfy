/** The cold-start recovery: seal a backup, fence, rewrite and push one branch, and on
    restart inspect instead of acting again; then at most one review. */
module ColdStart {
  import opened FencedEffect
  import opened Journal
  import opened RecoveryReview

  datatype Status =
    | Authorized | BackedUp | Running | CandidateReady
    | ReviewRunning | RecoveryReviewed | Succeeded | Failed

  datatype Row = Row(
    status: Status, backup: string, actions: nat, reviews: nat,
    oldHead: string, head: string, reviewRun: string, error: string, finished: bool)

  /** The sealed backup's manifest digest; never empty once persisted. */
  type Seal = s: string | s != "" witness "0"

  datatype Event =
    | BackupPersisted(seal: Seal)
    | ActionStarted
    | ActionCompleted(head: Sha)
    | RecoveryFailed(code: string)
    | ReviewFenced(run: string, target: string)
    | ReviewFailed(run: string, target: string, code: string)
    | Rebound(run: string, target: string)
    | Completed(run: string, target: string)
    | MergeFailed(run: string, target: string, code: string)
    | ActionExecuted
    | ReviewTriggered
    | CallEnded

  predicate Durable(e: Event) {
    !e.ActionExecuted? && !e.ReviewTriggered? && !e.CallEnded?
  }

  predicate Unreviewed(r: Row) {
    r.reviews == 0 && r.reviewRun == "" && r.error == ""
  }

  predicate Reviewed(r: Row, run: string, target: string) {
    r.actions == 1 && r.reviews == 1 && r.reviewRun == run && r.head == target && r.error == ""
  }

  predicate Guard(r: Row, e: Event) {
    match e
    case BackupPersisted(_) =>
      r.status == Authorized && r.actions == 0 && r.reviews == 0 && r.backup == "" && r.error == ""
    case ActionStarted =>
      r.status == BackedUp && r.actions == 0 && r.backup != "" && r.head == "" && Unreviewed(r)
    case ActionCompleted(head) =>
      r.status == Running && r.actions == 1 && r.head == "" && Unreviewed(r) && head != r.oldHead
    case RecoveryFailed(_) =>
      (r.status == Authorized || r.status == BackedUp || r.status == Running) && Unreviewed(r)
    case ReviewFenced(run, target) =>
      r.status == CandidateReady && r.actions == 1 && Unreviewed(r) && r.head == target && run != ""
    case ReviewFailed(run, target, _) => r.status == ReviewRunning && Reviewed(r, run, target)
    case Rebound(run, target) => r.status == ReviewRunning && Reviewed(r, run, target)
    case Completed(run, target) => r.status == RecoveryReviewed && Reviewed(r, run, target)
    case MergeFailed(run, target, _) => r.status == RecoveryReviewed && Reviewed(r, run, target)
    case ActionExecuted | ReviewTriggered | CallEnded => true
  }

  function Apply(r: Row, e: Event): Row {
    match e
    case BackupPersisted(seal) => r.(status := BackedUp, backup := seal)
    case ActionStarted => r.(status := Running, actions := 1)
    case ActionCompleted(head) => r.(status := CandidateReady, head := head)
    case RecoveryFailed(code) => r.(status := Failed, error := code, finished := true)
    case ReviewFenced(run, _) => r.(status := ReviewRunning, reviews := 1, reviewRun := run)
    case ReviewFailed(_, _, code) => r.(status := Failed, error := code, finished := true)
    case Rebound(_, _) => r.(status := RecoveryReviewed)
    case Completed(_, _) => r.(status := Succeeded, finished := true)
    case MergeFailed(_, _, code) => r.(status := Failed, error := code, finished := true)
    case ActionExecuted | ReviewTriggered | CallEnded => r
  }

  /** The table's CHECK constraints. */
  predicate Checks(r: Row) {
    && r.actions <= 1 && r.reviews <= 1
    && (r.status != Authorized && r.status != Failed ==> r.backup != "")
    && (r.status != Authorized && r.status != BackedUp && r.status != Failed ==> r.actions == 1)
    && (r.status == CandidateReady || r.status == ReviewRunning ==> r.head != "")
    && (r.status == RecoveryReviewed || r.status == Succeeded ==> r.head != "")
    && (r.status == ReviewRunning || r.status == RecoveryReviewed || r.status == Succeeded ==>
          r.reviews == 1 && r.reviewRun != "")
    && (r.finished <==> r.status == Succeeded || r.status == Failed)
  }

  function StatusRank(s: Status): nat {
    match s
    case Authorized => 6
    case BackedUp => 5
    case Running => 4
    case CandidateReady => 3
    case ReviewRunning => 2
    case RecoveryReviewed => 1
    case Succeeded | Failed => 0
  }

  function Rank(r: Row): nat {
    StatusRank(r.status)
  }

  const TABLE := Table(Guard, Apply, Checks, Durable, Rank, CallEnded)

  // ----- What one call sees of the world

  datatype Backup = NoBackup | Sealed(seal: Seal)
  datatype Result = Broken | Produced(head: Sha)

  /** `provider` is the check before the action, `outcome` the one after it;
      `reloads` says whether the row can be read back behind each update. */
  datatype Facts = Facts(
    loads: bool, executor: bool, predecessor: bool, provider: bool, backup: Backup,
    backupReloads: bool, fenceReloads: bool, executed: Result, inspected: Result,
    outcome: bool, readyReloads: bool, trigger: bool, triggers: bool, enrols: bool,
    faulty: Event -> bool)

  // ----- What each call leaves in the journal

  function ReconcileSpec(r: Row, f: Facts): Outcome<Event> {
    if !f.loads then Outcome([], true)
    else match r.status
      case Authorized => SealSpec(r, f)
      case BackedUp => ActSpec(r, f)
      case Running => InspectSpec(r, f)
      case CandidateReady => ReadySpec(f)
      case _ => Outcome([], false)
  }

  function FailSpec(r: Row, code: string, f: Facts): Outcome<Event> {
    Outcome(Commit(TABLE, r, RecoveryFailed(code), f.faulty), true)
  }

  function SealSpec(r: Row, f: Facts): Outcome<Event> {
    if !f.executor then FailSpec(r, "executor_unavailable", f)
    else if !f.predecessor then FailSpec(r, "identity_drift", f)
    else if !f.provider then FailSpec(r, "provider_identity_drift", f)
    else if f.backup.NoBackup? then FailSpec(r, "preflight_or_backup_failed", f)
    else PersistSpec(r, f)
  }

  function PersistSpec(r: Row, f: Facts): Outcome<Event>
    requires f.backup.Sealed?
  {
    var e := BackupPersisted(f.backup.seal);
    if Commit(TABLE, r, e, f.faulty) == [] then Outcome([], true)
    else if !f.backupReloads then Outcome([e], true)
    else
      var rest := ActSpec(Apply(r, e), f);
      Outcome([e] + rest.events, rest.failed)
  }

  /** A backed-up row is fenced without looking whether there is an executor to call;
      when there is none, the call is made on a nil interface and panics. */
  predicate Panics(r: Row, f: Facts) {
    r.status == BackedUp && f.loads && Commit(TABLE, r, ActionStarted, f.faulty) != [] && f.fenceReloads && !f.executor
  }

  /** What a backed-up call journals; a panicking one ends with its fence. */
  function ActSpec(r: Row, f: Facts): Outcome<Event> {
    if Commit(TABLE, r, ActionStarted, f.faulty) == [] then Outcome([], true)
    else if !f.fenceReloads || !f.executor then Outcome([ActionStarted], true)
    else
      var rest := SettleSpec(Apply(r, ActionStarted), f.executed, "model_free_action_failed", f);
      Outcome([ActionStarted, ActionExecuted] + rest.events, rest.failed)
  }

  function InspectSpec(r: Row, f: Facts): Outcome<Event> {
    if !f.executor then FailSpec(r, "executor_unavailable", f)
    else SettleSpec(r, f.inspected, "incomplete_action", f)
  }

  function SettleSpec(r: Row, result: Result, code: string, f: Facts): Outcome<Event> {
    if result.Broken? then FailSpec(r, code, f)
    else if !f.outcome then FailSpec(r, "provider_identity_drift", f)
    else
      var e := ActionCompleted(result.head);
      if Commit(TABLE, r, e, f.faulty) == [] then Outcome([], true)
      else if !f.readyReloads then Outcome([e], true)
      else
        var rest := ReadySpec(f);
        Outcome([e] + rest.events, rest.failed)
  }

  function ReadySpec(f: Facts): Outcome<Event> {
    if !f.trigger then Outcome([], true) else Outcome([ReviewTriggered], !f.triggers)
  }

  predicate Owns(r: Row, run: string, target: string) {
    r.status == ReviewRunning && r.reviewRun == run && r.head == target
  }

  /** The run is, or was, this recovery's own review. */
  predicate Concerns(r: Row, run: string, target: string) {
    r.reviewRun == run && r.head == target && (r.status == ReviewRunning || r.status == Failed)
  }

  function RulingSpec(r: Row, ruling: Ruling, run: string, target: string, f: Facts): Outcome<Event> {
    match ruling
    case Hold(err) => Outcome([], err)
    case Fail(code, err) =>
      var e := ReviewFailed(run, target, code);
      Outcome(Commit(TABLE, r, e, f.faulty), err || f.faulty(e))
    case Accept =>
      var es := Commit(TABLE, r, Rebound(run, target), f.faulty);
      Outcome(es, es == [])
  }

  function ReviewSpec(r: Row, run: Review, f: Facts): Outcome<Event> {
    if !f.loads then Outcome([], true)
    else if !Owns(r, run.id, run.target) then Outcome([], false)
    else if RuleOnRun(run).Accept? then Outcome([], !f.enrols)
    else RulingSpec(r, RuleOnRun(run), run.id, run.target, f)
  }

  function RebindSpec(r: Row, run: string, target: string, v: Evidence, f: Facts): Outcome<Event> {
    if !f.loads then Outcome([], true)
    else if !Owns(r, run, target) then Outcome([], false)
    else RulingSpec(r, RuleOnCandidate(v), run, target, f)
  }

  // ----- The engine itself

  class Engine {
    const ledger: Ledger<Row, Event>

    ghost predicate Ready()
      reads ledger
    {
      ledger.table == TABLE && ledger.Valid()
    }

    constructor (l: Ledger<Row, Event>)
      ensures ledger == l
    {
      ledger := l;
    }

    /** `panicked` says that the call unwound instead of returning, so `failed` is then
        nobody's to read. */
    method Reconcile(f: Facts) returns (failed: bool, panicked: bool)
      requires Ready()
      modifies ledger
      ensures Ready()
      ensures ledger.journal == old(ledger.journal) + ReconcileSpec(old(ledger.row), f).events
      ensures panicked <==> Panics(old(ledger.row), f)
      ensures !panicked ==> failed == ReconcileSpec(old(ledger.row), f).failed
    {
      if !f.loads {
        return true, false;
      }
      failed, panicked := Advance(ledger.row, f);
    }

    method Advance(row: Row, f: Facts) returns (failed: bool, panicked: bool)
      requires Ready() && row == ledger.row && f.loads
      modifies ledger
      ensures Ready()
      ensures ledger.journal == old(ledger.journal) + ReconcileSpec(row, f).events
      ensures panicked <==> Panics(row, f)
      ensures !panicked ==> failed == ReconcileSpec(row, f).failed
      decreases StatusRank(row.status), 2
    {
      panicked := false;
      match row.status
      case Authorized => failed := SealBackup(row, f);
      case BackedUp => failed, panicked := Act(row, f);
      case Running => failed := Inspect(row, f);
      case CandidateReady =>
        if !f.trigger {
          return true, false;
        }
        ledger.Perform(ReviewTriggered);
        failed := !f.triggers;
      case ReviewRunning | RecoveryReviewed | Succeeded | Failed =>
        return false, false;
    }

    method Fail(code: string, f: Facts) returns (failed: bool)
      requires Ready()
      modifies ledger
      ensures Ready()
      ensures ledger.journal == old(ledger.journal) + FailSpec(old(ledger.row), code, f).events && failed
    {
      var updated: bool;
      failed, updated := ledger.Update(RecoveryFailed(code), f.faulty);
      failed := true;
    }

    method SealBackup(row: Row, f: Facts) returns (failed: bool)
      requires Ready() && row == ledger.row && row.status == Authorized && f.loads
      modifies ledger
      ensures Ready()
      ensures ledger.journal == old(ledger.journal) + SealSpec(row, f).events
      ensures failed == SealSpec(row, f).failed
      decreases StatusRank(row.status), 1
    {
      if !f.executor {
        failed := Fail("executor_unavailable", f);
        return;
      }
      if !f.predecessor {
        failed := Fail("identity_drift", f);
        return;
      }
      if !f.provider {
        failed := Fail("provider_identity_drift", f);
        return;
      }
      if f.backup.NoBackup? {
        failed := Fail("preflight_or_backup_failed", f);
        return;
      }
      failed := Persist(row, f);
    }

    /** The seal on record, and on to the action: the executor that sealed is there. */
    method Persist(row: Row, f: Facts) returns (failed: bool)
      requires Ready() && row == ledger.row && row.status == Authorized && f.loads && f.executor && f.backup.Sealed?
      modifies ledger
      ensures Ready()
      ensures ledger.journal == old(ledger.journal) + PersistSpec(row, f).events
      ensures failed == PersistSpec(row, f).failed
      decreases StatusRank(row.status), 0
    {
      var updated, panicked: bool;
      failed, updated := ledger.Update(BackupPersisted(f.backup.seal), f.faulty);
      if failed || !updated || !f.backupReloads {
        return true;
      }
      failed, panicked := Advance(ledger.row, f);
    }

    method Act(row: Row, f: Facts) returns (failed: bool, panicked: bool)
      requires Ready() && row == ledger.row && row.status == BackedUp && f.loads
      modifies ledger
      ensures Ready()
      ensures ledger.journal == old(ledger.journal) + ActSpec(row, f).events
      ensures panicked <==> Panics(row, f)
      ensures !panicked ==> failed == ActSpec(row, f).failed
      decreases StatusRank(row.status), 1
    {
      var updated: bool;
      panicked := false;
      failed, updated := ledger.Update(ActionStarted, f.faulty);
      if failed || !updated {
        return true, false;
      }
      if !f.fenceReloads || ledger.row.status != Running || ledger.row.actions != 1 {
        return true, false;
      }
      if !f.executor {
        return true, true;
      }
      ledger.Perform(ActionExecuted);
      failed := Settle(ledger.row, f.executed, "model_free_action_failed", f);
    }

    method Inspect(row: Row, f: Facts) returns (failed: bool)
      requires Ready() && row == ledger.row && row.status == Running && f.loads
      modifies ledger
      ensures Ready()
      ensures ledger.journal == old(ledger.journal) + InspectSpec(row, f).events
      ensures failed == InspectSpec(row, f).failed
      decreases StatusRank(row.status), 1
    {
      if !f.executor {
        failed := Fail("executor_unavailable", f);
        return;
      }
      failed := Settle(row, f.inspected, "incomplete_action", f);
    }

    method Settle(row: Row, result: Result, code: string, f: Facts) returns (failed: bool)
      requires Ready() && row == ledger.row && row.status == Running && f.loads
      modifies ledger
      ensures Ready()
      ensures ledger.journal == old(ledger.journal) + SettleSpec(row, result, code, f).events
      ensures failed == SettleSpec(row, result, code, f).failed
      decreases StatusRank(row.status), 0
    {
      var updated: bool;
      if result.Broken? {
        failed := Fail(code, f);
        return;
      }
      if !f.outcome {
        failed := Fail("provider_identity_drift", f);
        return;
      }
      failed, updated := ledger.Update(ActionCompleted(result.head), f.faulty);
      if failed || !updated || !f.readyReloads {
        return true;
      }
      var panicked: bool;
      failed, panicked := Advance(ledger.row, f);
    }

    method HandleReview(run: Review, f: Facts) returns (handled: bool, failed: bool)
      requires Ready()
      modifies ledger
      ensures Ready()
      ensures ledger.journal == old(ledger.journal) + ReviewSpec(old(ledger.row), run, f).events
      ensures failed == ReviewSpec(old(ledger.row), run, f).failed
      ensures handled <==> (f.loads && Concerns(old(ledger.row), run.id, run.target))
    {
      if !f.loads {
        return false, true;
      }
      var row, updated := ledger.row, false;
      if row.status == Failed && row.reviewRun == run.id && row.head == run.target {
        return true, false;
      }
      if row.status != ReviewRunning || row.reviewRun != run.id || row.head != run.target {
        return false, false;
      }
      handled := true;
      if !run.completed {
        failed, updated := ledger.Update(ReviewFailed(run.id, run.target, "review_result_malformed"), f.faulty);
        return;
      }
      if !run.approved {
        failed, updated := ledger.Update(ReviewFailed(run.id, run.target, "review_changes_requested"), f.faulty);
        return;
      }
      failed := !f.enrols;
    }

    method TryRebind(run: string, target: string, v: Evidence, f: Facts) returns (handled: bool, failed: bool)
      requires Ready()
      modifies ledger
      ensures Ready()
      ensures ledger.journal == old(ledger.journal) + RebindSpec(old(ledger.row), run, target, v, f).events
      ensures failed == RebindSpec(old(ledger.row), run, target, v, f).failed
      ensures handled <==> (f.loads && Owns(old(ledger.row), run, target))
    {
      if !f.loads {
        return false, true;
      }
      if !Owns(ledger.row, run, target) {
        return false, false;
      }
      handled := true;
      var updated: bool;
      match RuleOnCandidate(v)
      case Hold(err) => failed := err;
      case Fail(code, err) =>
        failed, updated := ledger.Update(ReviewFailed(run, target, code), f.faulty);
        failed := failed || err;
      case Accept =>
        failed, updated := ledger.Update(Rebound(run, target), f.faulty);
        failed := failed || !updated;
    }
  }
}
