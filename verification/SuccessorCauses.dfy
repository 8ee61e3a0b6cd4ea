/** What has to be the case for each journal entry of the successor attempt, entry by
    entry instead of branch by branch. */
module SuccessorCauses {
  import opened FencedEffect
  import opened Journal
  import opened Options
  import opened ArbiterProtocol
  import opened ArbiterSuccessor
  import opened SuccessorRuns

  /** A startup that reads its row and finds it with this status. */
  predicate Finds(r: Row, mv: Move, s: Status) {
    mv.Reconcile? && mv.f.loads && r.status == s
  }

  predicate Prepares(r: Row, mv: Move) {
    Finds(r, mv, Authorized) && mv.f.incidentExact && mv.f.derives && !mv.f.faulty(InputPrepared)
  }

  /** The attempt is requested, or becomes so in this call and is read back. */
  predicate Asks(r: Row, mv: Move) {
    Finds(r, mv, Requested) || (Prepares(r, mv) && mv.f.preparedReloads)
  }

  predicate Fences(r: Row, mv: Move) {
    Asks(r, mv) && mv.f.launcher && mv.f.exact && mv.f.preflight && !mv.f.faulty(CallStarted)
  }

  predicate Launches(r: Row, mv: Move) {
    Fences(r, mv) && mv.f.fenceReloads
  }

  /** Why a requested attempt is refused its call. */
  predicate Refuses(f: Facts, code: Code) {
    || (code == "launcher_unavailable" && !f.launcher)
    || (code == "identity_drift" && f.launcher && !f.exact)
    || (code == "preflight_failed" && f.launcher && f.exact && !f.preflight)
  }

  /** The verdict a call brings: submitted live, or found in the result file. */
  function Brought(mv: Move): Option<Verdict> {
    match mv
    case Submit(Accepted(v), f) => if f.loads then Some(v) else None
    case Reconcile(f) =>
      if f.loads && f.launcher && f.resultPath && f.result.Holds? then Some(f.result.verdict) else None
    case _ => None
  }

  predicate Brings(r: Row, mv: Move) {
    r.status == Running && Brought(mv).Some?
  }

  predicate Records(r: Row, mv: Move) {
    Brings(r, mv) && mv.f.exact && !mv.f.faulty(Recording(Brought(mv).value))
  }

  /** Why a startup gives up a running attempt, other than for its decision. */
  predicate GivesUp(f: Facts, code: Code) {
    || (code == "launcher_unavailable" && !f.launcher)
    || (code == "malformed_result" && f.launcher && f.resultPath && f.result.Malformed?)
    || (code == "missing_result" && f.launcher && f.resultPath && f.result.Absent? && f.alive.Dead?)
  }

  predicate Wakes(r: Row, mv: Move) {
    && Finds(r, mv, Decided)
    && mv.f.waker && mv.f.exact && mv.f.policy && !mv.f.faulty(RepairConsumed)
  }

  /** Why a decided attempt loses its repair. */
  predicate LosesRepair(r: Row, mv: Move, code: Code) {
    && Finds(r, mv, Decided)
    && (|| (code == "repair_waker_unavailable" && !mv.f.waker)
        || (code == "identity_drift" && mv.f.waker && !mv.f.exact)
        || (code == "policy_drift" && mv.f.waker && mv.f.exact && !mv.f.policy)
        || (code == "repair_launch_failed" && Wakes(r, mv) && !mv.f.wakes))
  }

  /** A startup on a failed attempt whose audit is pending. */
  predicate Audits(r: Row, mv: Move) {
    Finds(r, mv, Failed) && mv.f.auditLoads && r.audit == Pending
  }

  /** Failed for its rejected submit, and nothing decided or woken since. */
  predicate SubmitLost(r: Row) {
    r.status == Failed && r.error == "submit_failed" && r.decision == "" && r.wakes == 0
  }

  predicate AuditHolds(r: Row, f: Facts) {
    f.auditExact && SubmitLost(r)
  }

  /** The old process is known to be gone, and the attempt is still the one authorized. */
  predicate Inspectable(r: Row, f: Facts) {
    AuditHolds(r, f) && f.launcher && f.exact && f.alive.Dead? && f.resultPath
  }

  /** Why a pending audit is turned down. */
  predicate Objects(r: Row, f: Facts, code: Code) {
    || (code == "identity_drift" && !AuditHolds(r, f))
    || (code == "launcher_unavailable" && AuditHolds(r, f) && !f.launcher)
    || (code == "identity_drift" && AuditHolds(r, f) && f.launcher && !f.exact)
    || (code == "process_state_ambiguous" && AuditHolds(r, f) && f.launcher && f.exact && f.alive.Unknown?)
    || (code == "process_still_active" && AuditHolds(r, f) && f.launcher && f.exact && f.alive.Alive?)
    || (code == "result_path_invalid" && AuditHolds(r, f) && f.launcher && f.exact && f.alive.Dead? && !f.resultPath)
    || (code == "result_identity_drift" && Inspectable(r, f) && f.artifact.WrongFile?)
    || (code == "result_digest_drift" && Inspectable(r, f) && f.artifact.WrongDigest?)
    || (code == "result_still_invalid" && Inspectable(r, f) && f.artifact.Pinned? && r.pinned.Invalid?)
  }

  predicate Recovers(r: Row, mv: Move) {
    Audits(r, mv) && Inspectable(r, mv.f) && mv.f.artifact.Pinned? && r.pinned.Accepted?
  }

  predicate Cause(r: Row, mv: Move, e: Event) {
    match e
    case InputPrepared => Prepares(r, mv)
    case CallStarted => Fences(r, mv)
    case ProcessLaunched => Launches(r, mv)
    case PreflightRejected(code) => Asks(r, mv) && Refuses(mv.f, code) && !mv.f.faulty(e)
    case DecisionRecorded(d, stop, code) =>
      && Records(r, mv)
      && var v := Brought(mv).value; d == v.canonical && stop == v.safeStop && code == if stop then v.code else ""
    case RepairConsumed | WorkerWoken => Wakes(r, mv)
    case CallFailed(code) =>
      && !mv.Outside? && !mv.f.faulty(e)
      && (|| (Launches(r, mv) && !mv.f.launches && code == "launch_failed")
          || (Brings(r, mv) && !mv.f.exact && code == "identity_drift")
          || (Finds(r, mv, Running) && GivesUp(mv.f, code))
          || (mv.ReportExit? && r.status == Running && mv.f.loads && code == ExitCode(mv.report)))
    case RepairFailed(code) =>
      || (mv == Outside(e) && (r.status == Decided || r.status == Repairing))
      || (!mv.Outside? && LosesRepair(r, mv, code) && !mv.f.faulty(e))
    case DecisionRecovered(d, stop) =>
      Recovers(r, mv) && d == r.pinned.verdict.canonical && stop == r.pinned.verdict.safeStop && !mv.f.faulty(e)
    case AuditFailed(code) => Audits(r, mv) && Objects(r, mv.f, code) && !mv.f.faulty(e)
    case AuditOpened => mv == Outside(e) && SubmitLost(r) && r.audit == NoAudit
    case Rebound => mv == Outside(e) && r.status == Repairing
    case Completed => mv == Outside(e) && r.status == RecoveryReviewed
    case CallEnded => false
  }

  lemma RequestedIff(r: Row, f: Facts, e: Event)
    requires Checks(r) && r.status == Requested && f.loads && !e.CallEnded?
    ensures e in LaunchSpec(r, f).events <==> Cause(r, Reconcile(f), e)
  {
  }

  lemma AuthorizedIff(r: Row, f: Facts, e: Event)
    requires Checks(r) && r.status == Authorized && f.loads && !e.CallEnded?
    ensures e in PrepareSpec(r, f).events <==> Cause(r, Reconcile(f), e)
  {
    if Prepares(r, Reconcile(f)) && f.preparedReloads {
      var r' := Apply(r, InputPrepared);
      RequestedIff(r', f, e);
      RefusedAlike(r, r', f, e);
    }
  }

  /** Behind its preparation an attempt is launched or refused like a requested one. */
  lemma RefusedAlike(r: Row, r': Row, f: Facts, e: Event)
    requires r.status == Authorized && r'.status == Requested
    requires Prepares(r, Reconcile(f)) && f.preparedReloads
    ensures Cause(r, Reconcile(f), e) <==> e.InputPrepared? || Cause(r', Reconcile(f), e)
  {
  }

  lemma RunningIff(r: Row, mv: Move, e: Event)
    requires Checks(r) && r.status == Running && !e.CallEnded?
    ensures e in Calls(r, mv) <==> Cause(r, mv, e)
  {
  }

  lemma DecidedIff(r: Row, f: Facts, e: Event)
    requires Checks(r) && r.status == Decided && f.loads && !e.CallEnded?
    ensures e in RepairSpec(r, f).events <==> Cause(r, Reconcile(f), e)
  {
  }

  lemma ObjectionIff(r: Row, f: Facts, code: Code)
    requires Checks(r)
    ensures Objection(r, f) == code && code != "" <==> Objects(r, f, code)
    ensures Objection(r, f) == "" <==> Inspectable(r, f) && f.artifact.Pinned? && r.pinned.Accepted?
  {
  }

  lemma FailedIff(r: Row, f: Facts, e: Event)
    requires Checks(r) && r.status == Failed && f.loads && !e.CallEnded?
    ensures e in RecoverSpec(r, f).events <==> Cause(r, Reconcile(f), e)
  {
    ObjectionIff(r, f, if e.AuditFailed? then e.code else "");
  }

  lemma QuietIff(r: Row, mv: Move, e: Event)
    requires Checks(r) && r.status != Running && !e.CallEnded?
    requires !mv.Reconcile? || !mv.f.loads || (r.status !in {Authorized, Requested, Decided, Failed})
    ensures e in Calls(r, mv) <==> Cause(r, mv, e)
  {
  }

  /** One call leaves exactly the entries it has cause for. */
  lemma CallsIff(r: Row, mv: Move, e: Event)
    requires Checks(r) && !e.CallEnded?
    ensures e in Calls(r, mv) <==> Cause(r, mv, e)
  {
    if r.status == Running {
      RunningIff(r, mv, e);
    } else if !mv.Reconcile? || !mv.f.loads {
      QuietIff(r, mv, e);
    } else {
      match r.status
      case Authorized => AuthorizedIff(r, mv.f, e);
      case Requested => RequestedIff(r, mv.f, e);
      case Decided => DecidedIff(r, mv.f, e);
      case Failed => FailedIff(r, mv.f, e);
      case _ => QuietIff(r, mv, e);
    }
  }

  lemma CallsAreExplained()
    ensures Explains(TABLE, Calls, Cause)
  {
    forall r: Row, mv: Move, e: Event | Checks(r) && e != CallEnded
      ensures e in Calls(r, mv) <==> Cause(r, mv, e)
    {
      CallsIff(r, mv, e);
    }
  }

  /** Over every run, crashes included, each entry was left by a call with cause for it,
      and where no call dies early every cause has its entry. */
  lemma EntriesHaveCauses(r: Row, run: Run, e: Event)
    requires Checks(r) && !e.CallEnded?
    ensures e in Entries(r, run) ==> exists k | 0 <= k < |run| :: Cause(Last(r, run[..k]), run[k].move, e)
    ensures Uncut(TABLE, Calls, r, run) ==>
      (e in Entries(r, run) <==> exists k | 0 <= k < |run| :: Cause(Last(r, run[..k]), run[k].move, e))
  {
    TableIsSound();
    CallsAreProper();
    CallsAreExplained();
    RunsAreExplained(TABLE, Calls, Cause, r, run, e);
  }

  /** The evidence an effect or a decision may not go without, whatever the row. */
  predicate Backed(mv: Move, e: Event) {
    match e
    case ProcessLaunched => mv.Reconcile? && mv.f.launcher && mv.f.exact && mv.f.preflight
    case DecisionRecorded(_, _, _) => (mv.Submit? || mv.Reconcile?) && mv.f.exact
    case WorkerWoken => mv.Reconcile? && mv.f.waker && mv.f.exact && mv.f.policy
    case DecisionRecovered(_, _) =>
      mv.Reconcile? && mv.f.auditExact && mv.f.exact && mv.f.alive.Dead? && mv.f.artifact.Pinned?
    case _ => true
  }

  lemma CauseIsBacked(r: Row, mv: Move, e: Event)
    requires Cause(r, mv, e)
    ensures Backed(mv, e)
  {
  }

  /** So over every run a worker is only woken by a startup with a waker that has just
      revalidated the attempt and its policy, a process only launched behind launcher,
      revalidation and preflight, a decision only recorded behind revalidation, and only
      recovered once the old process is gone and the file is the pinned one. */
  lemma NothingWithoutEvidence(r: Row, run: Run, e: Event)
    requires Checks(r) && e in Entries(r, run) && !e.CallEnded?
    ensures exists k | 0 <= k < |run| :: Backed(run[k].move, e)
  {
    EntriesHaveCauses(r, run, e);
    var k :| 0 <= k < |run| && Cause(Last(r, run[..k]), run[k].move, e);
    CauseIsBacked(Last(r, run[..k]), run[k].move, e);
  }

  // ----- What a call returns

  predicate Errs(r: Row, mv: Move) {
    match mv
    case Reconcile(f) => ReconcileSpec(r, f).failed
    case Submit(parsed, f) => SubmitSpec(r, parsed, f).failed
    case ReportExit(report, f) => ExitSpec(r, report, f).failed
    case Outside(_) => false
  }

  predicate LaunchSettles(r: Row, mv: Move) {
    && Asks(r, mv)
    && if mv.f.launcher then Launches(r, mv) && mv.f.launches else !mv.f.faulty(PreflightRejected("launcher_unavailable"))
  }

  predicate RunningSettles(r: Row, mv: Move) {
    && Finds(r, mv, Running)
    && (|| Records(r, mv)
        || (!mv.f.launcher && !mv.f.faulty(CallFailed("launcher_unavailable")))
        || (mv.f.launcher && mv.f.resultPath && mv.f.result.Absent?
            && (mv.f.alive.Alive? || (mv.f.alive.Dead? && !mv.f.faulty(CallFailed("missing_result"))))))
  }

  predicate RepairSettles(r: Row, mv: Move) {
    && Finds(r, mv, Decided)
    && if mv.f.waker then Wakes(r, mv) && mv.f.wakes else !mv.f.faulty(RepairFailed("repair_waker_unavailable"))
  }

  predicate AuditSettles(r: Row, mv: Move) {
    && Finds(r, mv, Failed) && mv.f.auditLoads
    && match r.audit
       case NoAudit => !mv.f.knownInput || r.error != "submit_failed" || r.calls != 1
       case Pending => Recovers(r, mv) && !mv.f.faulty(Recovering(r.pinned.verdict))
       case Applied | Rejected => true
  }

  /** When a call returns no error. */
  predicate Settles(r: Row, mv: Move) {
    match mv
    case Outside(_) => true
    case ReportExit(report, f) => f.loads && (r.status == Running ==> !f.faulty(CallFailed(ExitCode(report))))
    case Submit(parsed, f) =>
      && f.loads && parsed.Accepted?
      && if r.status == Running then Records(r, mv) else r.decision == parsed.verdict.canonical
    case Reconcile(f) =>
      && f.loads
      && (|| LaunchSettles(r, mv) || RunningSettles(r, mv) || RepairSettles(r, mv) || AuditSettles(r, mv)
          || r.status !in {Authorized, Requested, Running, Decided, Failed})
  }

  lemma StartErrsIff(r: Row, f: Facts)
    requires Checks(r) && r.status in {Authorized, Requested} && f.loads
    ensures Errs(r, Reconcile(f)) <==> !LaunchSettles(r, Reconcile(f))
  {
  }

  lemma RunningErrsIff(r: Row, mv: Move)
    requires Checks(r) && r.status == Running && !mv.Outside? && mv.f.loads
    ensures Errs(r, mv) <==> !Settles(r, mv)
  {
  }

  lemma LateErrsIff(r: Row, f: Facts)
    requires Checks(r) && r.status in {Decided, Failed} && f.loads
    ensures Errs(r, Reconcile(f)) <==> !RepairSettles(r, Reconcile(f)) && !AuditSettles(r, Reconcile(f))
  {
    ObjectionIff(r, f, "");
  }

  /** A call returns an error exactly when it could not do, or could not record, what
      its row and its answers ask for. */
  lemma ErrsIff(r: Row, mv: Move)
    requires Checks(r)
    ensures Errs(r, mv) <==> !Settles(r, mv)
  {
    if !mv.Outside? && mv.f.loads {
      if r.status == Running {
        RunningErrsIff(r, mv);
      } else if mv.Reconcile? && r.status in {Authorized, Requested} {
        StartErrsIff(r, mv.f);
      } else if mv.Reconcile? && r.status in {Decided, Failed} {
        LateErrsIff(r, mv.f);
      }
    }
  }

  /** An advance that may not wake is an advance that leaves a decided attempt alone, and
      otherwise the same in every entry and in what it returns. */
  lemma AllowanceIff(r: Row, f: Facts, allowWake: bool, e: Event)
    requires Checks(r) && f.loads && !e.CallEnded?
    ensures var o := AdvanceSpec(r, f, allowWake);
      && (e in o.events <==> Cause(r, Reconcile(f), e) && (r.status == Decided ==> allowWake))
      && (o.failed <==> Errs(r, Reconcile(f)) && (r.status == Decided ==> allowWake))
  {
    CallsIff(r, Reconcile(f), e);
  }

  // ----- The row says why

  /** The row's verdict on itself is in the journal. */
  ghost predicate Told(r: Row, es: seq<Event>) {
    && (r.status == Failed ==> CallFailed(r.error) in es || RepairFailed(r.error) in es)
    && (r.status == PreflightFailed ==> PreflightRejected(r.error) in es)
    && (r.status == SafeStopped ==>
          exists e | e in es :: e.DecisionRecorded? && e.safeStop && e.decision == r.decision && e.code == r.error)
    && (r.status == Decided ==>
          exists e | e in es :: Assigns(e) && e.decision == r.decision && (e.DecisionRecovered? ==> r.error == ""))
    && (r.status == Running ==> CallStarted in es)
    && (r.status == Repairing ==> RepairConsumed in es)
    && (r.status == RecoveryReviewed ==> Rebound in es)
    && (r.status == Succeeded ==> Completed in es && r.error == "")
    && (r.error != "" ==> exists e | e in es :: Says(e, r.error))
    && (r.audit == Applied ==> exists e | e in es :: e.DecisionRecovered?)
    && (r.audit == Rejected ==> exists e | e in es :: e.AuditFailed?)
  }

  predicate Says(e: Event, code: Code) {
    (e.PreflightRejected? || e.DecisionRecorded? || e.CallFailed? || e.RepairFailed?) && e.code == code
  }

  lemma ToldOnce(r: Row, es: seq<Event>, e: Event)
    requires Told(r, es)
    ensures Told(Apply(r, e), es + [e])
  {
    assert forall x | x in es :: x in es + [e];
    assert e in es + [e];
  }

  lemma ToldIsKept()
    ensures Kept(TABLE, Told)
  {
    forall r: Row, es: seq<Event>, e: Event | Told(r, es)
      ensures Told(Apply(r, e), es + [e])
    {
      ToldOnce(r, es, e);
    }
  }

  /** Wherever a run from a fresh authorization leaves the row, the status, the error
      code and the decision it shows are those of an entry of the journal. */
  lemma RowTellsWhy(pinned: Parsed, run: Run)
    ensures Told(Last(Fresh(pinned), run), Entries(Fresh(pinned), run))
  {
    TableIsSound();
    CallsAreProper();
    RunsAreLegal(TABLE, Calls, Fresh(pinned), run);
    ToldIsKept();
    ReplayKeeps(TABLE, Told, Fresh(pinned), Entries(Fresh(pinned), run));
  }
}
