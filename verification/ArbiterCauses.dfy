/** What has to be the case for each journal entry of the release arbiter, read off the
    row a call finds and the answers it gets, entry by entry instead of branch by
    branch. */
module ArbiterCauses {
  import opened FencedEffect
  import opened Journal
  import opened Options
  import opened ArbiterProtocol
  import opened Arbiter
  import opened ArbiterRuns

  /** The verdict a call brings to a running incident: submitted live, or found in the
      result file. */
  function Brought(mv: Move): Option<Verdict> {
    match mv
    case Submit(Accepted(v), f) => if f.loads then Some(v) else None
    case Reconcile(f) => if f.launcher && f.resultPath && f.result.Holds? then Some(f.result.verdict) else None
    case _ => None
  }

  predicate Brings(r: Row, mv: Move) {
    r.status == Running && Brought(mv).Some?
  }

  predicate Launches(r: Row, mv: Move) {
    && mv.Reconcile? && r.status == Requested && r.leased
    && mv.f.launcher && mv.f.exact && mv.f.preflight && !mv.f.faulty(CallStarted)
  }

  predicate Records(r: Row, mv: Move) {
    Brings(r, mv) && r.leased && mv.f.exact && !mv.f.faulty(Recording(Brought(mv).value))
  }

  /** The call finds the incident decided, or decides it itself and reads it back. */
  predicate Repairs(r: Row, mv: Move) {
    || (mv.Reconcile? && r.status == Decided)
    || (Records(r, mv) && !Brought(mv).value.safeStop && mv.f.reloads)
  }

  predicate Wakes(r: Row, mv: Move) {
    Repairs(r, mv) && r.leased && mv.f.waker && !mv.f.faulty(RepairConsumed)
  }

  /** Why a requested incident is refused its call. */
  predicate Refuses(f: Facts, code: Code) {
    || (code == "launcher_unavailable" && !f.launcher)
    || (code == "identity_drift" && f.launcher && !f.exact)
    || (code == "preflight_failed" && f.launcher && f.exact && !f.preflight)
  }

  /** Why a startup gives up a running incident, other than for its decision. */
  predicate GivesUp(f: Facts, code: Code) {
    || (code == "launcher_unavailable" && !f.launcher)
    || (code == "malformed_result" && f.launcher && f.resultPath && f.result.Malformed?)
    || (code == "missing_result" && f.launcher && f.resultPath && f.result.Absent? && f.alive.Dead?)
  }

  predicate Cause(r: Row, mv: Move, e: Event) {
    match e
    case CallStarted | ProcessLaunched => Launches(r, mv)
    case PreflightRejected(code) =>
      mv.Reconcile? && r.status == Requested && Refuses(mv.f, code) && !mv.f.faulty(e)
    case DecisionRecorded(d, stop, code) =>
      && Records(r, mv)
      && var v := Brought(mv).value; d == v.canonical && stop == v.safeStop && code == if stop then v.code else ""
    case RepairConsumed | WorkerWoken => Wakes(r, mv)
    case CallFailed(code) =>
      && !mv.Outside? && !mv.f.faulty(e)
      && (|| (Launches(r, mv) && !mv.f.launches && code == "launch_failed")
          || (Brings(r, mv) && !mv.f.exact && code == "identity_drift")
          || (mv.Reconcile? && r.status == Running && GivesUp(mv.f, code))
          || (mv.ReportExit? && r.status == Running && mv.f.loads && code == ExitCode(mv.report)))
    case RepairFailed(code) =>
      || (mv == Outside(e) && (r.status == Decided || r.status == Repairing))
      || (&& !mv.Outside? && Repairs(r, mv) && !mv.f.faulty(e)
          && (|| (code == "repair_waker_unavailable" && !mv.f.waker)
              || (code == "repair_launch_failed" && Wakes(r, mv) && !mv.f.wakes)))
    case Rebound => mv == Outside(e) && r.status == Repairing && r.leased
    case Completed => mv == Outside(e) && r.status == RecoveryReviewed
    case AdmissionMoved => mv == Outside(e) && r.leased
    case CallEnded => false
  }

  lemma LaunchIff(r: Row, f: Facts, e: Event)
    requires Checks(r) && r.status == Requested && !e.CallEnded?
    ensures e in Calls(r, Reconcile(f)) <==> Cause(r, Reconcile(f), e)
  {
  }

  lemma RepairIff(r: Row, f: Facts, e: Event)
    requires Checks(r) && r.status == Decided && !e.CallEnded?
    ensures e in Calls(r, Reconcile(f)) <==> Cause(r, Reconcile(f), e)
  {
  }

  lemma DecidedIff(r: Row, mv: Move, e: Event)
    requires Checks(r) && Brings(r, mv) && !e.CallEnded?
    requires Records(r, mv) && !Brought(mv).value.safeStop && mv.f.reloads
    ensures e in PersistSpec(r, Brought(mv).value, mv.f).events <==> Cause(r, mv, e)
  {
    var r' := Apply(r, Recording(Brought(mv).value));
    RepairIff(r', mv.f, e);
    assert Calls(r', Reconcile(mv.f)) == RepairSpec(r', mv.f).events;
  }

  lemma PersistIff(r: Row, mv: Move, e: Event)
    requires Checks(r) && Brings(r, mv) && !e.CallEnded?
    ensures e in PersistSpec(r, Brought(mv).value, mv.f).events <==> Cause(r, mv, e)
  {
    if Records(r, mv) && !Brought(mv).value.safeStop && mv.f.reloads {
      DecidedIff(r, mv, e);
    }
  }

  lemma BroughtIsPersisted(r: Row, mv: Move)
    requires Brings(r, mv)
    ensures Calls(r, mv) == PersistSpec(r, Brought(mv).value, mv.f).events
  {
  }

  lemma InspectIff(r: Row, mv: Move, e: Event)
    requires Checks(r) && r.status == Running && !Brings(r, mv) && !mv.Outside? && !e.CallEnded?
    ensures e in Calls(r, mv) <==> Cause(r, mv, e)
  {
  }

  lemma QuietIff(r: Row, mv: Move, e: Event)
    requires Checks(r) && !e.CallEnded?
    requires mv.Outside? || (r.status != Running && (!mv.Reconcile? || (r.status != Requested && r.status != Decided)))
    ensures e in Calls(r, mv) <==> Cause(r, mv, e)
  {
  }

  /** One call leaves exactly the entries it has cause for. */
  lemma CallsIff(r: Row, mv: Move, e: Event)
    requires Checks(r) && !e.CallEnded?
    ensures e in Calls(r, mv) <==> Cause(r, mv, e)
  {
    if mv.Outside? {
      QuietIff(r, mv, e);
    } else if Brings(r, mv) {
      PersistIff(r, mv, e);
      BroughtIsPersisted(r, mv);
    } else if r.status == Running {
      InspectIff(r, mv, e);
    } else if mv.Reconcile? && r.status == Requested {
      LaunchIff(r, mv.f, e);
    } else if mv.Reconcile? && r.status == Decided {
      RepairIff(r, mv.f, e);
    } else {
      QuietIff(r, mv, e);
    }
  }

  lemma CallsAreExplained()
    ensures Explains(TABLE, Calls, Cause)
  {
    forall r: Row, mv: Move, e: Event | Checks(r) && e != CallEnded
      ensures e in Calls(r, mv) <==> Cause(r, mv, e)
    {
      CallsIff(r, mv, e);
    }
  }

  /** Over every run, crashes included, each entry was left by a call with cause for it,
      and where no call dies early every cause has its entry. */
  lemma EntriesHaveCauses(r: Row, run: Run, e: Event)
    requires Checks(r) && !e.CallEnded?
    ensures e in Entries(r, run) ==> exists k | 0 <= k < |run| :: Cause(Last(r, run[..k]), run[k].move, e)
    ensures Uncut(TABLE, Calls, r, run) ==>
      (e in Entries(r, run) <==> exists k | 0 <= k < |run| :: Cause(Last(r, run[..k]), run[k].move, e))
  {
    TableIsSound();
    CallsAreProper();
    CallsAreExplained();
    RunsAreExplained(TABLE, Calls, Cause, r, run, e);
  }

  /** The evidence an effect or a decision may not go without, whatever the row. */
  predicate Backed(mv: Move, e: Event) {
    match e
    case ProcessLaunched => mv.Reconcile? && mv.f.launcher && mv.f.exact && mv.f.preflight
    case DecisionRecorded(_, _, _) => (mv.Submit? || mv.Reconcile?) && mv.f.exact
    case WorkerWoken => (mv.Submit? || mv.Reconcile?) && mv.f.waker
    case _ => true
  }

  lemma CauseIsBacked(r: Row, mv: Move, e: Event)
    requires Cause(r, mv, e)
    ensures Backed(mv, e)
  {
  }

  /** So over every run a process is only launched by a startup whose launcher, frozen
      evidence and preflight were in order, a decision only recorded on evidence
      revalidated by the same call, and a worker only woken through a waker. */
  lemma NothingWithoutEvidence(r: Row, run: Run, e: Event)
    requires Checks(r) && e in Entries(r, run) && !e.CallEnded?
    ensures exists k | 0 <= k < |run| :: Backed(run[k].move, e)
  {
    EntriesHaveCauses(r, run, e);
    var k :| 0 <= k < |run| && Cause(Last(r, run[..k]), run[k].move, e);
    CauseIsBacked(Last(r, run[..k]), run[k].move, e);
  }

  // ----- What a call returns

  predicate Errs(r: Row, mv: Move) {
    match mv
    case Reconcile(f) => AdvanceSpec(r, f).failed
    case Submit(parsed, f) => SubmitSpec(r, parsed, f).failed
    case ReportExit(report, f) => ExitSpec(r, report, f).failed
    case Outside(_) => false
  }

  /** A repair that went through, or could only be given up and was. */
  predicate RepairSettles(r: Row, mv: Move)
    requires !mv.Outside?
  {
    && Repairs(r, mv)
    && if mv.f.waker then Wakes(r, mv) && mv.f.wakes else !mv.f.faulty(RepairFailed("repair_waker_unavailable"))
  }

  predicate DecisionSettles(r: Row, mv: Move)
    requires !mv.Outside?
  {
    Records(r, mv) && (Brought(mv).value.safeStop || RepairSettles(r, mv))
  }

  /** When a call returns no error. */
  predicate Settles(r: Row, mv: Move) {
    match mv
    case Outside(_) => true
    case ReportExit(report, f) => f.loads && (r.status == Running ==> !f.faulty(CallFailed(ExitCode(report))))
    case Submit(parsed, f) =>
      && f.loads && parsed.Accepted?
      && if r.status == Running then DecisionSettles(r, mv) else r.decision == parsed.verdict.canonical
    case Reconcile(f) =>
      match r.status
      case Requested =>
        if f.launcher then Launches(r, mv) && f.launches else !f.faulty(PreflightRejected("launcher_unavailable"))
      case Decided => RepairSettles(r, mv)
      case Running =>
        || (!f.launcher && !f.faulty(CallFailed("launcher_unavailable")))
        || DecisionSettles(r, mv)
        || (f.launcher && f.resultPath && f.result.Absent?
            && (f.alive.Alive? || (f.alive.Dead? && !f.faulty(CallFailed("missing_result")))))
      case _ => true
  }

  lemma PersistErrsIff(r: Row, mv: Move)
    requires Checks(r) && Brings(r, mv)
    ensures PersistSpec(r, Brought(mv).value, mv.f).failed <==> !DecisionSettles(r, mv)
  {
  }

  /** A call returns an error exactly when it could not do, or could not record, what
      its row and its answers ask for. */
  lemma ErrsIff(r: Row, mv: Move)
    requires Checks(r)
    ensures Errs(r, mv) <==> !Settles(r, mv)
  {
    if Brings(r, mv) {
      PersistErrsIff(r, mv);
    }
  }

  // ----- A live model is waited for

  /** A startup that finds no result and a live process. */
  predicate FindsAlive(f: Facts) {
    f.launcher && f.resultPath && f.result.Absent? && f.alive.Alive?
  }

  lemma LiveModelIsLeftAlone(r: Row, f: Facts)
    requires Checks(r) && r.status == Running && FindsAlive(f)
    ensures Calls(r, Reconcile(f)) == [] && !Errs(r, Reconcile(f))
  {
  }

  /** With store calls that succeed, a startup changes a running incident if and only if
      there is no launcher to ask, or the result is malformed, or it holds a decision
      that is refused for drift or still has its lease, or result and process are
      both gone. */
  lemma RunningChangesIff(r: Row, f: Facts)
    requires Checks(r) && r.status == Running && forall e :: !f.faulty(e)
    ensures Replay(TABLE, r, Calls(r, Reconcile(f))) != r <==>
      !f.launcher
      || (f.resultPath && (|| f.result.Malformed?
                           || (f.result.Holds? && (r.leased || !f.exact))
                           || (f.result.Absent? && f.alive.Dead?)))
  {
    var es := Calls(r, Reconcile(f));
    if es != [] {
      CallIsProper(r, Reconcile(f));
      StepIsSound(r, es[0]);
      StatusNeverRises(Apply(r, es[0]), es[1..]);
    }
  }

  predicate AllFindAlive(run: Run) {
    forall k | 0 <= k < |run| :: run[k].move.Reconcile? && FindsAlive(run[k].move.f)
  }

  lemma {:induction false} LiveModelSurvives(r: Row, run: Run)
    requires Checks(r) && r.status == Running && AllFindAlive(run)
    ensures Last(r, run) == r && forall e | e in Entries(r, run) :: e.CallEnded?
    decreases run
  {
    if run != [] {
      LiveModelIsLeftAlone(r, run[0].move.f);
      assert Surviving(Calls, r, run[0]) == [];
      LiveModelSurvives(r, run[1..]);
    }
  }

  /** However many startups find the model alive, the decision it then submits is the
      first thing recorded. */
  lemma LiveModelStillDecides(r: Row, run: Run, v: Verdict, f: Facts)
    requires Checks(r) && r.status == Running && r.leased && AllFindAlive(run)
    requires f.loads && f.exact && forall e :: !f.faulty(e)
    ensures var es := Calls(Last(r, run), Submit(Accepted(v), f));
      && es != [] && es[0].DecisionRecorded? && es[0].decision == v.canonical && es[0].safeStop == v.safeStop
      && Replay(TABLE, r, es).decision == v.canonical
  {
    LiveModelSurvives(r, run);
    var es := Calls(r, Submit(Accepted(v), f));
    CallIsProper(r, Submit(Accepted(v), f));
    DecisionsFillABlank();
    WrittenOnce(TABLE, DecisionOf, Decides, Apply(r, es[0]), es[1..]);
  }

  // ----- The row says why

  /** The row's verdict on itself is in the journal. */
  ghost predicate Told(r: Row, es: seq<Event>) {
    && (r.status == Failed ==> CallFailed(r.error) in es || RepairFailed(r.error) in es)
    && (r.status == PreflightFailed ==> PreflightRejected(r.error) in es)
    && (r.status == SafeStopped ==>
          exists e | e in es :: e.DecisionRecorded? && e.safeStop && e.decision == r.decision && e.code == r.error)
    && (r.status == Decided ==> exists e | e in es :: Assigns(e) && e.decision == r.decision)
    && (r.status == Running ==> CallStarted in es)
    && (r.status == Repairing ==> RepairConsumed in es)
    && (r.status == RecoveryReviewed ==> Rebound in es)
    && (r.status == Succeeded ==> Completed in es && r.error == "")
    && (r.error != "" ==> exists e | e in es :: Says(e, r.error))
    && (r.leased <==> Rebound !in es && AdmissionMoved !in es)
  }

  predicate Says(e: Event, code: Code) {
    (e.PreflightRejected? || e.DecisionRecorded? || e.CallFailed? || e.RepairFailed?) && e.code == code
  }

  lemma ToldOnce(r: Row, es: seq<Event>, e: Event)
    requires Told(r, es)
    ensures Told(Apply(r, e), es + [e])
  {
    assert forall x | x in es :: x in es + [e];
    assert e in es + [e];
  }

  lemma ToldIsKept()
    ensures Kept(TABLE, Told)
  {
    forall r: Row, es: seq<Event>, e: Event | Told(r, es)
      ensures Told(Apply(r, e), es + [e])
    {
      ToldOnce(r, es, e);
    }
  }

  /** Wherever a run from an opened incident leaves the row, the status, the error code
      and the decision it shows are those of an entry of the journal. */
  lemma RowTellsWhy(run: Run)
    ensures Told(Last(OPENED, run), Entries(OPENED, run))
  {
    TableIsSound();
    CallsAreProper();
    RunsAreLegal(TABLE, Calls, OPENED, run);
    ToldIsKept();
    ReplayKeeps(TABLE, Told, OPENED, Entries(OPENED, run));
  }
}
