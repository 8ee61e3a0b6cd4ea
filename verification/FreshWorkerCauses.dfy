/** What has to be the case for each journal entry of the fresh-worker recovery, entry
    by entry instead of branch by branch. */
module FreshWorkerCauses {
  import opened FencedEffect
  import opened Journal
  import opened ArbiterProtocol
  import opened RecoveryReview
  import opened FreshWorker
  import opened FreshWorkerRuns

  /** A startup that reads its row and finds it with this status. */
  predicate Finds(r: Row, mv: Move, s: Status) {
    mv.Reconcile? && mv.f.loads && r.status == s
  }

  /** No head, no review and no error on record. */
  predicate Untouched(r: Row) {
    r.head == "" && r.reviews == 0 && r.reviewRun == "" && r.error == ""
  }

  predicate Pristine(r: Row) {
    r.calls == 0 && Untouched(r)
  }

  predicate Prepares(r: Row, mv: Move) {
    Finds(r, mv, Authorized) && Pristine(r) && mv.f.predecessor && mv.f.derives && !mv.f.faulty(InputPrepared)
  }

  /** The worker is requested, or becomes so in this call and is read back. */
  predicate Asks(r: Row, mv: Move) {
    Finds(r, mv, Requested) || (Prepares(r, mv) && mv.f.preparedReloads)
  }

  predicate Fences(r: Row, mv: Move) {
    && Asks(r, mv) && Pristine(r)
    && mv.f.launcher && mv.f.exact && mv.f.preflight && !mv.f.faulty(CallStarted)
  }

  predicate Launches(r: Row, mv: Move) {
    Fences(r, mv) && mv.f.fenceReloads
  }

  /** Why the recovery is refused its call. */
  predicate Refuses(r: Row, mv: Move, code: string) {
    || (code == "identity_drift" && Finds(r, mv, Authorized) && !mv.f.predecessor)
    || (code == "input_derivation_failed" && Finds(r, mv, Authorized) && mv.f.predecessor && !mv.f.derives)
    || (code == "launcher_unavailable" && Asks(r, mv) && !mv.f.launcher)
    || (code == "identity_drift" && Asks(r, mv) && mv.f.launcher && !mv.f.exact)
    || (code == "preflight_failed" && Asks(r, mv) && mv.f.launcher && mv.f.exact && !mv.f.preflight)
  }

  /** A live exit report on a running recovery. */
  predicate Reports(r: Row, mv: Move) {
    mv.ProcessExit? && mv.f.loads && r.status == Running
  }

  /** The worker exited well, or left its result behind; what it did is examined. */
  predicate Examines(r: Row, mv: Move) {
    || (Reports(r, mv) && mv.started && mv.exitCode == 0)
    || (Finds(r, mv, Running) && mv.f.result.Present?)
  }

  /** Why a running recovery fails. */
  predicate Fails(r: Row, mv: Move, code: string) {
    || (code == "worker_process_failed" && Reports(r, mv) && !(mv.started && mv.exitCode == 0))
    || (Examines(r, mv) && mv.f.proof.Objection? && code == mv.f.proof.code)
    || (code == "launcher_unavailable" && Finds(r, mv, Running) && mv.f.result.Missing? && !mv.f.launcher)
    || (code == "missing_result" && Finds(r, mv, Running) && mv.f.result.Missing? && mv.f.launcher && mv.f.alive.Dead?)
  }

  /** The row's own review, still open. */
  predicate UnderReview(r: Row, run: string, target: string) {
    r.status == ReviewRunning && r.reviewRun == run && r.head == target
  }

  /** Why the recovery's own review fails. */
  predicate FailsReview(r: Row, mv: Move, run: string, target: string, code: string) {
    && UnderReview(r, run, target)
    && (|| (mv.HandleReview? && mv.f.loads && mv.review.id == run && mv.review.target == target && Rejects(mv.review, code))
        || (mv.TryRebind? && mv.f.loads && mv.run == run && mv.target == target && Disqualifies(mv.v, code)))
  }

  /** A head is ready, and no review has been tried. */
  predicate AwaitsReview(r: Row, target: string) {
    r.status == WorkerSucceeded && r.head == target && r.reviews == 0 && r.reviewRun == "" && r.error == ""
  }

  predicate AwaitsMerge(r: Row, run: string, target: string) {
    r.status == RecoveryReviewed && r.reviewRun == run && r.head == target && r.error == ""
  }

  predicate Cause(r: Row, mv: Move, e: Event) {
    match e
    case InputPrepared => Prepares(r, mv)
    case CallStarted => Fences(r, mv)
    case WorkerLaunched => Launches(r, mv)
    case PreflightRejected(code) => Pristine(r) && Refuses(r, mv, code) && !mv.f.faulty(e)
    case CallCompleted(head) =>
      && Examines(r, mv) && Untouched(r)
      && mv.f.proof == Proven(head) && head != r.oldHead && !mv.f.faulty(e)
    case CallFailed(code) =>
      && !mv.Outside? && !mv.f.faulty(e) && Untouched(r)
      && ((Launches(r, mv) && !mv.f.launches && code == "launch_failed") || Fails(r, mv, code))
    case ReviewFailed(run, target, code) =>
      || (mv == Outside(e) && UnderReview(r, run, target) && r.error == "")
      || (!mv.Outside? && FailsReview(r, mv, run, target, code) && r.error == "" && !mv.f.faulty(e))
    case Rebound(run, target) =>
      && mv.TryRebind? && mv.f.loads && mv.run == run && mv.target == target
      && UnderReview(r, run, target) && r.error == "" && Qualifies(mv.v) && !mv.f.faulty(e)
    case ReviewFenced(run, target) => mv == Outside(e) && AwaitsReview(r, target) && run != ""
    case Completed(run, target) => mv == Outside(e) && AwaitsMerge(r, run, target)
    case MergeFailed(run, target, _) => mv == Outside(e) && AwaitsMerge(r, run, target)
    case CallEnded => false
  }

  lemma RequestedIff(r: Row, f: Facts, e: Event)
    requires Checks(r) && r.status == Requested && f.loads && !e.CallEnded?
    ensures e in LaunchSpec(r, f).events <==> Cause(r, Reconcile(f), e)
  {
  }

  /** Behind its preparation a worker is launched or refused like a requested one. */
  lemma RefusedAlike(r: Row, r': Row, f: Facts, e: Event)
    requires r.status == Authorized && r' == Apply(r, InputPrepared)
    requires Prepares(r, Reconcile(f)) && f.preparedReloads
    ensures Cause(r, Reconcile(f), e) <==> e.InputPrepared? || Cause(r', Reconcile(f), e)
  {
  }

  lemma AuthorizedIff(r: Row, f: Facts, e: Event)
    requires Checks(r) && r.status == Authorized && f.loads && !e.CallEnded?
    ensures e in PrepareSpec(r, f).events <==> Cause(r, Reconcile(f), e)
  {
    if Prepares(r, Reconcile(f)) && f.preparedReloads {
      var r' := Apply(r, InputPrepared);
      RequestedIff(r', f, e);
      RefusedAlike(r, r', f, e);
    }
  }

  lemma RunningIff(r: Row, mv: Move, e: Event)
    requires Checks(r) && r.status == Running && !e.CallEnded?
    ensures e in Calls(r, mv) <==> Cause(r, mv, e)
  {
  }

  lemma ReviewIff(r: Row, mv: Move, e: Event)
    requires Checks(r) && mv.HandleReview? && !e.CallEnded?
    ensures e in Calls(r, mv) <==> Cause(r, mv, e)
  {
    RunIff(mv.review, if e.ReviewFailed? then e.code else "");
  }

  lemma RebindIff(r: Row, mv: Move, e: Event)
    requires Checks(r) && mv.TryRebind? && !e.CallEnded?
    ensures e in Calls(r, mv) <==> Cause(r, mv, e)
  {
    CandidateIff(mv.v, if e.ReviewFailed? then e.code else "");
  }

  lemma QuietIff(r: Row, mv: Move, e: Event)
    requires Checks(r) && r.status != Running && !mv.HandleReview? && !mv.TryRebind? && !e.CallEnded?
    requires !mv.Reconcile? || !mv.f.loads || r.status !in {Authorized, Requested}
    ensures e in Calls(r, mv) <==> Cause(r, mv, e)
  {
  }

  /** One call leaves exactly the entries it has cause for. */
  lemma CallsIff(r: Row, mv: Move, e: Event)
    requires Checks(r) && !e.CallEnded?
    ensures e in Calls(r, mv) <==> Cause(r, mv, e)
  {
    if mv.HandleReview? {
      ReviewIff(r, mv, e);
    } else if mv.TryRebind? {
      RebindIff(r, mv, e);
    } else if r.status == Running {
      RunningIff(r, mv, e);
    } else if mv.Reconcile? && mv.f.loads && r.status == Authorized {
      AuthorizedIff(r, mv.f, e);
    } else if mv.Reconcile? && mv.f.loads && r.status == Requested {
      RequestedIff(r, mv.f, e);
    } else {
      QuietIff(r, mv, e);
    }
  }

  lemma CallsAreExplained()
    ensures Explains(TABLE, Calls, Cause)
  {
    forall r: Row, mv: Move, e: Event | Checks(r) && e != CallEnded
      ensures e in Calls(r, mv) <==> Cause(r, mv, e)
    {
      CallsIff(r, mv, e);
    }
  }

  /** Over every run, crashes included, each entry was left by a call with cause for it,
      and where no call dies early every cause has its entry. */
  lemma EntriesHaveCauses(r: Row, run: Run, e: Event)
    requires Checks(r) && !e.CallEnded?
    ensures e in Entries(r, run) ==> exists k | 0 <= k < |run| :: Cause(Last(r, run[..k]), run[k].move, e)
    ensures Uncut(TABLE, Calls, r, run) ==>
      (e in Entries(r, run) <==> exists k | 0 <= k < |run| :: Cause(Last(r, run[..k]), run[k].move, e))
  {
    TableIsSound();
    CallsAreProper();
    CallsAreExplained();
    RunsAreExplained(TABLE, Calls, Cause, r, run, e);
  }

  /** The evidence a launch, a head or a rebind may not go without, whatever the row. */
  predicate Backed(mv: Move, e: Event) {
    match e
    case WorkerLaunched => mv.Reconcile? && mv.f.launcher && mv.f.exact && mv.f.preflight && mv.f.fenceReloads
    case CallCompleted(head) =>
      && (mv.ProcessExit? ==> mv.started && mv.exitCode == 0)
      && (mv.ProcessExit? || (mv.Reconcile? && mv.f.result.Present?)) && mv.f.proof == Proven(head)
    case Rebound(run, target) => mv.TryRebind? && mv.run == run && mv.target == target && Qualifies(mv.v)
    case _ => true
  }

  lemma CauseIsBacked(r: Row, mv: Move, e: Event)
    requires Cause(r, mv, e)
    ensures Backed(mv, e)
  {
  }

  /** So over every run the worker is only launched behind launcher, revalidation and
      preflight, a head only completed from a process that exited well and a proof of
      that very head, and an admission only rebound on evidence that is all in order. */
  lemma NothingWithoutEvidence(r: Row, run: Run, e: Event)
    requires Checks(r) && e in Entries(r, run) && !e.CallEnded?
    ensures exists k | 0 <= k < |run| :: Backed(run[k].move, e)
  {
    EntriesHaveCauses(r, run, e);
    var k :| 0 <= k < |run| && Cause(Last(r, run[..k]), run[k].move, e);
    CauseIsBacked(Last(r, run[..k]), run[k].move, e);
  }

  /** On its own open review, with store calls that succeed, a candidate is rebound if and
      only if it qualifies, failed exactly for a finding that disqualifies it, and
      otherwise the row is left alone. */
  lemma CandidateIsRuled(r: Row, run: string, target: string, v: Evidence, f: Facts, code: string)
    requires Checks(r) && UnderReview(r, run, target) && r.error == "" && f.loads && forall e :: !f.faulty(e)
    ensures var es := Calls(r, TryRebind(run, target, v, f));
      && (Rebound(run, target) in es <==> Qualifies(v))
      && (ReviewFailed(run, target, code) in es <==> Disqualifies(v, code))
      && (es == [] <==> !Qualifies(v) && forall c :: !Disqualifies(v, c))
  {
    CandidateIff(v, code);
    if RuleOnCandidate(v).Fail? {
      CandidateIff(v, RuleOnCandidate(v).code);
    }
  }

  // ----- What a call returns

  predicate Errs(r: Row, mv: Move) {
    match mv
    case Reconcile(f) => ReconcileSpec(r, f).failed
    case ProcessExit(started, exitCode, f) => ExitSpec(r, started, exitCode, f).failed
    case HandleReview(review, f) => ReviewSpec(r, review, f).failed
    case TryRebind(run, target, v, f) => RebindSpec(r, run, target, v, f).failed
    case Outside(_) => false
  }

  predicate LaunchSettles(r: Row, mv: Move) {
    && Asks(r, mv)
    && if mv.f.launcher then Launches(r, mv) && mv.f.launches else !mv.f.faulty(PreflightRejected("launcher_unavailable"))
  }

  /** A proof settles the call: the head it proves is on record, or it objects without an
      error of its own and the objection can be. */
  predicate ProofSettles(r: Row, mv: Move) {
    && Examines(r, mv)
    && match mv.f.proof
       case Proven(head) => Cause(r, mv, CallCompleted(head))
       case Objection(code, reported) => !reported && !mv.f.faulty(CallFailed(code))
  }

  predicate WaitSettles(r: Row, mv: Move) {
    && Finds(r, mv, Running) && mv.f.result.Missing?
    && if mv.f.launcher then mv.f.alive.Alive? || (mv.f.alive.Dead? && !mv.f.faulty(CallFailed("missing_result")))
       else !mv.f.faulty(CallFailed("launcher_unavailable"))
  }

  predicate ReviewSettles(run: Review, f: Facts) {
    && (!run.completed ==> !f.faulty(ReviewFailed(run.id, run.target, "review_result_malformed")))
    && (run.completed && !run.approved ==> !f.faulty(ReviewFailed(run.id, run.target, "review_changes_requested")))
    && (run.completed && run.approved ==> f.enrols)
  }

  predicate RebindSettles(r: Row, run: string, target: string, v: Evidence, f: Facts) {
    if Qualifies(v) then r.calls == 1 && r.reviews == 1 && r.error == "" && !f.faulty(Rebound(run, target))
    else
      && !Troubles(v)
      && (v.drifted ==> !f.faulty(ReviewFailed(run, target, "review_provider_identity_drift")))
      && (!v.drifted && !v.waits && !v.merges ==> !f.faulty(ReviewFailed(run, target, "review_not_mergeable")))
  }

  /** When a call returns no error. */
  predicate Settles(r: Row, mv: Move) {
    match mv
    case Outside(_) => true
    case Reconcile(f) =>
      && f.loads
      && (LaunchSettles(r, mv) || ProofSettles(r, mv) || WaitSettles(r, mv) || r.status !in {Authorized, Requested, Running})
    case ProcessExit(_, _, f) => f.loads && (r.status == Running ==> ProofSettles(r, mv))
    case HandleReview(review, f) => f.loads && (UnderReview(r, review.id, review.target) ==> ReviewSettles(review, f))
    case TryRebind(run, target, v, f) =>
      f.loads && (UnderReview(r, run, target) ==> RebindSettles(r, run, target, v, f))
  }

  lemma StartErrsIff(r: Row, f: Facts)
    requires Checks(r) && r.status in {Authorized, Requested} && f.loads
    ensures Errs(r, Reconcile(f)) <==> !LaunchSettles(r, Reconcile(f))
  {
  }

  lemma RunningErrsIff(r: Row, mv: Move)
    requires Checks(r) && r.status == Running && (mv.Reconcile? || mv.ProcessExit?)
    ensures Errs(r, mv) <==> !Settles(r, mv)
  {
  }

  lemma ReviewErrsIff(r: Row, mv: Move)
    requires Checks(r) && (mv.HandleReview? || mv.TryRebind?)
    ensures Errs(r, mv) <==> !Settles(r, mv)
  {
    if mv.HandleReview? {
      RunIff(mv.review, "");
    } else {
      CandidateIff(mv.v, "");
    }
  }

  /** A call returns an error exactly when it could not do, or could not record, what
      its row and its answers ask for. */
  lemma ErrsIff(r: Row, mv: Move)
    requires Checks(r)
    ensures Errs(r, mv) <==> !Settles(r, mv)
  {
    if mv.HandleReview? || mv.TryRebind? {
      ReviewErrsIff(r, mv);
    } else if !mv.Outside? && r.status == Running {
      RunningErrsIff(r, mv);
    } else if mv.Reconcile? && mv.f.loads && r.status in {Authorized, Requested} {
      StartErrsIff(r, mv.f);
    }
  }

  // ----- The row says why

  /** The row's verdict on itself is in the journal. */
  ghost predicate Told(r: Row, es: seq<Event>) {
    && (r.status == PreflightFailed ==> PreflightRejected(r.error) in es)
    && (r.status == Failed ==> exists e | e in es :: FailsWith(e, r.error))
    && (r.status == Requested ==> InputPrepared in es)
    && (r.status == Running ==> CallStarted in es)
    && (r.head != "" ==> exists e | e in es :: e.CallCompleted? && e.head == r.head)
    && (r.reviewRun != "" ==> exists e | e in es :: e.ReviewFenced? && e.run == r.reviewRun)
    && (r.status == RecoveryReviewed ==> exists e | e in es :: e.Rebound?)
    && (r.error != "" ==> exists e | e in es :: FailsWith(e, r.error) || e == PreflightRejected(r.error))
  }

  predicate FailsWith(e: Event, code: string) {
    (e.CallFailed? || e.ReviewFailed? || e.MergeFailed?) && e.code == code
  }

  lemma ToldOnce(r: Row, es: seq<Event>, e: Event)
    requires Told(r, es)
    ensures Told(Apply(r, e), es + [e])
  {
    assert forall x | x in es :: x in es + [e];
    assert e in es + [e];
  }

  lemma ToldIsKept()
    ensures Kept(TABLE, Told)
  {
    forall r: Row, es: seq<Event>, e: Event | Told(r, es)
      ensures Told(Apply(r, e), es + [e])
    {
      ToldOnce(r, es, e);
    }
  }

  /** Wherever a run from an authorized row that records nothing yet leaves it, the
      status, the error code, the head and the review it shows are those of an entry of
      the journal. */
  lemma RowTellsWhy(r: Row, run: Run)
    requires Checks(r) && r.status == Authorized && Blank(r)
    ensures Told(Last(r, run), Entries(r, run))
  {
    TableIsSound();
    RunIsLegal(r, run);
    ToldIsKept();
    ReplayKeeps(TABLE, Told, r, Entries(r, run));
  }

  // ----- Whose review it is

  ghost predicate Has(es: seq<Event>, p: Event -> bool) {
    exists e | e in es :: p(e)
  }

  predicate Closes(e: Event) { e.ReviewFailed? || e.Rebound? }

  predicate FailsLate(e: Event) { e.ReviewFailed? || e.MergeFailed? }

  /** The review on the row is the one that was fenced, open until it fails or is
      rebound, and the row's late failure is the journal's. */
  ghost predicate Chronicles(r: Row, es: seq<Event>) {
    && (forall run, target :: ReviewFenced(run, target) in es <==> run != "" && r.reviewRun == run && r.head == target)
    && (r.status == ReviewRunning ==> r.reviewRun != "")
    && (r.reviewRun != "" ==> r.status in {ReviewRunning, RecoveryReviewed, Succeeded, Failed})
    && (r.reviewRun != "" ==> (r.status == ReviewRunning <==> !Has(es, Closes)))
    && (r.reviewRun == "" ==> !Has(es, Closes) && !Has(es, FailsLate))
    && (r.reviewRun != "" ==> (r.status == Failed <==> Has(es, FailsLate)))
    && (forall e | e in es && FailsLate(e) :: e.code == r.error)
  }

  lemma HasMore(es: seq<Event>, e: Event, p: Event -> bool)
    ensures Has(es + [e], p) <==> Has(es, p) || p(e)
  {
    if p(e) {
      assert e in es + [e];
    }
    if x :| x in es && p(x) {
      assert x in es + [e];
    }
  }

  lemma ChronicleStep(r: Row, es: seq<Event>, e: Event)
    requires Checks(r) && Guard(r, e) && Chronicles(r, es)
    ensures Chronicles(Apply(r, e), es + [e])
  {
    HasMore(es, e, Closes);
    HasMore(es, e, FailsLate);
    assert forall x :: x in es + [e] <==> x in es || x == e;
  }

  lemma ChroniclesAreKept()
    ensures Kept(TABLE, Chronicles)
  {
    forall r: Row, es: seq<Event>, e: Event | Checks(r) && Guard(r, e) && Chronicles(r, es)
      ensures Chronicles(Apply(r, e), es + [e])
    {
      ChronicleStep(r, es, e);
    }
  }

  /** Over every run from an authorized row: a finished review is claimed exactly if it is
      the one the run fenced for its head, and that review is still open or the row failed
      for requested changes. */
  lemma ClaimedIff(r: Row, moves: Run, run: string, target: string)
    requires Checks(r) && r.status == Authorized && Untouched(r) && run != ""
    ensures var es := Entries(r, moves);
      Concerns(Last(r, moves), run, target) <==>
        && ReviewFenced(run, target) in es
        && (!Has(es, Closes) || Has(es, e => FailsLate(e) && e.code == "review_changes_requested"))
  {
    var es, r' := Entries(r, moves), Last(r, moves);
    TableIsSound();
    RunIsLegal(r, moves);
    ChroniclesAreKept();
    ReplayKeeps(TABLE, Chronicles, r, es);
    if r'.status == Failed && Has(es, FailsLate) {
      var e :| e in es && FailsLate(e);
      assert e.code == r'.error;
    }
  }
}
