/** What has to be the case for each journal entry of the cold-start recovery, entry by
    entry instead of branch by branch. */
module ColdStartCauses {
  import opened FencedEffect
  import opened Journal
  import opened RecoveryReview
  import opened ColdStart
  import opened ColdStartRuns

  /** A startup that reads its row and finds it with this status. */
  predicate Finds(r: Row, mv: Move, s: Status) {
    mv.Reconcile? && mv.f.loads && r.status == s
  }

  /** No review and no error on record. */
  predicate Untried(r: Row) {
    r.reviews == 0 && r.reviewRun == "" && r.error == ""
  }

  predicate Seals(r: Row, mv: Move) {
    && Finds(r, mv, Authorized) && r.actions == 0 && r.reviews == 0 && r.backup == "" && r.error == ""
    && mv.f.executor && mv.f.predecessor && mv.f.provider && mv.f.backup.Sealed?
    && !mv.f.faulty(BackupPersisted(mv.f.backup.seal))
  }

  /** The backup is on record, or gets there in this call and is read back. */
  predicate BackedBy(r: Row, mv: Move) {
    Finds(r, mv, BackedUp) || (Seals(r, mv) && mv.f.backupReloads)
  }

  predicate Fences(r: Row, mv: Move) {
    BackedBy(r, mv) && r.actions == 0 && r.head == "" && Untried(r) && !mv.f.faulty(ActionStarted)
  }

  predicate Acts(r: Row, mv: Move) {
    Fences(r, mv) && mv.f.fenceReloads && mv.f.executor
  }

  /** A startup that finds the action begun by an earlier call and has it inspected. */
  predicate Inspects(r: Row, mv: Move) {
    Finds(r, mv, Running) && mv.f.executor
  }

  /** What the action came to: as executed by this call, or as inspected. */
  predicate Comes(r: Row, mv: Move, result: Result) {
    (Acts(r, mv) && mv.f.executed == result) || (Inspects(r, mv) && mv.f.inspected == result)
  }

  predicate Completes(r: Row, mv: Move, head: Sha) {
    && Comes(r, mv, Produced(head)) && mv.f.outcome
    && r.head == "" && Untried(r) && head != r.oldHead && !mv.f.faulty(ActionCompleted(head))
  }

  /** The candidate is ready, or becomes so in this call and is read back. */
  predicate Hands(r: Row, mv: Move) {
    || Finds(r, mv, CandidateReady)
    || (mv.Reconcile? && mv.f.readyReloads
        && (|| (Acts(r, mv) && mv.f.executed.Produced? && Completes(r, mv, mv.f.executed.head))
            || (Inspects(r, mv) && mv.f.inspected.Produced? && Completes(r, mv, mv.f.inspected.head))))
  }

  /** Why the recovery fails before anything is rewritten. */
  predicate Refuses(r: Row, mv: Move, code: string) {
    && Finds(r, mv, Authorized)
    && (|| (code == "executor_unavailable" && !mv.f.executor)
        || (code == "identity_drift" && mv.f.executor && !mv.f.predecessor)
        || (code == "provider_identity_drift" && mv.f.executor && mv.f.predecessor && !mv.f.provider)
        || (code == "preflight_or_backup_failed" && mv.f.executor && mv.f.predecessor && mv.f.provider && mv.f.backup.NoBackup?))
  }

  /** Why it fails once the action has begun. */
  predicate Fails(r: Row, mv: Move, code: string) {
    || (code == "executor_unavailable" && Finds(r, mv, Running) && !mv.f.executor)
    || (code == "model_free_action_failed" && Acts(r, mv) && mv.f.executed.Broken?)
    || (code == "incomplete_action" && Inspects(r, mv) && mv.f.inspected.Broken?)
    || (code == "provider_identity_drift" && Acts(r, mv) && mv.f.executed.Produced? && !mv.f.outcome)
    || (code == "provider_identity_drift" && Inspects(r, mv) && mv.f.inspected.Produced? && !mv.f.outcome)
  }

  /** The row's own review, still open. */
  predicate UnderReview(r: Row, run: string, target: string) {
    r.status == ReviewRunning && r.reviewRun == run && r.head == target
  }

  /** Why the recovery's own review fails. */
  predicate FailsReview(r: Row, mv: Move, run: string, target: string, code: string) {
    && UnderReview(r, run, target)
    && (|| (mv.HandleReview? && mv.f.loads && mv.review.id == run && mv.review.target == target && Rejects(mv.review, code))
        || (mv.TryRebind? && mv.f.loads && mv.run == run && mv.target == target && Disqualifies(mv.v, code)))
  }

  /** A head is ready, and no review has been tried. */
  predicate AwaitsReview(r: Row, target: string) {
    r.status == CandidateReady && r.head == target && r.reviews == 0 && r.reviewRun == "" && r.error == ""
  }

  predicate AwaitsMerge(r: Row, run: string, target: string) {
    r.status == RecoveryReviewed && r.reviewRun == run && r.head == target && r.error == ""
  }

  predicate Cause(r: Row, mv: Move, e: Event) {
    match e
    case BackupPersisted(seal) => Seals(r, mv) && mv.f.backup == Sealed(seal)
    case ActionStarted => Fences(r, mv)
    case ActionExecuted => Acts(r, mv)
    case ActionCompleted(head) => Completes(r, mv, head)
    case ReviewTriggered => Hands(r, mv) && mv.f.trigger
    case RecoveryFailed(code) =>
      !mv.Outside? && Untried(r) && (Refuses(r, mv, code) || Fails(r, mv, code)) && !mv.f.faulty(e)
    case ReviewFailed(run, target, code) =>
      || (mv == Outside(e) && UnderReview(r, run, target) && r.error == "")
      || (!mv.Outside? && FailsReview(r, mv, run, target, code) && r.error == "" && !mv.f.faulty(e))
    case Rebound(run, target) =>
      && mv.TryRebind? && mv.f.loads && mv.run == run && mv.target == target
      && UnderReview(r, run, target) && r.error == "" && Qualifies(mv.v) && !mv.f.faulty(e)
    case ReviewFenced(run, target) => mv == Outside(e) && AwaitsReview(r, target) && run != ""
    case Completed(run, target) => mv == Outside(e) && AwaitsMerge(r, run, target)
    case MergeFailed(run, target, _) => mv == Outside(e) && AwaitsMerge(r, run, target)
    case CallEnded => false
  }

  /** What a fenced row's result leaves behind. */
  predicate Settled(r: Row, result: Result, code: string, f: Facts, e: Event) {
    match e
    case ActionCompleted(head) => result == Produced(head) && f.outcome && head != r.oldHead && !f.faulty(e)
    case RecoveryFailed(c) =>
      && (if result.Broken? then c == code else !f.outcome && c == "provider_identity_drift")
      && !f.faulty(e)
    case ReviewTriggered =>
      && result.Produced? && f.outcome && result.head != r.oldHead && !f.faulty(ActionCompleted(result.head))
      && f.readyReloads && f.trigger
    case _ => false
  }

  lemma SettledIff(r: Row, result: Result, code: string, f: Facts, e: Event)
    requires r.status == Running && r.actions == 1 && r.head == "" && Untried(r)
    ensures e in SettleSpec(r, result, code, f).events <==> Settled(r, result, code, f, e)
  {
  }

  lemma ActedIff(r: Row, f: Facts, e: Event)
    requires Checks(r) && r.status == BackedUp && Acts(r, Reconcile(f)) && !e.CallEnded?
    ensures Cause(r, Reconcile(f), e) <==>
      e.ActionStarted? || e.ActionExecuted? || Settled(r, f.executed, "model_free_action_failed", f, e)
  {
  }

  lemma BackedUpIff(r: Row, f: Facts, e: Event)
    requires Checks(r) && r.status == BackedUp && f.loads && !e.CallEnded?
    ensures e in ActSpec(r, f).events <==> Cause(r, Reconcile(f), e)
  {
    if Acts(r, Reconcile(f)) {
      ActedIff(r, f, e);
      SettledIff(Apply(r, ActionStarted), f.executed, "model_free_action_failed", f, e);
    }
  }

  /** Behind its seal a row is acted on like a backed-up one. */
  lemma ActedAlike(r: Row, r': Row, f: Facts, e: Event)
    requires Seals(r, Reconcile(f)) && f.backupReloads && r' == Apply(r, BackupPersisted(f.backup.seal))
    ensures Cause(r, Reconcile(f), e) <==> e == BackupPersisted(f.backup.seal) || Cause(r', Reconcile(f), e)
  {
  }

  lemma AuthorizedIff(r: Row, f: Facts, e: Event)
    requires Checks(r) && r.status == Authorized && f.loads && !e.CallEnded?
    ensures e in SealSpec(r, f).events <==> Cause(r, Reconcile(f), e)
  {
    if Seals(r, Reconcile(f)) && f.backupReloads {
      var r' := Apply(r, BackupPersisted(f.backup.seal));
      BackedUpIff(r', f, e);
      ActedAlike(r, r', f, e);
    }
  }

  lemma RunningIff(r: Row, f: Facts, e: Event)
    requires Checks(r) && r.status == Running && f.loads && !e.CallEnded?
    ensures e in InspectSpec(r, f).events <==> Cause(r, Reconcile(f), e)
  {
  }

  lemma ReviewIff(r: Row, mv: Move, e: Event)
    requires Checks(r) && mv.HandleReview? && !e.CallEnded?
    ensures e in Calls(r, mv) <==> Cause(r, mv, e)
  {
    RunIff(mv.review, if e.ReviewFailed? then e.code else "");
  }

  lemma RebindIff(r: Row, mv: Move, e: Event)
    requires Checks(r) && mv.TryRebind? && !e.CallEnded?
    ensures e in Calls(r, mv) <==> Cause(r, mv, e)
  {
    CandidateIff(mv.v, if e.ReviewFailed? then e.code else "");
  }

  lemma QuietIff(r: Row, mv: Move, e: Event)
    requires Checks(r) && !mv.HandleReview? && !mv.TryRebind? && !e.CallEnded?
    requires !mv.Reconcile? || !mv.f.loads || r.status !in {Authorized, BackedUp, Running}
    ensures e in Calls(r, mv) <==> Cause(r, mv, e)
  {
  }

  /** One call leaves exactly the entries it has cause for. */
  lemma CallsIff(r: Row, mv: Move, e: Event)
    requires Checks(r) && !e.CallEnded?
    ensures e in Calls(r, mv) <==> Cause(r, mv, e)
  {
    if mv.HandleReview? {
      ReviewIff(r, mv, e);
    } else if mv.TryRebind? {
      RebindIff(r, mv, e);
    } else if mv.Reconcile? && mv.f.loads && r.status == Authorized {
      AuthorizedIff(r, mv.f, e);
    } else if mv.Reconcile? && mv.f.loads && r.status == BackedUp {
      BackedUpIff(r, mv.f, e);
    } else if mv.Reconcile? && mv.f.loads && r.status == Running {
      RunningIff(r, mv.f, e);
    } else {
      QuietIff(r, mv, e);
    }
  }

  lemma CallsAreExplained()
    ensures Explains(TABLE, Calls, Cause)
  {
    forall r: Row, mv: Move, e: Event | Checks(r) && e != CallEnded
      ensures e in Calls(r, mv) <==> Cause(r, mv, e)
    {
      CallsIff(r, mv, e);
    }
  }

  /** Over every run, crashes included, each entry was left by a call with cause for it,
      and where no call dies early every cause has its entry. */
  lemma EntriesHaveCauses(r: Row, run: Run, e: Event)
    requires Checks(r) && !e.CallEnded?
    ensures e in Entries(r, run) ==> exists k | 0 <= k < |run| :: Cause(Last(r, run[..k]), run[k].move, e)
    ensures Uncut(TABLE, Calls, r, run) ==>
      (e in Entries(r, run) <==> exists k | 0 <= k < |run| :: Cause(Last(r, run[..k]), run[k].move, e))
  {
    TableIsSound();
    CallsAreProper();
    CallsAreExplained();
    RunsAreExplained(TABLE, Calls, Cause, r, run, e);
  }

  /** The evidence a seal, a rewrite, a candidate or a rebind may not go without, whatever
      the row. */
  predicate Backed(mv: Move, e: Event) {
    match e
    case BackupPersisted(_) => mv.Reconcile? && mv.f.executor && mv.f.predecessor && mv.f.provider
    case ActionExecuted => mv.Reconcile? && mv.f.executor && mv.f.fenceReloads
    case ActionCompleted(head) =>
      mv.Reconcile? && mv.f.outcome && (mv.f.executed == Produced(head) || mv.f.inspected == Produced(head))
    case Rebound(run, target) => mv.TryRebind? && mv.run == run && mv.target == target && Qualifies(mv.v)
    case _ => true
  }

  lemma CauseIsBacked(r: Row, mv: Move, e: Event)
    requires Cause(r, mv, e)
    ensures Backed(mv, e)
  {
  }

  /** So over every run a backup is only sealed behind predecessor and provider checks, a
      branch only rewritten by an executor on a fence read back, a candidate only the
      head that was produced and confirmed, and an admission only rebound on evidence
      that is all in order. */
  lemma NothingWithoutEvidence(r: Row, run: Run, e: Event)
    requires Checks(r) && e in Entries(r, run) && !e.CallEnded?
    ensures exists k | 0 <= k < |run| :: Backed(run[k].move, e)
  {
    EntriesHaveCauses(r, run, e);
    var k :| 0 <= k < |run| && Cause(Last(r, run[..k]), run[k].move, e);
    CauseIsBacked(Last(r, run[..k]), run[k].move, e);
  }

  /** On its own open review, with store calls that succeed, a candidate is rebound if and
      only if it qualifies, failed exactly for a finding that disqualifies it, and
      otherwise the row is left alone. */
  lemma CandidateIsRuled(r: Row, run: string, target: string, v: Evidence, f: Facts, code: string)
    requires Checks(r) && UnderReview(r, run, target) && r.error == "" && f.loads && forall e :: !f.faulty(e)
    ensures var es := Calls(r, TryRebind(run, target, v, f));
      && (Rebound(run, target) in es <==> Qualifies(v))
      && (ReviewFailed(run, target, code) in es <==> Disqualifies(v, code))
      && (es == [] <==> !Qualifies(v) && forall c :: !Disqualifies(v, c))
  {
    CandidateIff(v, code);
    if RuleOnCandidate(v).Fail? {
      CandidateIff(v, RuleOnCandidate(v).code);
    }
  }

  // ----- What a call returns

  /** A panicking call returns nothing at all; see `Panics`. */
  predicate Errs(r: Row, mv: Move) {
    match mv
    case Reconcile(f) => ReconcileSpec(r, f).failed
    case HandleReview(review, f) => ReviewSpec(r, review, f).failed
    case TryRebind(run, target, v, f) => RebindSpec(r, run, target, v, f).failed
    case Outside(_) => false
  }

  predicate ReviewSettles(run: Review, f: Facts) {
    && (!run.completed ==> !f.faulty(ReviewFailed(run.id, run.target, "review_result_malformed")))
    && (run.completed && !run.approved ==> !f.faulty(ReviewFailed(run.id, run.target, "review_changes_requested")))
    && (run.completed && run.approved ==> f.enrols)
  }

  predicate RebindSettles(r: Row, run: string, target: string, v: Evidence, f: Facts) {
    if Qualifies(v) then r.actions == 1 && r.reviews == 1 && r.error == "" && !f.faulty(Rebound(run, target))
    else
      && !Troubles(v)
      && (v.drifted ==> !f.faulty(ReviewFailed(run, target, "review_provider_identity_drift")))
      && (!v.drifted && !v.waits && !v.merges ==> !f.faulty(ReviewFailed(run, target, "review_not_mergeable")))
  }

  /** When a call returns no error: the only way for a startup to end well short of the
      review is to trigger it. */
  predicate Settles(r: Row, mv: Move) {
    match mv
    case Outside(_) => true
    case Reconcile(f) =>
      && f.loads
      && (StatusRank(r.status) < StatusRank(CandidateReady) || (Cause(r, mv, ReviewTriggered) && f.triggers))
    case HandleReview(review, f) => f.loads && (UnderReview(r, review.id, review.target) ==> ReviewSettles(review, f))
    case TryRebind(run, target, v, f) =>
      f.loads && (UnderReview(r, run, target) ==> RebindSettles(r, run, target, v, f))
  }

  lemma StartupErrsIff(r: Row, f: Facts)
    requires Checks(r) && f.loads
    ensures Errs(r, Reconcile(f)) <==> !Settles(r, Reconcile(f))
  {
    if r.status == Authorized && f.backup.Sealed? {
      ActErrsIff(Apply(r, BackupPersisted(f.backup.seal)), f);
    } else if r.status == BackedUp {
      ActErrsIff(r, f);
    }
  }

  lemma ActErrsIff(r: Row, f: Facts)
    requires r.status == BackedUp && r.backup != "" && f.loads
    ensures ActSpec(r, f).failed <==> !Settles(r, Reconcile(f))
  {
  }

  lemma ReviewErrsIff(r: Row, mv: Move)
    requires Checks(r) && (mv.HandleReview? || mv.TryRebind?)
    ensures Errs(r, mv) <==> !Settles(r, mv)
  {
    if mv.HandleReview? {
      RunIff(mv.review, "");
    } else {
      CandidateIff(mv.v, "");
    }
  }

  /** A call returns an error exactly when it could not do, or could not record, what
      its row and its answers ask for. */
  lemma ErrsIff(r: Row, mv: Move)
    requires Checks(r)
    ensures Errs(r, mv) <==> !Settles(r, mv)
  {
    if mv.HandleReview? || mv.TryRebind? {
      ReviewErrsIff(r, mv);
    } else if mv.Reconcile? && mv.f.loads {
      StartupErrsIff(r, mv.f);
    }
  }

  /** A call panics exactly when it wins the fence, reads the fenced row back and has no
      executor to call. */
  lemma PanicsIff(r: Row, f: Facts)
    requires Checks(r)
    ensures Panics(r, f) <==> ActionStarted in Calls(r, Reconcile(f)) && f.fenceReloads && !f.executor
  {
    CallsIff(r, Reconcile(f), ActionStarted);
  }

  // ----- The row says why

  /** The row's verdict on itself is in the journal. */
  ghost predicate Told(r: Row, es: seq<Event>) {
    && (r.status == Failed ==> exists e | e in es :: FailsWith(e, r.error))
    && (r.backup != "" ==> exists e | e in es :: e.BackupPersisted? && e.seal == r.backup)
    && (r.status == Running ==> ActionStarted in es)
    && (r.head != "" ==> exists e | e in es :: e.ActionCompleted? && e.head == r.head)
    && (r.reviewRun != "" ==> exists e | e in es :: e.ReviewFenced? && e.run == r.reviewRun)
    && (r.status == RecoveryReviewed ==> exists e | e in es :: e.Rebound?)
    && (r.error != "" ==> exists e | e in es :: FailsWith(e, r.error))
  }

  predicate FailsWith(e: Event, code: string) {
    (e.RecoveryFailed? || e.ReviewFailed? || e.MergeFailed?) && e.code == code
  }

  lemma ToldOnce(r: Row, es: seq<Event>, e: Event)
    requires Told(r, es)
    ensures Told(Apply(r, e), es + [e])
  {
    assert forall x | x in es :: x in es + [e];
    assert e in es + [e];
  }

  lemma ToldIsKept()
    ensures Kept(TABLE, Told)
  {
    forall r: Row, es: seq<Event>, e: Event | Told(r, es)
      ensures Told(Apply(r, e), es + [e])
    {
      ToldOnce(r, es, e);
    }
  }

  /** Wherever a run from an authorized row that records nothing yet leaves it, the
      status, the error code, the seal, the head and the review it shows are those of an
      entry of the journal. */
  lemma RowTellsWhy(r: Row, run: Run)
    requires Checks(r) && r.status == Authorized && r.backup == "" && r.head == "" && Untried(r)
    ensures Told(Last(r, run), Entries(r, run))
  {
    TableIsSound();
    RunIsLegal(r, run);
    ToldIsKept();
    ReplayKeeps(TABLE, Told, r, Entries(r, run));
  }

  // ----- Whose review it is

  ghost predicate Has(es: seq<Event>, p: Event -> bool) {
    exists e | e in es :: p(e)
  }

  predicate Closes(e: Event) { e.ReviewFailed? || e.Rebound? }

  predicate FailsLate(e: Event) { e.ReviewFailed? || e.MergeFailed? }

  /** The review on the row is the one that was fenced, open until it fails or is
      rebound, and the row's late failure is the journal's. */
  ghost predicate Chronicles(r: Row, es: seq<Event>) {
    && (forall run, target :: ReviewFenced(run, target) in es <==> run != "" && r.reviewRun == run && r.head == target)
    && (r.status == ReviewRunning ==> r.reviewRun != "")
    && (r.reviewRun != "" ==> r.status in {ReviewRunning, RecoveryReviewed, Succeeded, Failed})
    && (r.reviewRun != "" ==> (r.status == ReviewRunning <==> !Has(es, Closes)))
    && (r.reviewRun == "" ==> !Has(es, Closes) && !Has(es, FailsLate))
    && (r.reviewRun != "" ==> (r.status == Failed <==> Has(es, FailsLate)))
    && (forall e | e in es && FailsLate(e) :: e.code == r.error)
  }

  lemma HasMore(es: seq<Event>, e: Event, p: Event -> bool)
    ensures Has(es + [e], p) <==> Has(es, p) || p(e)
  {
    if p(e) {
      assert e in es + [e];
    }
    if x :| x in es && p(x) {
      assert x in es + [e];
    }
  }

  lemma ChronicleStep(r: Row, es: seq<Event>, e: Event)
    requires Checks(r) && Guard(r, e) && Chronicles(r, es)
    ensures Chronicles(Apply(r, e), es + [e])
  {
    HasMore(es, e, Closes);
    HasMore(es, e, FailsLate);
    assert forall x :: x in es + [e] <==> x in es || x == e;
  }

  lemma ChroniclesAreKept()
    ensures Kept(TABLE, Chronicles)
  {
    forall r: Row, es: seq<Event>, e: Event | Checks(r) && Guard(r, e) && Chronicles(r, es)
      ensures Chronicles(Apply(r, e), es + [e])
    {
      ChronicleStep(r, es, e);
    }
  }

  /** Over every run from an authorized row: a finished review is claimed exactly if it is
      the one the run fenced for its head, and that review is still open or the row has
      failed since. */
  lemma ClaimedIff(r: Row, moves: Run, run: string, target: string)
    requires Checks(r) && r.status == Authorized && r.head == "" && Untried(r) && run != ""
    ensures var es := Entries(r, moves);
      Concerns(Last(r, moves), run, target) <==>
        ReviewFenced(run, target) in es && (!Has(es, Closes) || Has(es, FailsLate))
  {
    TableIsSound();
    RunIsLegal(r, moves);
    ChroniclesAreKept();
    ReplayKeeps(TABLE, Chronicles, r, Entries(r, moves));
  }
}
