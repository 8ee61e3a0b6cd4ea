/** Whole runs of the cold-start recovery, each call cut off after any number of
    journal entries. */
module ColdStartRuns {
  import opened FencedEffect
  import opened Journal
  import opened RecoveryReview
  import opened ColdStart

  datatype Move =
    | Reconcile(f: Facts)
    | HandleReview(review: Review, f: Facts)
    | TryRebind(run: string, target: string, v: Evidence, f: Facts)
    | Outside(e: Event)

  type Run = seq<Attempt<Move>>

  function Calls(r: Row, mv: Move): seq<Event> {
    match mv
    case Reconcile(f) => ReconcileSpec(r, f).events
    case HandleReview(review, f) => ReviewSpec(r, review, f).events
    case TryRebind(run, target, v, f) => RebindSpec(r, run, target, v, f).events
    case Outside(e) => if Elsewhere(e) && Guard(r, e) then [e] else []
  }

  /** Transitions made outside the engine's entry points: by the review store when a
      review starts or its reviewer fails, and by merging. */
  predicate Elsewhere(e: Event) {
    e.ReviewFenced? || e.ReviewFailed? || e.Completed? || e.MergeFailed?
  }

  function ActMark(e: Event): Mark {
    match e
    case ActionStarted => Fence
    case ActionExecuted => Fire
    case CallEnded => Boundary
    case _ => Other
  }

  function ReviewMark(e: Event): Mark {
    match e
    case ReviewFenced(_, _) => Fence
    case CallEnded => Boundary
    case _ => Other
  }

  predicate ActSpent(r: Row) { r.actions == 1 }

  predicate ReviewSpent(r: Row) { r.reviews == 1 }

  const ACT := Effect(ActMark, ActSpent)
  const REVIEW := Effect(ReviewMark, ReviewSpent)

  lemma SettleIsProper(r: Row, result: Result, code: string, f: Facts)
    ensures Legal(TABLE, r, SettleSpec(r, result, code, f).events)
    ensures forall e | e in SettleSpec(r, result, code, f).events :: !e.ActionExecuted?
  {
  }

  lemma ActIsProper(r: Row, f: Facts)
    ensures Legal(TABLE, r, ActSpec(r, f).events) && Adjacent(ACT, ActSpec(r, f).events)
  {
    if Commit(TABLE, r, ActionStarted, f.faulty) != [] && f.fenceReloads && f.executor {
      var r' := Apply(r, ActionStarted);
      var rest := SettleSpec(r', f.executed, "model_free_action_failed", f).events;
      SettleIsProper(r', f.executed, "model_free_action_failed", f);
      WonLegal(TABLE, r, ActionStarted, ActionExecuted, rest);
      WonAdjacent(ACT, ActionStarted, ActionExecuted, rest);
    }
  }

  lemma QuietIsAdjacent(es: seq<Event>)
    requires forall e | e in es :: !e.ActionExecuted?
    ensures Adjacent(ACT, es)
  {
  }

  lemma SealIsProper(r: Row, f: Facts)
    ensures Legal(TABLE, r, SealSpec(r, f).events) && Adjacent(ACT, SealSpec(r, f).events)
  {
    if f.backup.Sealed? {
      var e := BackupPersisted(f.backup.seal);
      var rest := ActSpec(Apply(r, e), f).events;
      ActIsProper(Apply(r, e), f);
      Append(TABLE, r, [e], rest);
      AdjacentAppend(ACT, [e], rest);
    }
  }

  lemma CallIsProper(r: Row, mv: Move)
    requires Checks(r)
    ensures Legal(TABLE, r, Calls(r, mv)) && Adjacent(ACT, Calls(r, mv))
  {
    if mv.Reconcile? {
      match r.status
      case Authorized => SealIsProper(r, mv.f);
      case BackedUp => ActIsProper(r, mv.f);
      case Running =>
        SettleIsProper(r, mv.f.inspected, "incomplete_action", mv.f);
        QuietIsAdjacent(Calls(r, mv));
      case _ =>
    }
  }

  lemma StepIsSound(r: Row, e: Event)
    requires Checks(r) && Guard(r, e)
    ensures Checks(Apply(r, e)) && Rank(Apply(r, e)) + (if Durable(e) then 1 else 0) <= Rank(r)
    ensures ActMark(e) == Fence ==> !ActSpent(r)
    ensures ReviewMark(e) == Fence ==> !ReviewSpent(r)
    ensures ActSpent(Apply(r, e)) <==> ActSpent(r) || ActMark(e) == Fence
    ensures ReviewSpent(Apply(r, e)) <==> ReviewSpent(r) || ReviewMark(e) == Fence
  {
  }

  lemma TableIsSound()
    ensures Sound(TABLE) && Fenced(TABLE, ACT) && Fenced(TABLE, REVIEW)
  {
    forall r: Row, e: Event | TABLE.checks(r) && TABLE.guard(r, e)
      ensures TABLE.checks(TABLE.apply(r, e))
      ensures TABLE.rank(TABLE.apply(r, e)) + (if TABLE.durable(e) then 1 else 0) <= TABLE.rank(r)
      ensures ACT.mark(e) == Fence ==> !ACT.spent(r)
      ensures REVIEW.mark(e) == Fence ==> !REVIEW.spent(r)
      ensures ACT.spent(TABLE.apply(r, e)) <==> ACT.spent(r) || ACT.mark(e) == Fence
      ensures REVIEW.spent(TABLE.apply(r, e)) <==> REVIEW.spent(r) || REVIEW.mark(e) == Fence
    {
      StepIsSound(r, e);
    }
  }

  lemma CallsAreProper()
    ensures Orderly(TABLE, Calls) && Prompt(TABLE, Calls, ACT) && Prompt(TABLE, Calls, REVIEW)
  {
    forall r: Row, mv: Move | Checks(r)
      ensures Legal(TABLE, r, Calls(r, mv)) && Adjacent(ACT, Calls(r, mv))
    {
      CallIsProper(r, mv);
    }
    forall r: Row, mv: Move | Checks(r)
      ensures Adjacent(REVIEW, Calls(r, mv))
    {
      forall i | 0 <= i < |Calls(r, mv)|
        ensures FencedAt(REVIEW, Calls(r, mv), i)
      {
      }
    }
  }

  function Entries(r: Row, run: Run): seq<Event> {
    Log(TABLE, Calls, r, run)
  }

  function Last(r: Row, run: Run): Row {
    Final(TABLE, Calls, r, run)
  }

  /** From any row, over every run with crashes anywhere, the branch is rewritten and
      pushed at most once, directly behind its own fence and never again once the
      fence is durable, and at most one review is ever fenced. */
  lemma EffectsFireOnce(r: Row, run: Run)
    requires Checks(r)
    ensures Fires(Marks(ACT, Entries(r, run))) <= if r.actions == 1 then 0 else 1
    ensures r.actions == 0 ==> Disciplined(Marks(ACT, Entries(r, run)))
    ensures r.reviews == 0 ==> Disciplined(Marks(REVIEW, Entries(r, run)))
  {
    TableIsSound();
    CallsAreProper();
    RunsRefineTheFence(TABLE, Calls, ACT, r, run);
    RunsRefineTheFence(TABLE, Calls, REVIEW, r, run);
  }

  lemma RunIsLegal(r: Row, run: Run)
    requires Checks(r)
    ensures Legal(TABLE, r, Entries(r, run)) && Replay(TABLE, r, Entries(r, run)) == Last(r, run)
    ensures Checks(Last(r, run))
    ensures Updates(TABLE, Entries(r, run)) + Rank(Last(r, run)) <= Rank(r)
  {
    TableIsSound();
    CallsAreProper();
    RunsAreLegal(TABLE, Calls, r, run);
  }

  /** No run breaks a CHECK constraint, and all its updates together are bounded. */
  lemma WorkIsBounded(r: Row, run: Run)
    requires Checks(r)
    ensures Checks(Last(r, run)) && Updates(TABLE, Entries(r, run)) + Rank(Last(r, run)) <= Rank(r) <= 6
  {
    RunIsLegal(r, run);
  }

  lemma {:induction false} LegalKeepsHistory(r: Row, es: seq<Event>)
    requires Legal(TABLE, r, es) && Checks(r)
    ensures r.head != "" ==> Replay(TABLE, r, es).head == r.head
    ensures r.backup != "" ==> Replay(TABLE, r, es).backup == r.backup
    decreases es
  {
    if es != [] {
      StepIsSound(r, es[0]);
      LegalKeepsHistory(Apply(r, es[0]), es[1..]);
    }
  }

  /** A persisted seal and a completed head are never replaced. */
  lemma HistoryIsKept(r: Row, run: Run)
    requires Checks(r)
    ensures r.head != "" ==> Last(r, run).head == r.head
    ensures r.backup != "" ==> Last(r, run).backup == r.backup
  {
    RunIsLegal(r, run);
    LegalKeepsHistory(r, Entries(r, run));
  }

  lemma {:induction false} StartedOnlyIfSealed(r: Row, es: seq<Event>, j: nat)
    requires Legal(TABLE, r, es) && r.backup == ""
    requires j < |es| && es[j].ActionStarted?
    ensures exists i | 0 <= i < j :: es[i].BackupPersisted?
    decreases es
  {
    if !es[0].BackupPersisted? {
      StartedOnlyIfSealed(Apply(r, es[0]), es[1..], j - 1);
      var i :| 0 <= i < j - 1 && es[1..][i].BackupPersisted?;
      assert es[i + 1] == es[1..][i];
    }
  }

  /** Nothing is rewritten or pushed before a sealed backup is on record. */
  lemma ActionFollowsBackup(r: Row, run: Run, j: nat)
    requires Checks(r) && r.actions == 0 && r.backup == ""
    requires j < |Entries(r, run)| && Entries(r, run)[j].ActionExecuted?
    ensures exists i | 0 <= i < j :: Entries(r, run)[i].BackupPersisted?
  {
    var marks := Marks(ACT, Entries(r, run));
    EffectsFireOnce(r, run);
    assert marks[j] == Fire;
    assert marks[j - 1] == Fence;
    RunIsLegal(r, run);
    StartedOnlyIfSealed(r, Entries(r, run), j - 1);
  }

  /** Terminal rows absorb every run. */
  lemma TerminalAbsorbs(r: Row, run: Run)
    requires Checks(r) && StatusRank(r.status) == 0
    ensures Last(r, run) == r && forall e | e in Entries(r, run) :: e.CallEnded?
  {
    QuietRowsAbsorb(TABLE, Calls, r, run);
  }

  lemma {:induction false} FencedRowRuns(r: Row, es: seq<Event>)
    requires Checks(r) && Legal(TABLE, r, es) && ActionStarted in es
    requires forall e | e in es :: e.BackupPersisted? || e.ActionStarted? || e.ActionExecuted?
    ensures Replay(TABLE, r, es).status == Running && Guard(Replay(TABLE, r, es), RecoveryFailed("incomplete_action"))
    ensures Replay(TABLE, r, es).head == "" && Replay(TABLE, r, es).actions == 1
    ensures Replay(TABLE, r, es).oldHead == r.oldHead
    decreases es
  {
    var r' := Apply(r, es[0]);
    StepIsSound(r, es[0]);
    if es[0].ActionStarted? {
      StaysRunning(r', es[1..]);
    } else {
      FencedRowRuns(r', es[1..]);
    }
  }

  lemma {:induction false} StaysRunning(r: Row, es: seq<Event>)
    requires r.status == Running && Legal(TABLE, r, es)
    requires forall e | e in es :: e.BackupPersisted? || e.ActionStarted? || e.ActionExecuted?
    ensures Replay(TABLE, r, es) == r
    decreases es
  {
    if es != [] {
      StaysRunning(r, es[1..]);
    }
  }

  lemma InspectionSettles(r: Row, g: Facts)
    requires r.status == Running && r.actions == 1 && r.head == "" && Unreviewed(r)
    requires g.loads && g.executor && g.readyReloads && g.trigger && forall e :: !g.faulty(e)
    requires g.inspected.Produced? ==> g.inspected.head != r.oldHead
    ensures Calls(r, Reconcile(g)) ==
      if g.inspected.Broken? then [RecoveryFailed("incomplete_action")]
      else if !g.outcome then [RecoveryFailed("provider_identity_drift")]
      else [ActionCompleted(g.inspected.head), ReviewTriggered]
  {
  }

  /** A call that dies anywhere from its fence up to the settlement of its action is
      never repeated: the next startup only inspects, and either completes the row
      with the head it finds or fails it. */
  lemma CrashIsInspected(r: Row, dying: Attempt<Move>, es: seq<Event>, g: Facts)
    requires Checks(r) && es == Surviving(Calls, r, dying) && ActionStarted in es
    requires forall e | e in es :: e.BackupPersisted? || e.ActionStarted? || e.ActionExecuted?
    requires g.loads && g.executor && g.readyReloads && g.trigger && forall e :: !g.faulty(e)
    requires g.inspected.Produced? ==> g.inspected.head != r.oldHead
    ensures Entries(r, [dying, Attempt(Reconcile(g), 9)]) == es + [CallEnded]
      + (if g.inspected.Broken? then [RecoveryFailed("incomplete_action")]
         else if !g.outcome then [RecoveryFailed("provider_identity_drift")]
         else [ActionCompleted(g.inspected.head), ReviewTriggered])
      + [CallEnded]
  {
    TableIsSound();
    CallsAreProper();
    SurvivingLegal(TABLE, Calls, r, dying);
    FencedRowRuns(r, es);
    InspectionSettles(Replay(TABLE, r, es), g);
    TwoAttempts(TABLE, Calls, r, dying, Attempt(Reconcile(g), 9));
  }

  // ----- A fence without an executor

  /** A backed-up row is fenced whether or not there is an executor to call: without
      one that startup spends the one action and panics, and the next startup without
      one records the failure. */
  lemma MissingExecutorBurnsTheFence(r: Row, f: Facts)
    requires Guard(r, ActionStarted) && f.loads && f.fenceReloads && !f.executor && forall e :: !f.faulty(e)
    ensures Panics(r, f)
    ensures Entries(r, [Attempt(Reconcile(f), 9), Attempt(Reconcile(f), 9)])
         == [ActionStarted] + [CallEnded] + [RecoveryFailed("executor_unavailable")] + [CallEnded]
  {
    var a := Attempt(Reconcile(f), 9);
    assert Surviving(Calls, r, a) == [ActionStarted];
    assert Replay(TABLE, r, [ActionStarted]) == Apply(r, ActionStarted);
    assert Surviving(Calls, Apply(r, ActionStarted), a) == [RecoveryFailed("executor_unavailable")];
    TwoAttempts(TABLE, Calls, r, a, a);
  }

  /** A call acts exactly when it wins the fence, can read the fenced row back, and has
      an executor. */
  lemma CallActsIff(r: Row, mv: Move)
    ensures ActionExecuted in Calls(r, mv) <==>
            ActionStarted in Calls(r, mv) && mv.Reconcile? && mv.f.fenceReloads && mv.f.executor
  {
    if mv.Reconcile? {
      var f := mv.f;
      if r.status == Authorized && f.backup.Sealed? {
        ActActsIff(Apply(r, BackupPersisted(f.backup.seal)), f);
      } else if r.status == BackedUp {
        ActActsIff(r, f);
      } else if r.status == Running {
        SettleIsProper(r, f.inspected, "incomplete_action", f);
      }
    }
  }

  /** So a row ready for its fence is acted on exactly when there is an executor. */
  lemma ReadyRowActsIff(r: Row, f: Facts)
    requires Guard(r, ActionStarted) && f.loads && f.fenceReloads && forall e :: !f.faulty(e)
    ensures ActionStarted in Calls(r, Reconcile(f))
    ensures ActionExecuted in Calls(r, Reconcile(f)) <==> f.executor
    ensures Panics(r, f) <==> !f.executor
  {
    CallActsIff(r, Reconcile(f));
    assert Calls(r, Reconcile(f))[0] == ActionStarted;
  }

  lemma ActActsIff(r: Row, f: Facts)
    ensures ActionExecuted in ActSpec(r, f).events <==>
            ActionStarted in ActSpec(r, f).events && f.fenceReloads && f.executor
  {
    SettleIsProper(Apply(r, ActionStarted), f.executed, "model_free_action_failed", f);
  }

  /** Every call that wins the fence is left to finish and can read the row back. */
  predicate FencingCallsFinish(r: Row, run: Run)
    decreases run
  {
    run == []
    || (var es := Surviving(Calls, r, run[0]);
        && (ActionStarted in es ==> run[0].cut >= |Calls(r, run[0].move)| && run[0].move.Reconcile? && run[0].move.f.fenceReloads)
        && FencingCallsFinish(Replay(TABLE, r, es), run[1..]))
  }

  /** Whether the call that wins the fence has an executor. */
  predicate FencedWithExecutor(r: Row, run: Run)
    decreases run
  {
    run != []
    && (var es := Surviving(Calls, r, run[0]);
        if ActionStarted in es then run[0].move.Reconcile? && run[0].move.f.executor
        else FencedWithExecutor(Replay(TABLE, r, es), run[1..]))
  }

  lemma {:induction false} SpentFenceStays(r: Row, es: seq<Event>)
    requires Legal(TABLE, r, es)
    ensures r.actions == 1 ==> ActionStarted !in es && Replay(TABLE, r, es).actions == 1
    ensures ActionStarted in es ==> Replay(TABLE, r, es).actions == 1
    decreases es
  {
    if es != [] {
      SpentFenceStays(Apply(r, es[0]), es[1..]);
    }
  }

  lemma {:induction false} NoFenceNoAction(r: Row, run: Run)
    requires Checks(r) && r.actions == 1
    ensures ActionStarted !in Entries(r, run) && ActionExecuted !in Entries(r, run)
  {
    RunIsLegal(r, run);
    SpentFenceStays(r, Entries(r, run));
    EffectsFireOnce(r, run);
    NoFires(Entries(r, run));
  }

  lemma {:induction false} NoFires(es: seq<Event>)
    requires Fires(Marks(ACT, es)) == 0
    ensures ActionExecuted !in es
    decreases es
  {
    if es != [] {
      assert Marks(ACT, es)[1..] == Marks(ACT, es[1..]);
      NoFires(es[1..]);
    }
  }

  /** Over every run whose fencing call is left to finish, a spent fence was acted on
      exactly when the call that spent it had an executor. */
  lemma {:induction false} SpentFenceActsIff(r: Row, run: Run)
    requires Checks(r) && FencingCallsFinish(r, run)
    ensures ActionExecuted in Entries(r, run) <==> ActionStarted in Entries(r, run) && FencedWithExecutor(r, run)
    decreases run
  {
    if run != [] {
      var es, rest := Surviving(Calls, r, run[0]), run[1..];
      var r' := Replay(TABLE, r, es);
      assert Entries(r, run) == es + [CallEnded] + Entries(r', rest);
      CallActsIff(r, run[0].move);
      TableIsSound();
      CallsAreProper();
      SurvivingLegal(TABLE, Calls, r, run[0]);
      if ActionStarted in es {
        SpentFenceStays(r, es);
        NoFenceNoAction(r', rest);
      } else {
        ActsOnlyBehindTheFence(r, run[0]);
        SpentFenceActsIff(r', rest);
      }
    }
  }

  lemma ActsOnlyBehindTheFence(r: Row, a: Attempt<Move>)
    requires Checks(r)
    ensures ActionExecuted in Surviving(Calls, r, a) ==> ActionStarted in Surviving(Calls, r, a)
  {
    var all, es := Calls(r, a.move), Surviving(Calls, r, a);
    CallIsProper(r, a.move);
    if i :| 0 <= i < |es| && es[i] == ActionExecuted {
      assert FencedAt(ACT, all, i);
      assert es[i - 1] == ActionStarted;
    }
  }

  /** Before its candidate exists a row has spent and recorded nothing else. */
  predicate Unspoiled(r: Row) {
    StatusRank(r.status) >= 4 ==>
      && Unreviewed(r) && r.head == ""
      && (r.status == Authorized ==> r.backup == "") && (r.status != Running ==> r.actions == 0)
  }

  lemma {:induction false} StaysUnspoiled(r: Row, es: seq<Event>)
    requires Unspoiled(r) && Legal(TABLE, r, es)
    ensures Unspoiled(Replay(TABLE, r, es)) && Replay(TABLE, r, es).oldHead == r.oldHead
    decreases es
  {
    if es != [] {
      StaysUnspoiled(Apply(r, es[0]), es[1..]);
    }
  }

  lemma SealIsCommitted(r: Row, f: Facts)
    requires r.status == Authorized && Unspoiled(r) && f.loads && forall e :: !f.faulty(e)
    ensures FirstIsDurable(TABLE, Calls(r, Reconcile(f)))
  {
  }

  lemma ActIsCommitted(r: Row, f: Facts)
    requires r.status == BackedUp && Checks(r) && Unspoiled(r) && f.loads && forall e :: !f.faulty(e)
    ensures FirstIsDurable(TABLE, Calls(r, Reconcile(f)))
  {
  }

  lemma InspectionIsCommitted(r: Row, f: Facts)
    requires r.status == Running && Checks(r) && Unspoiled(r) && f.loads && forall e :: !f.faulty(e)
    requires f.inspected.Produced? ==> f.inspected.head != r.oldHead
    ensures FirstIsDurable(TABLE, Calls(r, Reconcile(f)))
  {
  }

  lemma NoWorkIsQuiet(r: Row, f: Facts)
    requires StatusRank(r.status) < 4
    ensures Rank(Replay(TABLE, r, Calls(r, Reconcile(f)))) == Rank(r)
  {
    assert Calls(r, Reconcile(f)) in {[], [ReviewTriggered]};
  }

  lemma StartupAdvances(r: Row, f: Facts)
    requires Checks(r) && Unspoiled(r) && f.loads && forall e :: !f.faulty(e)
    requires f.inspected.Produced? ==> f.inspected.head != r.oldHead
    ensures Rank(Replay(TABLE, r, Calls(r, Reconcile(f)))) < Rank(r) <==> StatusRank(r.status) >= 4
  {
    if StatusRank(r.status) >= 4 {
      CallIsProper(r, Reconcile(f));
      if r.status == Authorized {
        SealIsCommitted(r, f);
      } else if r.status == BackedUp {
        ActIsCommitted(r, f);
      } else {
        InspectionIsCommitted(r, f);
      }
      TableIsSound();
      CommittedWorkSpendsRank(TABLE, r, Calls(r, Reconcile(f)));
    } else {
      NoWorkIsQuiet(r, f);
    }
  }

  /** Wherever a run leaves the row, one more startup with store calls that succeed
      moves it strictly forward exactly while it has not produced its candidate. */
  lemma ReconcileAdvances(r: Row, run: Run, f: Facts)
    requires Checks(r) && Unspoiled(r) && f.loads && forall e :: !f.faulty(e)
    requires f.inspected.Produced? ==> f.inspected.head != r.oldHead
    ensures var r' := Last(r, run);
      Rank(Replay(TABLE, r', Calls(r', Reconcile(f)))) < Rank(r') <==> StatusRank(r'.status) >= 4
  {
    RunIsLegal(r, run);
    StaysUnspoiled(r, Entries(r, run));
    StartupAdvances(Last(r, run), f);
  }
}
