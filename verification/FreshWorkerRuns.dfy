/** Whole runs of the fresh-worker recovery, each call cut off after any number of
    journal entries. */
module FreshWorkerRuns {
  import opened FencedEffect
  import opened Journal
  import opened ArbiterProtocol
  import opened RecoveryReview
  import opened FreshWorker

  datatype Move =
    | Reconcile(f: Facts)
    | ProcessExit(started: bool, exitCode: int, f: Facts)
    | HandleReview(review: Review, f: Facts)
    | TryRebind(run: string, target: string, v: Evidence, f: Facts)
    | Outside(e: Event)

  type Run = seq<Attempt<Move>>

  function Calls(r: Row, mv: Move): seq<Event> {
    match mv
    case Reconcile(f) => ReconcileSpec(r, f).events
    case ProcessExit(started, exitCode, f) => ExitSpec(r, started, exitCode, f).events
    case HandleReview(review, f) => ReviewSpec(r, review, f).events
    case TryRebind(run, target, v, f) => RebindSpec(r, run, target, v, f).events
    case Outside(e) => if Elsewhere(e) && Guard(r, e) then [e] else []
  }

  /** Transitions made outside the engine's entry points: by the review store when a
      review starts or its reviewer fails, and by merging. */
  predicate Elsewhere(e: Event) {
    e.ReviewFenced? || e.ReviewFailed? || e.Completed? || e.MergeFailed?
  }

  function LaunchMark(e: Event): Mark {
    match e
    case CallStarted => Fence
    case WorkerLaunched => Fire
    case CallEnded => Boundary
    case _ => Other
  }

  function ReviewMark(e: Event): Mark {
    match e
    case ReviewFenced(_, _) => Fence
    case CallEnded => Boundary
    case _ => Other
  }

  predicate CallSpent(r: Row) { r.calls == 1 }

  predicate ReviewSpent(r: Row) { r.reviews == 1 }

  const LAUNCH := Effect(LaunchMark, CallSpent)
  const REVIEW := Effect(ReviewMark, ReviewSpent)

  lemma LaunchIsProper(r: Row, f: Facts)
    requires r.status == Requested
    ensures Legal(TABLE, r, LaunchSpec(r, f).events) && Adjacent(LAUNCH, LaunchSpec(r, f).events)
  {
    if f.launcher && f.exact && f.preflight && f.fenceReloads && Commit(TABLE, r, CallStarted, f.faulty) != [] {
      var rest := if f.launches then [] else Commit(TABLE, Apply(r, CallStarted), CallFailed("launch_failed"), f.faulty);
      WonLegal(TABLE, r, CallStarted, WorkerLaunched, rest);
      WonAdjacent(LAUNCH, CallStarted, WorkerLaunched, rest);
    }
  }

  lemma CallIsProper(r: Row, mv: Move)
    requires Checks(r)
    ensures Legal(TABLE, r, Calls(r, mv)) && Adjacent(LAUNCH, Calls(r, mv))
  {
    if mv.Reconcile? && r.status == Requested {
      LaunchIsProper(r, mv.f);
    }
    if mv.Reconcile? && r.status == Authorized {
      var r' := Apply(r, InputPrepared);
      LaunchIsProper(r', mv.f);
      Append(TABLE, r, [InputPrepared], LaunchSpec(r', mv.f).events);
      AdjacentAppend(LAUNCH, [InputPrepared], LaunchSpec(r', mv.f).events);
    }
  }

  lemma StepIsSound(r: Row, e: Event)
    requires Checks(r) && Guard(r, e)
    ensures Checks(Apply(r, e)) && Rank(Apply(r, e)) + (if Durable(e) then 1 else 0) <= Rank(r)
    ensures LaunchMark(e) == Fence ==> !CallSpent(r)
    ensures ReviewMark(e) == Fence ==> !ReviewSpent(r)
    ensures CallSpent(Apply(r, e)) <==> CallSpent(r) || LaunchMark(e) == Fence
    ensures ReviewSpent(Apply(r, e)) <==> ReviewSpent(r) || ReviewMark(e) == Fence
  {
  }

  lemma TableIsSound()
    ensures Sound(TABLE) && Fenced(TABLE, LAUNCH) && Fenced(TABLE, REVIEW)
  {
    forall r: Row, e: Event | TABLE.checks(r) && TABLE.guard(r, e)
      ensures TABLE.checks(TABLE.apply(r, e))
      ensures TABLE.rank(TABLE.apply(r, e)) + (if TABLE.durable(e) then 1 else 0) <= TABLE.rank(r)
      ensures LAUNCH.mark(e) == Fence ==> !LAUNCH.spent(r)
      ensures REVIEW.mark(e) == Fence ==> !REVIEW.spent(r)
      ensures LAUNCH.spent(TABLE.apply(r, e)) <==> LAUNCH.spent(r) || LAUNCH.mark(e) == Fence
      ensures REVIEW.spent(TABLE.apply(r, e)) <==> REVIEW.spent(r) || REVIEW.mark(e) == Fence
    {
      StepIsSound(r, e);
    }
  }

  lemma CallsAreProper()
    ensures Orderly(TABLE, Calls) && Prompt(TABLE, Calls, LAUNCH) && Prompt(TABLE, Calls, REVIEW)
  {
    forall r: Row, mv: Move | Checks(r)
      ensures Legal(TABLE, r, Calls(r, mv)) && Adjacent(LAUNCH, Calls(r, mv))
    {
      CallIsProper(r, mv);
    }
    forall r: Row, mv: Move | Checks(r)
      ensures Adjacent(REVIEW, Calls(r, mv))
    {
      forall i | 0 <= i < |Calls(r, mv)|
        ensures FencedAt(REVIEW, Calls(r, mv), i)
      {
      }
    }
  }

  function Entries(r: Row, run: Run): seq<Event> {
    Log(TABLE, Calls, r, run)
  }

  function Last(r: Row, run: Run): Row {
    Final(TABLE, Calls, r, run)
  }

  /** From any row that has spent nothing yet, over every run with crashes anywhere,
      the worker is launched at most once, directly behind its own fence, and at
      most one review is ever fenced. */
  lemma EffectsFireOnce(r: Row, run: Run)
    requires Checks(r)
    ensures Fires(Marks(LAUNCH, Entries(r, run))) <= if r.calls == 1 then 0 else 1
    ensures r.calls == 0 ==> Disciplined(Marks(LAUNCH, Entries(r, run)))
    ensures r.reviews == 0 ==> Disciplined(Marks(REVIEW, Entries(r, run)))
  {
    TableIsSound();
    CallsAreProper();
    RunsRefineTheFence(TABLE, Calls, LAUNCH, r, run);
    RunsRefineTheFence(TABLE, Calls, REVIEW, r, run);
  }

  lemma RunIsLegal(r: Row, run: Run)
    requires Checks(r)
    ensures Legal(TABLE, r, Entries(r, run)) && Replay(TABLE, r, Entries(r, run)) == Last(r, run)
    ensures Checks(Last(r, run))
    ensures Updates(TABLE, Entries(r, run)) + Rank(Last(r, run)) <= Rank(r)
  {
    TableIsSound();
    CallsAreProper();
    RunsAreLegal(TABLE, Calls, r, run);
  }

  /** No run breaks a CHECK constraint, and all its updates together are bounded. */
  lemma WorkIsBounded(r: Row, run: Run)
    requires Checks(r)
    ensures Checks(Last(r, run)) && Updates(TABLE, Entries(r, run)) + Rank(Last(r, run)) <= Rank(r) <= 6
  {
    RunIsLegal(r, run);
  }

  lemma {:induction false} HeadIsKept(r: Row, es: seq<Event>)
    requires Legal(TABLE, r, es) && r.head != ""
    ensures Replay(TABLE, r, es).head == r.head && Replay(TABLE, r, es).oldHead == r.oldHead
    decreases es
  {
    if es != [] {
      HeadIsKept(Apply(r, es[0]), es[1..]);
    }
  }

  /** A proven head is never replaced, and every later exit report is inert. */
  lemma OneHead(r: Row, run: Run, started: bool, exitCode: int, f: Facts)
    requires Checks(r) && r.head != "" && r.status != Running && f.loads
    ensures Last(r, run).head == r.head
    ensures ExitSpec(Last(r, run), started, exitCode, f) == Outcome([], false)
  {
    RunIsLegal(r, run);
    HeadIsKept(r, Entries(r, run));
    NeverRunsAgain(r, Entries(r, run));
  }

  lemma {:induction false} NeverRunsAgain(r: Row, es: seq<Event>)
    requires Legal(TABLE, r, es) && r.head != "" && r.status != Running
    ensures Replay(TABLE, r, es).status != Running
    decreases es
  {
    if es != [] {
      NeverRunsAgain(Apply(r, es[0]), es[1..]);
    }
  }

  /** Terminal rows absorb every run. */
  lemma TerminalAbsorbs(r: Row, run: Run)
    requires Checks(r) && StatusRank(r.status) == 0
    ensures Last(r, run) == r && forall e | e in Entries(r, run) :: e.CallEnded?
  {
    QuietRowsAbsorb(TABLE, Calls, r, run);
  }

  lemma FencedRowRuns(r: Row, es: seq<Event>)
    requires Checks(r) && Legal(TABLE, r, es) && es != [] && es[|es| - 1] == CallStarted
    ensures Checks(Replay(TABLE, r, es)) && Guard(Replay(TABLE, r, es), CallFailed("missing_result"))
  {
    TableIsSound();
    var front := LastEntry(TABLE, r, es);
    StepIsSound(front, CallStarted);
  }

  lemma DeadProcessIsMissing(r: Row, g: Facts, cut: nat)
    requires Guard(r, CallFailed("missing_result")) && cut > 0
    requires g.loads && g.launcher && g.result.Missing? && g.alive.Dead? && !g.faulty(CallFailed("missing_result"))
    ensures Surviving(Calls, r, Attempt(Reconcile(g), cut)) == [CallFailed("missing_result")]
    ensures Replay(TABLE, r, [CallFailed("missing_result")]).status == Failed
  {
  }

  /** Dying right behind the launch fence fails closed at the next startup. */
  lemma CrashAtTheFenceFailsClosed(r: Row, dying: Attempt<Move>, es: seq<Event>, g: Facts, cut: nat)
    requires Checks(r) && cut > 0
    requires es == Surviving(Calls, r, dying) && es != [] && es[|es| - 1] == CallStarted
    requires g.loads && g.launcher && g.result.Missing? && g.alive.Dead? && !g.faulty(CallFailed("missing_result"))
    ensures Entries(r, [dying, Attempt(Reconcile(g), cut)])
         == es + [CallEnded] + [CallFailed("missing_result")] + [CallEnded]
    ensures Last(r, [dying, Attempt(Reconcile(g), cut)]).status == Failed
  {
    TableIsSound();
    CallsAreProper();
    SurvivingLegal(TABLE, Calls, r, dying);
    FencedRowRuns(r, es);
    DeadProcessIsMissing(Replay(TABLE, r, es), g, cut);
    TwoAttempts(TABLE, Calls, r, dying, Attempt(Reconcile(g), cut));
  }

  predicate HasWork(r: Row, f: Facts) {
    match r.status
    case Authorized | Requested => true
    case Running => f.result.Present? || (f.result.Missing? && (!f.launcher || f.alive.Dead?))
    case _ => false
  }

  lemma RunningWorkIsCommitted(r: Row, f: Facts)
    requires r.status == Running && r.calls == 1 && Blank(r) && forall e :: !f.faulty(e)
    requires f.proof.Proven? ==> f.proof.head != r.oldHead
    ensures if HasWork(r, f) then FirstIsDurable(TABLE, InspectSpec(r, f).events) else InspectSpec(r, f).events == []
  {
  }

  lemma WaitingWorkIsCommitted(r: Row, f: Facts)
    requires (r.status == Authorized || r.status == Requested) && Checks(r) && Blank(r) && r.calls == 0
    requires f.loads && forall e :: !f.faulty(e)
    ensures FirstIsDurable(TABLE, ReconcileSpec(r, f).events)
  {
  }

  lemma EventlessStays(r: Row, es: seq<Event>)
    ensures es == [] ==> Rank(Replay(TABLE, r, es)) == Rank(r)
  {
  }

  /** Until its call is settled a row has recorded nothing, and spent nothing before
      the call. */
  predicate Unspoiled(r: Row) {
    && (r.status == Authorized || r.status == Requested ==> Blank(r) && r.calls == 0)
    && (r.status == Running ==> Blank(r))
  }

  lemma {:induction false} StaysUnspoiled(r: Row, es: seq<Event>)
    requires Unspoiled(r) && Legal(TABLE, r, es)
    ensures Unspoiled(Replay(TABLE, r, es)) && Replay(TABLE, r, es).oldHead == r.oldHead
    decreases es
  {
    if es != [] {
      StaysUnspoiled(Apply(r, es[0]), es[1..]);
    }
  }

  lemma StartupAdvances(r: Row, f: Facts)
    requires Checks(r) && Unspoiled(r) && f.loads && forall e :: !f.faulty(e)
    requires f.proof.Proven? ==> f.proof.head != r.oldHead
    ensures Rank(Replay(TABLE, r, Calls(r, Reconcile(f)))) < Rank(r) <==> HasWork(r, f)
  {
    if r.status == Running {
      RunningWorkIsCommitted(r, f);
    } else if HasWork(r, f) {
      WaitingWorkIsCommitted(r, f);
    }
    EventlessStays(r, Calls(r, Reconcile(f)));
    CallIsProper(r, Reconcile(f));
    TableIsSound();
    CommittedWorkSpendsRank(TABLE, r, Calls(r, Reconcile(f)));
  }

  /** Wherever a run leaves the row, one more startup with store calls that succeed
      moves it strictly forward exactly when its call has not been made, or has been
      made and left a result, a dead process or no launcher to ask. */
  lemma ReconcileAdvances(r: Row, run: Run, f: Facts)
    requires Checks(r) && Unspoiled(r) && f.loads && forall e :: !f.faulty(e)
    requires f.proof.Proven? ==> f.proof.head != r.oldHead
    ensures var r' := Last(r, run);
      Rank(Replay(TABLE, r', Calls(r', Reconcile(f)))) < Rank(r') <==> HasWork(r', f)
  {
    RunIsLegal(r, run);
    StaysUnspoiled(r, Entries(r, run));
    StartupAdvances(Last(r, run), f);
  }
}
