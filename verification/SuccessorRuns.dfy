/** Whole runs of the successor attempt: any sequence of startups, submits, exit
    reports and outside transitions, each cut off after any number of journal
    entries. */
module SuccessorRuns {
  import opened FencedEffect
  import opened Journal
  import opened ArbiterProtocol
  import opened ArbiterSuccessor

  datatype Move =
    | Reconcile(f: Facts)
    | Submit(parsed: Parsed, f: Facts)
    | ReportExit(report: ExitReport, f: Facts)
    | Outside(e: Event)

  type Run = seq<Attempt<Move>>

  function Calls(r: Row, mv: Move): seq<Event> {
    match mv
    case Reconcile(f) => ReconcileSpec(r, f).events
    case Submit(parsed, f) => SubmitSpec(r, parsed, f).events
    case ReportExit(report, f) => ExitSpec(r, report, f).events
    case Outside(e) => if Elsewhere(e) && Guard(r, e) then [e] else []
  }

  /** Transitions made outside the engine's entry points: by admission and merging, and
      by the migration that opens the audit. */
  predicate Elsewhere(e: Event) {
    e.Rebound? || e.Completed? || e.RepairFailed? || e.AuditOpened?
  }

  function LaunchMark(e: Event): Mark {
    match e
    case CallStarted => Fence
    case ProcessLaunched => Fire
    case CallEnded => Boundary
    case _ => Other
  }

  function WakeMark(e: Event): Mark {
    match e
    case RepairConsumed => Fence
    case WorkerWoken => Fire
    case CallEnded => Boundary
    case _ => Other
  }

  predicate CallSpent(r: Row) { r.calls == 1 }

  predicate WakeSpent(r: Row) { r.wakes == 1 }

  const LAUNCH := Effect(LaunchMark, CallSpent)
  const WAKE := Effect(WakeMark, WakeSpent)

  // ----- Every call respects the table and performs effects only behind its fences

  ghost predicate Proper(r: Row, es: seq<Event>) {
    Legal(TABLE, r, es) && Adjacent(LAUNCH, es) && Adjacent(WAKE, es)
  }

  lemma RepairIsProper(r: Row, f: Facts)
    requires Checks(r) && r.status == Decided
    ensures Proper(r, RepairSpec(r, f).events)
  {
    if f.waker && f.exact && f.policy && Commit(TABLE, r, RepairConsumed, f.faulty) != [] {
      var lost := RepairFailed("repair_launch_failed");
      WinnerIsProper(TABLE, LAUNCH, WAKE, r, RepairConsumed, WorkerWoken, lost,
                     if f.wakes then [] else Commit(TABLE, Apply(r, RepairConsumed), lost, f.faulty));
    }
  }

  lemma LaunchIsProper(r: Row, f: Facts)
    requires Checks(r) && r.status == Requested
    ensures Proper(r, LaunchSpec(r, f).events)
  {
    if f.launcher && f.exact && f.preflight && f.fenceReloads && Commit(TABLE, r, CallStarted, f.faulty) != [] {
      var lost := CallFailed("launch_failed");
      WinnerIsProper(TABLE, LAUNCH, WAKE, r, CallStarted, ProcessLaunched, lost,
                     if f.launches then [] else Commit(TABLE, Apply(r, CallStarted), lost, f.faulty));
    }
  }

  lemma PrepareIsProper(r: Row, f: Facts)
    requires Checks(r) && r.status == Authorized
    ensures Proper(r, PrepareSpec(r, f).events)
  {
    var r' := Apply(r, InputPrepared);
    var rest := LaunchSpec(r', f).events;
    LaunchIsProper(r', f);
    Append(TABLE, r, [InputPrepared], rest);
    AdjacentAppend(LAUNCH, [InputPrepared], rest);
    AdjacentAppend(WAKE, [InputPrepared], rest);
  }

  lemma CallIsProper(r: Row, mv: Move)
    requires Checks(r)
    ensures Proper(r, Calls(r, mv))
  {
    if mv.Reconcile? {
      match r.status
      case Authorized => PrepareIsProper(r, mv.f);
      case Requested => LaunchIsProper(r, mv.f);
      case Decided => RepairIsProper(r, mv.f);
      case _ =>
    }
  }

  lemma StepIsSound(r: Row, e: Event)
    requires Checks(r) && Guard(r, e)
    ensures Checks(Apply(r, e)) && Rank(Apply(r, e)) + (if Durable(e) then 1 else 0) <= Rank(r)
    ensures LaunchMark(e) == Fence ==> !CallSpent(r)
    ensures WakeMark(e) == Fence ==> !WakeSpent(r)
    ensures CallSpent(Apply(r, e)) <==> CallSpent(r) || LaunchMark(e) == Fence
    ensures WakeSpent(Apply(r, e)) <==> WakeSpent(r) || WakeMark(e) == Fence
  {
  }

  lemma TableIsSound()
    ensures Sound(TABLE) && Fenced(TABLE, LAUNCH) && Fenced(TABLE, WAKE)
  {
    forall r: Row, e: Event | TABLE.checks(r) && TABLE.guard(r, e)
      ensures TABLE.checks(TABLE.apply(r, e))
      ensures TABLE.rank(TABLE.apply(r, e)) + (if TABLE.durable(e) then 1 else 0) <= TABLE.rank(r)
      ensures LAUNCH.mark(e) == Fence ==> !LAUNCH.spent(r)
      ensures WAKE.mark(e) == Fence ==> !WAKE.spent(r)
      ensures LAUNCH.spent(TABLE.apply(r, e)) <==> LAUNCH.spent(r) || LAUNCH.mark(e) == Fence
      ensures WAKE.spent(TABLE.apply(r, e)) <==> WAKE.spent(r) || WAKE.mark(e) == Fence
    {
      StepIsSound(r, e);
    }
  }

  lemma CallsAreProper()
    ensures Orderly(TABLE, Calls) && Prompt(TABLE, Calls, LAUNCH) && Prompt(TABLE, Calls, WAKE)
  {
    forall r: Row, mv: Move | Checks(r)
      ensures Legal(TABLE, r, Calls(r, mv)) && Adjacent(LAUNCH, Calls(r, mv)) && Adjacent(WAKE, Calls(r, mv))
    {
      CallIsProper(r, mv);
    }
  }

  // ----- Effects over whole runs

  function Entries(r: Row, run: Run): seq<Event> {
    Log(TABLE, Calls, r, run)
  }

  function Last(r: Row, run: Run): Row {
    Final(TABLE, Calls, r, run)
  }

  /** From a freshly authorized attempt, however calls interleave and wherever they
      die, the model process is launched at most once and the worker is woken at
      most once, each directly behind its own committed fence. */
  lemma EffectsFireOnce(pinned: Parsed, run: Run)
    ensures Disciplined(Marks(LAUNCH, Entries(Fresh(pinned), run))) && Fires(Marks(LAUNCH, Entries(Fresh(pinned), run))) <= 1
    ensures Disciplined(Marks(WAKE, Entries(Fresh(pinned), run))) && Fires(Marks(WAKE, Entries(Fresh(pinned), run))) <= 1
  {
    TableIsSound();
    CallsAreProper();
    RunsRefineTheFence(TABLE, Calls, LAUNCH, Fresh(pinned), run);
    RunsRefineTheFence(TABLE, Calls, WAKE, Fresh(pinned), run);
  }

  /** Once a fence is durable its effect never fires again, whether or not it got
      out before the process died. */
  lemma FencedNeverRefires(r: Row, run: Run)
    requires Checks(r)
    ensures r.calls == 1 ==> Fires(Marks(LAUNCH, Entries(r, run))) == 0
    ensures r.wakes == 1 ==> Fires(Marks(WAKE, Entries(r, run))) == 0
  {
    TableIsSound();
    CallsAreProper();
    RunsRefineTheFence(TABLE, Calls, LAUNCH, r, run);
    RunsRefineTheFence(TABLE, Calls, WAKE, r, run);
  }

  /** No run breaks a CHECK constraint, and all its updates together are bounded by
      the rank of the row it starts from. */
  lemma WorkIsBounded(r: Row, run: Run)
    requires Checks(r)
    ensures Checks(Last(r, run))
    ensures Updates(TABLE, Entries(r, run)) + Rank(Last(r, run)) <= Rank(r) <= 26
  {
    TableIsSound();
    CallsAreProper();
    RunsAreLegal(TABLE, Calls, r, run);
  }

  lemma DeadProcessIsMissing(r: Row, g: Facts, cut: nat)
    requires Checks(r) && r.status == Running && cut > 0 && g.loads
    requires g.launcher && g.resultPath && g.result.Absent? && g.alive.Dead? && !g.faulty(CallFailed("missing_result"))
    ensures Surviving(Calls, r, Attempt(Reconcile(g), cut)) == [CallFailed("missing_result")]
    ensures Replay(TABLE, r, [CallFailed("missing_result")]).status == Failed
  {
  }

  lemma FencedRowRuns(r: Row, es: seq<Event>)
    requires Checks(r) && Legal(TABLE, r, es) && es != [] && es[|es| - 1] == CallStarted
    ensures Checks(Replay(TABLE, r, es)) && Replay(TABLE, r, es).status == Running
  {
    TableIsSound();
    var front := LastEntry(TABLE, r, es);
    StepIsSound(front, CallStarted);
  }

  /** Dying right behind the launch fence fails closed: the next startup finds
      neither result nor process and records exactly that. */
  lemma CrashAtTheFenceFailsClosed(r: Row, dying: Attempt<Move>, es: seq<Event>, g: Facts, cut: nat)
    requires Checks(r) && cut > 0
    requires es == Surviving(Calls, r, dying) && es != [] && es[|es| - 1] == CallStarted
    requires g.loads && g.launcher && g.resultPath && g.result.Absent? && g.alive.Dead? && !g.faulty(CallFailed("missing_result"))
    ensures Entries(r, [dying, Attempt(Reconcile(g), cut)])
         == es + [CallEnded] + [CallFailed("missing_result")] + [CallEnded]
    ensures Last(r, [dying, Attempt(Reconcile(g), cut)]).status == Failed
  {
    SurvivorIsLegal(r, dying);
    FencedRowRuns(r, es);
    DeadProcessIsMissing(Replay(TABLE, r, es), g, cut);
    TwoAttempts(TABLE, Calls, r, dying, Attempt(Reconcile(g), cut));
  }

  lemma SurvivorIsLegal(r: Row, a: Attempt<Move>)
    requires Checks(r)
    ensures Legal(TABLE, r, Surviving(Calls, r, a))
  {
    TableIsSound();
    CallsAreProper();
    SurvivingLegal(TABLE, Calls, r, a);
  }

  // ----- One decision

  function DecisionOf(r: Row): string { r.decision }

  predicate Decides(e: Event) { e.DecisionRecorded? || e.DecisionRecovered? }

  lemma DecisionsFillABlank()
    ensures WrittenWhenBlank(TABLE, DecisionOf, Decides)
  {
  }

  /** However submits, replays of the result file, exit reports, the validation
      recovery and crashes interleave, at most one decision is ever recorded or
      recovered and it is never overwritten;
      afterwards the same decision is accepted again without effect, any other is
      refused without effect, and exit reports are inert. */
  lemma OneDecision(r: Row, run: Run, v: Verdict, report: ExitReport, f: Facts)
    requires Checks(r) && f.loads
    ensures Count(Decides, Entries(r, run)) <= 1
    ensures var r' := Last(r, run);
      r.decision != "" ==>
        && r'.decision == r.decision
        && SubmitSpec(r', Accepted(v), f) == Outcome([], v.canonical != r.decision)
        && ExitSpec(r', report, f) == Outcome([], false)
  {
    TableIsSound();
    CallsAreProper();
    RunsAreLegal(TABLE, Calls, r, run);
    DecisionsFillABlank();
    WrittenOnce(TABLE, DecisionOf, Decides, r, Entries(r, run));
  }

  /** A decision that leaves the row `decided`. */
  predicate Assigns(e: Event) {
    (e.DecisionRecorded? && !e.safeStop) || e.DecisionRecovered?
  }

  lemma {:induction false} ConsumedOnlyIfDecided(r: Row, es: seq<Event>, j: nat) returns (i: nat)
    requires Legal(TABLE, r, es) && r.status != Decided
    requires j < |es| && es[j].RepairConsumed?
    ensures i < j && Assigns(es[i])
    decreases es
  {
    if Assigns(es[0]) {
      i := 0;
    } else {
      var k := ConsumedOnlyIfDecided(Apply(r, es[0]), es[1..], j - 1);
      i := k + 1;
    }
  }

  lemma EntriesAreLegal(r: Row, run: Run)
    requires Checks(r)
    ensures Legal(TABLE, r, Entries(r, run))
  {
    TableIsSound();
    CallsAreProper();
    RunsAreLegal(TABLE, Calls, r, run);
  }

  lemma WakeIsFenced(pinned: Parsed, run: Run, j: nat)
    requires j < |Entries(Fresh(pinned), run)| && Entries(Fresh(pinned), run)[j].WorkerWoken?
    ensures j > 0 && Entries(Fresh(pinned), run)[j - 1].RepairConsumed?
  {
    var marks := Marks(WAKE, Entries(Fresh(pinned), run));
    EffectsFireOnce(pinned, run);
    assert marks[j] == Fire;
    assert marks[j - 1] == Fence;
  }

  /** No worker is ever woken without a decision recorded as assigning recovery or
      recovered from the validation audit, and unless the audit pins a safe stop that
      decision is none. */
  lemma WakeFollowsDecision(pinned: Parsed, run: Run, j: nat)
    requires j < |Entries(Fresh(pinned), run)| && Entries(Fresh(pinned), run)[j].WorkerWoken?
    ensures var es := Entries(Fresh(pinned), run);
      exists i | 0 <= i < j :: Assigns(es[i]) && (es[i].safeStop ==> PinsSafeStop(pinned))
  {
    var es := Entries(Fresh(pinned), run);
    WakeIsFenced(pinned, run, j);
    EntriesAreLegal(Fresh(pinned), run);
    EntriesRecoverThePinned(Fresh(pinned), run);
    var i := ConsumedOnlyIfDecided(Fresh(pinned), es, j - 1);
    assert es[i] in es;
  }

  /** The wake needs a startup that finds `decided` on entry, and that startup
      neither records nor recovers a decision itself. */
  lemma WakeNeedsADecidedStartup(r: Row, mv: Move)
    requires Checks(r)
    requires RepairConsumed in Calls(r, mv) || WorkerWoken in Calls(r, mv)
    ensures mv.Reconcile? && r.status == Decided
    ensures forall e | e in Calls(r, mv) :: !e.DecisionRecorded? && !e.DecisionRecovered?
  {
    if !mv.Reconcile? || r.status != Decided {
      QuietUnlessDecided(r, mv);
    }
  }

  lemma QuietUnlessDecided(r: Row, mv: Move)
    requires !mv.Reconcile? || r.status != Decided
    ensures RepairConsumed !in Calls(r, mv) && WorkerWoken !in Calls(r, mv)
  {
    if mv.Reconcile? && r.status == Authorized {
      assert RepairConsumed !in LaunchSpec(Apply(r, InputPrepared), mv.f).events;
    }
  }

  // ----- Safe stops

  predicate StopsSafely(e: Event) {
    (e.DecisionRecorded? || e.DecisionRecovered?) && e.safeStop
  }

  /** Somebody was woken although the decision on record was a safe stop. */
  ghost predicate WakesOnSafeStop(es: seq<Event>) {
    exists i, j | 0 <= i < j < |es| :: StopsSafely(es[i]) && es[j].WorkerWoken?
  }

  predicate PinsSafeStop(pinned: Parsed) {
    pinned.Accepted? && pinned.verdict.safeStop
  }

  lemma RecoversOnlyThePinned(r: Row, mv: Move)
    ensures forall e | e in Calls(r, mv) && e.DecisionRecovered? :: PinsSafeStop(r.pinned) == e.safeStop
  {
    if mv.Reconcile? && r.status == Authorized {
      assert forall e | e in LaunchSpec(Apply(r, InputPrepared), mv.f).events :: !e.DecisionRecovered?;
    }
  }

  lemma {:induction false} PinnedStays(r: Row, es: seq<Event>)
    ensures Replay(TABLE, r, es).pinned == r.pinned
    decreases es
  {
    if es != [] {
      PinnedStays(Apply(r, es[0]), es[1..]);
    }
  }

  lemma {:induction false} EntriesRecoverThePinned(r: Row, run: Run)
    ensures forall e | e in Entries(r, run) && e.DecisionRecovered? :: PinsSafeStop(r.pinned) == e.safeStop
    decreases run
  {
    if run != [] {
      var es := Surviving(Calls, r, run[0]);
      RecoversOnlyThePinned(r, run[0].move);
      assert forall e | e in es :: e in Calls(r, run[0].move);
      PinnedStays(r, es);
      EntriesRecoverThePinned(Replay(TABLE, r, es), run[1..]);
      assert Entries(r, run) == es + [CallEnded] + Entries(Replay(TABLE, r, es), run[1..]);
    }
  }

  lemma {:induction false} StoppedNeverConsumes(r: Row, es: seq<Event>)
    requires Legal(TABLE, r, es) && r.status == SafeStopped && r.decision != ""
    ensures RepairConsumed !in es
    decreases es
  {
    if es != [] {
      StoppedNeverConsumes(Apply(r, es[0]), es[1..]);
    }
  }

  lemma {:induction false} NothingConsumedBehindAStop(r: Row, es: seq<Event>, i: nat, k: nat)
    requires Legal(TABLE, r, es) && i < k < |es|
    requires es[i].DecisionRecorded? && es[i].safeStop
    ensures es[k] != RepairConsumed
    decreases es
  {
    if i == 0 {
      StoppedNeverConsumes(Apply(r, es[0]), es[1..]);
      assert es[k] == es[1..][k - 1];
    } else {
      NothingConsumedBehindAStop(Apply(r, es[0]), es[1..], i - 1, k - 1);
    }
  }

  lemma NothingWokenBehindAStop(r: Row, es: seq<Event>, i: nat, j: nat)
    requires Legal(TABLE, r, es) && i < j < |es| && es[i].DecisionRecorded? && es[i].safeStop
    requires es[j].WorkerWoken? ==> es[j - 1].RepairConsumed?
    ensures !es[j].WorkerWoken?
  {
    if i < j - 1 {
      NothingConsumedBehindAStop(r, es, i, j - 1);
    }
  }

  lemma UnpinnedStopNeverWakes(pinned: Parsed, run: Run)
    requires !PinsSafeStop(pinned)
    ensures !WakesOnSafeStop(Entries(Fresh(pinned), run))
  {
    var es := Entries(Fresh(pinned), run);
    EntriesRecoverThePinned(Fresh(pinned), run);
    EntriesAreLegal(Fresh(pinned), run);
    forall i, j | 0 <= i < j < |es| && StopsSafely(es[i])
      ensures !es[j].WorkerWoken?
    {
      assert es[i] in es;
      if es[j].WorkerWoken? {
        WakeIsFenced(pinned, run, j);
      }
      NothingWokenBehindAStop(Fresh(pinned), es, i, j);
    }
  }

  /** Everything answers, no store call fails, and the file on disk is the pinned one. */
  predicate Smooth(f: Facts) {
    && f.loads && f.incidentExact && f.derives && f.preparedReloads && f.launcher && f.exact && f.preflight
    && f.fenceReloads && f.launches && f.resultPath && f.alive.Dead? && f.waker && f.policy && f.wakes
    && f.auditLoads && f.auditExact && f.artifact.Pinned?
  }

  /** The recovery writes `decided` without looking at the verdict it recovers, so a
      recovered safe stop is consumed by the next startup like any other decision. */
  lemma RecoveredDecisionWakes(r: Row, f: Facts)
    requires Checks(r) && RejectedSubmit(r) && r.audit == Pending && r.pinned.Accepted?
    requires Smooth(f) && forall e :: !f.faulty(e)
    ensures Entries(r, [Attempt(Reconcile(f), 9), Attempt(Reconcile(f), 9)])
         == [Recovering(r.pinned.verdict), CallEnded, RepairConsumed, WorkerWoken, CallEnded]
  {
    var a := Attempt(Reconcile(f), 9);
    var recovered := Recovering(r.pinned.verdict);
    assert Surviving(Calls, r, a) == [recovered];
    assert Replay(TABLE, r, [recovered]) == Apply(r, recovered);
    assert Surviving(Calls, Apply(r, recovered), a) == [RepairConsumed, WorkerWoken];
    TwoAttempts(TABLE, Calls, r, a, a);
  }

  lemma OneAttempt(r: Row, a: Attempt<Move>)
    ensures Entries(r, [a]) == Surviving(Calls, r, a) + [CallEnded]
    ensures Last(r, [a]) == Replay(TABLE, r, Surviving(Calls, r, a))
  {
    assert [a][1..] == [];
    var r' := Replay(TABLE, r, Surviving(Calls, r, a));
    assert Log(TABLE, Calls, r', []) == [] && Final(TABLE, Calls, r', []) == r';
  }

  lemma ReplayOne(r: Row, e: Event)
    ensures Replay(TABLE, r, [e]) == Apply(r, e)
  {
    assert [e][1..] == [];
  }

  lemma StartedAttempt(pinned: Parsed, f: Facts)
    requires Smooth(f) && forall e :: !f.faulty(e)
    ensures var r := Fresh(pinned); var es := [InputPrepared, CallStarted, ProcessLaunched];
      Surviving(Calls, r, Attempt(Reconcile(f), 9)) == es
      && Replay(TABLE, r, es) == r.(status := Running, prepared := true, calls := 1)
  {
    var r := Fresh(pinned);
    var es := [InputPrepared, CallStarted, ProcessLaunched];
    var r1 := Apply(r, InputPrepared);
    assert LaunchSpec(r1, f).events == [CallStarted, ProcessLaunched];
    assert Calls(r, Reconcile(f)) == [InputPrepared] + [CallStarted, ProcessLaunched] == es;
    assert es[1..] == [CallStarted, ProcessLaunched] && es[1..][1..] == [ProcessLaunched];
    ReplayOne(Apply(r1, CallStarted), ProcessLaunched);
  }

  lemma Joined(r: Row, a: Run, b: Run)
    ensures Entries(r, a + b) == Entries(r, a) + Entries(Last(r, a), b)
    ensures Last(r, a + b) == Last(Last(r, a), b)
  {
    RunSplit(TABLE, Calls, r, a, b);
  }

  lemma ReportLast(r: Row, report: Attempt<Move>, f: Facts)
    requires r.status == Running && r.calls == 1 && r.decision == "" && f.loads && !f.faulty(CallFailed("submit_failed"))
    requires report == Attempt(ReportExit(ExitReport(true, 1, "submit_failed"), f), 9)
    ensures Last(r, [report]) == r.(status := Failed, error := "submit_failed", finished := true)
  {
    assert Surviving(Calls, r, report) == [CallFailed("submit_failed")];
    ReplayOne(r, CallFailed("submit_failed"));
    OneAttempt(r, report);
  }

  lemma AuditLast(r: Row)
    requires Guard(r, AuditOpened)
    ensures Last(r, [Attempt(Outside(AuditOpened), 9)]) == r.(audit := Pending)
  {
    assert Surviving(Calls, r, Attempt(Outside(AuditOpened), 9)) == [AuditOpened];
    ReplayOne(r, AuditOpened);
    OneAttempt(r, Attempt(Outside(AuditOpened), 9));
  }

  /** A launched call whose submit is rejected, and the audit opened for it. */
  function Rejection(f: Facts): Run {
    [Attempt(Reconcile(f), 9)] + RejectedCall(f)
  }

  function RejectedCall(f: Facts): Run {
    [Attempt(ReportExit(ExitReport(true, 1, "submit_failed"), f), 9)] + [Attempt(Outside(AuditOpened), 9)]
  }

  lemma RejectedLast(r: Row, f: Facts)
    requires r.status == Running && r.calls == 1 && r.decision == "" && r.wakes == 0 && r.audit == NoAudit
    requires f.loads && !f.faulty(CallFailed("submit_failed"))
    ensures Last(r, RejectedCall(f)) == r.(status := Failed, error := "submit_failed", finished := true, audit := Pending)
  {
    var report := Attempt(ReportExit(ExitReport(true, 1, "submit_failed"), f), 9);
    ReportLast(r, report, f);
    AuditLast(r.(status := Failed, error := "submit_failed", finished := true));
    Joined(r, [report], [Attempt(Outside(AuditOpened), 9)]);
  }

  lemma SubmitRejected(pinned: Parsed, f: Facts)
    requires Smooth(f) && forall e :: !f.faulty(e)
    ensures var r := Last(Fresh(pinned), Rejection(f));
      Checks(r) && RejectedSubmit(r) && r.audit == Pending && r.pinned == pinned
  {
    StartedAttempt(pinned, f);
    OneAttempt(Fresh(pinned), Attempt(Reconcile(f), 9));
    RejectedLast(Fresh(pinned).(status := Running, prepared := true, calls := 1), f);
    Joined(Fresh(pinned), [Attempt(Reconcile(f), 9)], RejectedCall(f));
  }

  predicate Never(e: Event) { false }

  const SMOOTH := Facts(true, true, true, true, true, true, true, true, true, true, Absent, Dead,
                        true, true, true, true, true, true, Pinned, Never)

  lemma StopThenWake(head: seq<Event>, stop: Event)
    requires StopsSafely(stop)
    ensures WakesOnSafeStop(head + [stop, CallEnded, RepairConsumed, WorkerWoken, CallEnded])
  {
    var es := head + [stop, CallEnded, RepairConsumed, WorkerWoken, CallEnded];
    assert es[|head|] == stop && es[|head| + 3] == WorkerWoken;
  }

  lemma PinnedStopWakes(pinned: Parsed)
    requires PinsSafeStop(pinned)
    ensures exists run :: WakesOnSafeStop(Entries(Fresh(pinned), run))
  {
    var rest := [Attempt(Reconcile(SMOOTH), 9), Attempt(Reconcile(SMOOTH), 9)];
    SubmitRejected(pinned, SMOOTH);
    RecoveredDecisionWakes(Last(Fresh(pinned), Rejection(SMOOTH)), SMOOTH);
    Joined(Fresh(pinned), Rejection(SMOOTH), rest);
    StopThenWake(Entries(Fresh(pinned), Rejection(SMOOTH)), Recovering(pinned.verdict));
  }

  /** Over every run from a fresh authorization, nobody is woken on a safe stop if and
      only if the artifact the audit pins does not hold one. */
  lemma SafeStopNeverWakesIff(pinned: Parsed)
    ensures (forall run :: !WakesOnSafeStop(Entries(Fresh(pinned), run))) <==> !PinsSafeStop(pinned)
  {
    if PinsSafeStop(pinned) {
      PinnedStopWakes(pinned);
    } else {
      forall run
        ensures !WakesOnSafeStop(Entries(Fresh(pinned), run))
      {
        UnpinnedStopNeverWakes(pinned, run);
      }
    }
  }

  // ----- Absorption and progress

  lemma {:induction false} TerminalStaysTerminal(r: Row, es: seq<Event>)
    requires Legal(TABLE, r, es) && StatusRank(r.status) == 0
    requires forall e | e in es :: !e.DecisionRecovered?
    ensures Replay(TABLE, r, es).status == r.status
    decreases es
  {
    if es != [] {
      TerminalStaysTerminal(Apply(r, es[0]), es[1..]);
    }
  }

  /** A terminal status is left only through the one recovery edge, and that edge is
      taken at most once because it spends the audit. */
  lemma TerminalLeavesOnlyByRecovery(r: Row, run: Run)
    requires Checks(r) && StatusRank(r.status) == 0
    ensures Last(r, run).status == r.status || exists e | e in Entries(r, run) :: e.DecisionRecovered?
    ensures r.audit in {Applied, Rejected} ==> Last(r, run).status == r.status
  {
    TableIsSound();
    CallsAreProper();
    RunsAreLegal(TABLE, Calls, r, run);
    if forall e | e in Entries(r, run) :: !e.DecisionRecovered? {
      TerminalStaysTerminal(r, Entries(r, run));
    }
    if r.audit in {Applied, Rejected} {
      SpentAuditNeverRecovers(r, Entries(r, run));
    }
  }

  lemma {:induction false} SpentAuditNeverRecovers(r: Row, es: seq<Event>)
    requires Legal(TABLE, r, es) && r.audit in {Applied, Rejected}
    ensures forall e | e in es :: !e.DecisionRecovered?
    decreases es
  {
    if es != [] {
      SpentAuditNeverRecovers(Apply(r, es[0]), es[1..]);
    }
  }

  /** When a startup has a first update to make. */
  predicate HasWork(r: Row, f: Facts) {
    match r.status
    case Authorized => f.incidentExact && f.derives
    case Requested | Decided => true
    case Running => !f.launcher || (f.resultPath && (f.result.Malformed? || f.result.Holds?
                                                     || (f.result.Absent? && f.alive.Dead?)))
    case Failed => r.audit == Pending
    case _ => false
  }

  lemma EarlyWorkIsCommitted(r: Row, f: Facts)
    requires Checks(r) && r.status in {Authorized, Requested, Decided} && forall e :: !f.faulty(e)
    ensures r.status == Authorized ==> if HasWork(r, f) then FirstIsDurable(TABLE, PrepareSpec(r, f).events) else PrepareSpec(r, f).events == []
    ensures r.status == Requested ==> FirstIsDurable(TABLE, LaunchSpec(r, f).events)
    ensures r.status == Decided ==> FirstIsDurable(TABLE, RepairSpec(r, f).events)
  {
  }

  lemma RunningWorkIsCommitted(r: Row, f: Facts)
    requires Checks(r) && r.status == Running && forall e :: !f.faulty(e)
    ensures if HasWork(r, f) then FirstIsDurable(TABLE, InspectSpec(r, f).events) else InspectSpec(r, f).events == []
  {
  }

  lemma FailedWorkIsCommitted(r: Row, f: Facts)
    requires Checks(r) && r.status == Failed && f.auditLoads && forall e :: !f.faulty(e)
    ensures if HasWork(r, f) then FirstIsDurable(TABLE, RecoverSpec(r, f).events) else RecoverSpec(r, f).events == []
  {
  }

  /** With store calls that succeed, one startup moves the rank strictly down exactly
      when it has work: an authorized attempt whose evidence holds, any requested or
      decided one, a running one with a result or without a process, and a failed
      one whose audit is pending. */
  lemma ReconcileAdvances(r: Row, f: Facts)
    requires Checks(r) && f.loads && f.auditLoads && forall e :: !f.faulty(e)
    ensures Rank(Replay(TABLE, r, Calls(r, Reconcile(f)))) < Rank(r) <==> HasWork(r, f)
  {
    if r.status in {Authorized, Requested, Decided} {
      EarlyWorkIsCommitted(r, f);
    } else if r.status == Running {
      RunningWorkIsCommitted(r, f);
    } else if r.status == Failed {
      FailedWorkIsCommitted(r, f);
    }
    CallIsProper(r, Reconcile(f));
    TableIsSound();
    CommittedWorkSpendsRank(TABLE, r, Calls(r, Reconcile(f)));
  }
}
