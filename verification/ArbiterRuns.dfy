/** Whole runs of the release arbiter: any sequence of reconciliations, submits,
    exit reports and outside transitions, each cut off after any number of journal
    entries. */
module ArbiterRuns {
  import opened FencedEffect
  import opened Journal
  import opened ArbiterProtocol
  import opened Arbiter

  datatype Move =
    | Reconcile(f: Facts)
    | Submit(parsed: Parsed, f: Facts)
    | ReportExit(report: ExitReport, f: Facts)
    | Outside(e: Event)

  type Run = seq<Attempt<Move>>

  function Calls(r: Row, mv: Move): seq<Event> {
    match mv
    case Reconcile(f) => AdvanceSpec(r, f).events
    case Submit(parsed, f) => SubmitSpec(r, parsed, f).events
    case ReportExit(report, f) => ExitSpec(r, report, f).events
    case Outside(e) => if Elsewhere(e) && Guard(r, e) then [e] else []
  }

  /** Transitions made outside the engine's entry points, by admission and merging. */
  predicate Elsewhere(e: Event) {
    e.Rebound? || e.Completed? || e.RepairFailed? || e.AdmissionMoved?
  }

  function LaunchMark(e: Event): Mark {
    match e
    case CallStarted => Fence
    case ProcessLaunched => Fire
    case CallEnded => Boundary
    case _ => Other
  }

  function WakeMark(e: Event): Mark {
    match e
    case RepairConsumed => Fence
    case WorkerWoken => Fire
    case CallEnded => Boundary
    case _ => Other
  }

  predicate CallSpent(r: Row) { r.calls == 1 }

  predicate WakeSpent(r: Row) { r.wakes == 1 }

  const LAUNCH := Effect(LaunchMark, CallSpent)
  const WAKE := Effect(WakeMark, WakeSpent)

  // ----- Every call respects the table and performs effects only behind its fences

  ghost predicate Proper(r: Row, es: seq<Event>) {
    Legal(TABLE, r, es) && Adjacent(LAUNCH, es) && Adjacent(WAKE, es)
  }

  lemma RepairIsProper(r: Row, f: Facts)
    requires Checks(r) && r.status == Decided
    ensures Proper(r, RepairSpec(r, f).events)
  {
    if f.waker && Commit(TABLE, r, RepairConsumed, f.faulty) != [] {
      var lost := RepairFailed("repair_launch_failed");
      WinnerIsProper(TABLE, LAUNCH, WAKE, r, RepairConsumed, WorkerWoken, lost,
                     if f.wakes then [] else Commit(TABLE, Apply(r, RepairConsumed), lost, f.faulty));
    }
  }

  lemma LaunchIsProper(r: Row, f: Facts)
    requires Checks(r) && r.status == Requested
    ensures Proper(r, LaunchSpec(r, f).events)
  {
    if f.launcher && f.exact && f.preflight && Commit(TABLE, r, CallStarted, f.faulty) != [] {
      var lost := CallFailed("launch_failed");
      WinnerIsProper(TABLE, LAUNCH, WAKE, r, CallStarted, ProcessLaunched, lost,
                     if f.launches then [] else Commit(TABLE, Apply(r, CallStarted), lost, f.faulty));
    }
  }

  lemma PersistIsProper(r: Row, v: Verdict, f: Facts)
    requires Checks(r)
    ensures Proper(r, PersistSpec(r, v, f).events)
  {
    var e := Recording(v);
    if f.exact && Commit(TABLE, r, e, f.faulty) != [] && !v.safeStop && f.reloads {
      var rest := RepairSpec(Apply(r, e), f).events;
      RepairIsProper(Apply(r, e), f);
      Append(TABLE, r, [e], rest);
      AdjacentAppend(LAUNCH, [e], rest);
      AdjacentAppend(WAKE, [e], rest);
    }
  }

  lemma CallIsProper(r: Row, mv: Move)
    requires Checks(r)
    ensures Proper(r, Calls(r, mv))
  {
    match mv {
      case Submit(parsed, f) =>
        if parsed.Accepted? { PersistIsProper(r, parsed.verdict, f); }
      case Reconcile(f) =>
        if f.result.Holds? { PersistIsProper(r, f.result.verdict, f); }
        if r.status == Decided { RepairIsProper(r, f); }
        if r.status == Requested { LaunchIsProper(r, f); }
      case _ =>
    }
  }

  lemma StepIsSound(r: Row, e: Event)
    requires Checks(r) && Guard(r, e)
    ensures Checks(Apply(r, e)) && Rank(Apply(r, e)) + (if Durable(e) then 1 else 0) <= Rank(r)
    ensures LaunchMark(e) == Fence ==> !CallSpent(r)
    ensures WakeMark(e) == Fence ==> !WakeSpent(r)
    ensures CallSpent(Apply(r, e)) <==> CallSpent(r) || LaunchMark(e) == Fence
    ensures WakeSpent(Apply(r, e)) <==> WakeSpent(r) || WakeMark(e) == Fence
  {
  }

  lemma TableIsSound()
    ensures Sound(TABLE) && Fenced(TABLE, LAUNCH) && Fenced(TABLE, WAKE)
  {
    forall r: Row, e: Event | TABLE.checks(r) && TABLE.guard(r, e)
      ensures TABLE.checks(TABLE.apply(r, e))
      ensures TABLE.rank(TABLE.apply(r, e)) + (if TABLE.durable(e) then 1 else 0) <= TABLE.rank(r)
      ensures LAUNCH.mark(e) == Fence ==> !LAUNCH.spent(r)
      ensures WAKE.mark(e) == Fence ==> !WAKE.spent(r)
      ensures LAUNCH.spent(TABLE.apply(r, e)) <==> LAUNCH.spent(r) || LAUNCH.mark(e) == Fence
      ensures WAKE.spent(TABLE.apply(r, e)) <==> WAKE.spent(r) || WAKE.mark(e) == Fence
    {
      StepIsSound(r, e);
    }
  }

  lemma CallsAreProper()
    ensures Orderly(TABLE, Calls) && Prompt(TABLE, Calls, LAUNCH) && Prompt(TABLE, Calls, WAKE)
  {
    forall r: Row, mv: Move | Checks(r)
      ensures Legal(TABLE, r, Calls(r, mv)) && Adjacent(LAUNCH, Calls(r, mv)) && Adjacent(WAKE, Calls(r, mv))
    {
      CallIsProper(r, mv);
    }
  }

  // ----- Effects over whole runs

  function Entries(r: Row, run: Run): seq<Event> {
    Log(TABLE, Calls, r, run)
  }

  function Last(r: Row, run: Run): Row {
    Final(TABLE, Calls, r, run)
  }

  /** From a freshly opened incident, however calls interleave and wherever they
      die, the model process is launched at most once and the worker is woken at
      most once, each directly behind its own committed fence. */
  lemma EffectsFireOnce(run: Run)
    ensures Disciplined(Marks(LAUNCH, Entries(OPENED, run))) && Fires(Marks(LAUNCH, Entries(OPENED, run))) <= 1
    ensures Disciplined(Marks(WAKE, Entries(OPENED, run))) && Fires(Marks(WAKE, Entries(OPENED, run))) <= 1
  {
    TableIsSound();
    CallsAreProper();
    RunsRefineTheFence(TABLE, Calls, LAUNCH, OPENED, run);
    RunsRefineTheFence(TABLE, Calls, WAKE, OPENED, run);
  }

  /** Once a fence is durable its effect never fires again, whether or not it got
      out before the process died. */
  lemma FencedNeverRefires(r: Row, run: Run)
    requires Checks(r)
    ensures r.calls == 1 ==> Fires(Marks(LAUNCH, Entries(r, run))) == 0
    ensures r.wakes == 1 ==> Fires(Marks(WAKE, Entries(r, run))) == 0
  {
    TableIsSound();
    CallsAreProper();
    RunsRefineTheFence(TABLE, Calls, LAUNCH, r, run);
    RunsRefineTheFence(TABLE, Calls, WAKE, r, run);
  }

  /** No run breaks a CHECK constraint, and all its updates together are bounded by
      the rank of the row it starts from. */
  lemma WorkIsBounded(r: Row, run: Run)
    requires Checks(r)
    ensures Checks(Last(r, run))
    ensures Updates(TABLE, Entries(r, run)) + Rank(Last(r, run)) <= Rank(r) <= 6
  {
    TableIsSound();
    CallsAreProper();
    RunsAreLegal(TABLE, Calls, r, run);
  }

  lemma DeadProcessIsMissing(r: Row, g: Facts, cut: nat)
    requires Checks(r) && r.status == Running && cut > 0
    requires g.launcher && g.resultPath && g.result.Absent? && g.alive.Dead? && !g.faulty(CallFailed("missing_result"))
    ensures Surviving(Calls, r, Attempt(Reconcile(g), cut)) == [CallFailed("missing_result")]
    ensures Replay(TABLE, r, [CallFailed("missing_result")]).status == Failed
  {
  }

  lemma FencedRowRuns(r: Row, es: seq<Event>)
    requires Checks(r) && Legal(TABLE, r, es) && es != [] && es[|es| - 1] == CallStarted
    ensures Checks(Replay(TABLE, r, es)) && Replay(TABLE, r, es).status == Running
  {
    TableIsSound();
    var front := LastEntry(TABLE, r, es);
    StepIsSound(front, CallStarted);
  }

  /** Dying right behind the launch fence fails closed: the next startup finds
      neither result nor process and records exactly that. */
  lemma CrashAtTheFenceFailsClosed(r: Row, dying: Attempt<Move>, es: seq<Event>, g: Facts, cut: nat)
    requires Checks(r) && cut > 0
    requires es == Surviving(Calls, r, dying) && es != [] && es[|es| - 1] == CallStarted
    requires g.launcher && g.resultPath && g.result.Absent? && g.alive.Dead? && !g.faulty(CallFailed("missing_result"))
    ensures Entries(r, [dying, Attempt(Reconcile(g), cut)])
         == es + [CallEnded] + [CallFailed("missing_result")] + [CallEnded]
    ensures Last(r, [dying, Attempt(Reconcile(g), cut)]).status == Failed
  {
    SurvivorIsLegal(r, dying);
    FencedRowRuns(r, es);
    DeadProcessIsMissing(Replay(TABLE, r, es), g, cut);
    TwoAttempts(TABLE, Calls, r, dying, Attempt(Reconcile(g), cut));
  }

  lemma SurvivorIsLegal(r: Row, a: Attempt<Move>)
    requires Checks(r)
    ensures Legal(TABLE, r, Surviving(Calls, r, a))
  {
    TableIsSound();
    CallsAreProper();
    SurvivingLegal(TABLE, Calls, r, a);
  }

  // ----- One decision

  function DecisionOf(r: Row): string { r.decision }

  predicate Decides(e: Event) { e.DecisionRecorded? }

  lemma DecisionsFillABlank()
    ensures WrittenWhenBlank(TABLE, DecisionOf, Decides)
  {
  }

  /** However submits, replays of the result file, exit reports and crashes
      interleave, at most one decision is ever recorded and it is never overwritten;
      afterwards the same decision is accepted again without effect, any other is
      refused without effect, and exit reports are inert. */
  lemma OneDecision(r: Row, run: Run, v: Verdict, report: ExitReport, f: Facts)
    requires Checks(r) && f.loads
    ensures Count(Decides, Entries(r, run)) <= 1
    ensures var r' := Last(r, run);
      r.decision != "" ==>
        && r'.decision == r.decision
        && SubmitSpec(r', Accepted(v), f) == Outcome([], v.canonical != r.decision)
        && ExitSpec(r', report, f) == Outcome([], false)
  {
    TableIsSound();
    CallsAreProper();
    RunsAreLegal(TABLE, Calls, r, run);
    DecisionsFillABlank();
    WrittenOnce(TABLE, DecisionOf, Decides, r, Entries(r, run));
  }

  /** A decision that leaves the row `decided`. */
  predicate Assigns(e: Event) {
    e.DecisionRecorded? && !e.safeStop
  }

  lemma {:induction false} ConsumedOnlyIfDecided(r: Row, es: seq<Event>, j: nat) returns (i: nat)
    requires Legal(TABLE, r, es) && r.status != Decided
    requires j < |es| && es[j].RepairConsumed?
    ensures i < j && Assigns(es[i])
    decreases es
  {
    if Assigns(es[0]) {
      i := 0;
    } else {
      var k := ConsumedOnlyIfDecided(Apply(r, es[0]), es[1..], j - 1);
      i := k + 1;
    }
  }

  lemma EntriesAreLegal(r: Row, run: Run)
    requires Checks(r)
    ensures Legal(TABLE, r, Entries(r, run))
  {
    TableIsSound();
    CallsAreProper();
    RunsAreLegal(TABLE, Calls, r, run);
  }

  lemma WakeIsFenced(run: Run, j: nat)
    requires j < |Entries(OPENED, run)| && Entries(OPENED, run)[j].WorkerWoken?
    ensures j > 0 && Entries(OPENED, run)[j - 1].RepairConsumed?
  {
    var marks := Marks(WAKE, Entries(OPENED, run));
    EffectsFireOnce(run);
    assert marks[j] == Fire;
    assert marks[j - 1] == Fence;
  }

  /** No worker is ever woken without a recorded decision that assigns recovery. */
  lemma WakeFollowsDecision(run: Run, j: nat)
    requires j < |Entries(OPENED, run)| && Entries(OPENED, run)[j].WorkerWoken?
    ensures exists i | 0 <= i < j :: Assigns(Entries(OPENED, run)[i])
  {
    WakeIsFenced(run, j);
    EntriesAreLegal(OPENED, run);
    var i := ConsumedOnlyIfDecided(OPENED, Entries(OPENED, run), j - 1);
  }

  // ----- Absorption and progress

  /** Terminal rows absorb: no run changes them or performs any effect. */
  lemma {:induction false} TerminalAbsorbs(r: Row, run: Run)
    requires Checks(r) && StatusRank(r.status) == 0
    ensures Last(r, run) == r.(leased := Last(r, run).leased)
    ensures forall e | e in Entries(r, run) :: e.CallEnded? || e.AdmissionMoved?
    decreases run
  {
    if run != [] {
      var es := Surviving(Calls, r, run[0]);
      assert Calls(r, run[0].move) in {[], [AdmissionMoved]};
      assert es in {[], [AdmissionMoved]};
      TerminalAbsorbs(Replay(TABLE, r, es), run[1..]);
    }
  }

  lemma {:induction false} StatusNeverRises(r: Row, es: seq<Event>)
    requires Checks(r) && Legal(TABLE, r, es)
    ensures StatusRank(Replay(TABLE, r, es).status) <= StatusRank(r.status)
    decreases es
  {
    if es != [] {
      StepIsSound(r, es[0]);
      StatusNeverRises(Apply(r, es[0]), es[1..]);
    }
  }

  /** With store calls that succeed, one reconcile moves a requested or decided row
      strictly forward exactly when the admission still holds the lease or the call
      stops before it needs it. */
  lemma ReconcileAdvances(r: Row, f: Facts)
    requires Checks(r) && (r.status == Requested || r.status == Decided)
    requires forall e :: !f.faulty(e)
    ensures StatusRank(Replay(TABLE, r, Calls(r, Reconcile(f))).status) < StatusRank(r.status) <==>
            r.leased || (if r.status == Requested then !(f.launcher && f.exact && f.preflight) else !f.waker)
  {
    var es := Calls(r, Reconcile(f));
    if es != [] {
      CallIsProper(r, Reconcile(f));
      StepIsSound(r, es[0]);
      StatusNeverRises(Apply(r, es[0]), es[1..]);
    }
  }
}
