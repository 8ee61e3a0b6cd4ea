/** How calls and connections of the broker come to their ends: every end has the one
    deed behind it that accounts for it, and every such deed has its end. */
module BrokerFates {
  import opened Options
  import opened BrokerCore
  import opened BrokerRuns

  /** What may happen to a call or a connection in one step. */
  datatype Deed =
    | WriteLost(call: Call)                       // its write failed on its own account
    | GivenUp(call: Call)                         // its context ended, in the write or in the wait
    | Heard(conn: Conn, call: Call, reply: Reply) // a matching frame was read
    | TakenDown(conn: Conn)                       // replaced, at its end, or dropped behind a lost write

  predicate Does(s: State, a: Step, d: Deed) {
    match d
    case WriteLost(id) => a == WriteFailed(id, false) && At(s, id, Sending)
    case GivenUp(id) => (a == WriteFailed(id, true) && At(s, id, Sending)) || (a == ContextEnds(id) && At(s, id, Waiting))
    case Heard(k, id, reply) => a == Hear(k, id, reply) && k in s.adopted && id in s.core.pending
    case TakenDown(k) =>
      && s.core.conn == Some(k)
      && (|| (a.Hello? && a.conn !in s.adopted)
          || (a == ReaderEnds(k) && k in s.adopted)
          || (a.DropAfterWrite? && At(s, a.call, Disconnecting) && s.callers[a.call].conn == k))
  }

  predicate Once(s: State, steps: seq<Step>, d: Deed)
    decreases steps
  {
    steps != [] && (Does(s, steps[0], d) || Once(Next(s, steps[0]), steps[1..], d))
  }

  // ----- A caller's end

  /** On its way to `NoRuntime`, or there. */
  predicate Losing(s: State, id: Call) {
    && id in s.callers
    && match s.callers[id].phase
       case Rejected(cancelled) => !cancelled
       case Disconnecting | Flushing(_) => true
       case Returned(result) => result.NoRuntime?
       case _ => false
  }

  /** On its way to its context's error, or there. */
  predicate Quitting(s: State, id: Call) {
    && id in s.callers
    && match s.callers[id].phase
       case Rejected(cancelled) => cancelled
       case Cancelling => true
       case Returned(result) => result.Cancelled?
       case _ => false
  }

  lemma EndStep(s: State, a: Step, id: Call)
    ensures Losing(Next(s, a), id) <==> Losing(s, id) || Does(s, a, WriteLost(id))
    ensures Quitting(Next(s, a), id) <==> Quitting(s, id) || Does(s, a, GivenUp(id))
  {
  }

  lemma {:induction false} EndsFrom(s: State, steps: seq<Step>, id: Call)
    ensures Losing(Run(s, steps), id) <==> Losing(s, id) || Once(s, steps, WriteLost(id))
    ensures Quitting(Run(s, steps), id) <==> Quitting(s, id) || Once(s, steps, GivenUp(id))
    decreases steps
  {
    if steps != [] {
      EndStep(s, steps[0], id);
      EndsFrom(Next(s, steps[0]), steps[1..], id);
    }
  }

  /** Over every run, a caller is on the way to dropping its connection, or back with no
      runtime, exactly when its write failed while its context was live; and on the way
      to its context's error, or back with it, exactly when that context ended in the
      write or in the wait. */
  lemma EndsHaveTheirDeeds(steps: seq<Step>, id: Call)
    ensures Losing(Run(INITIAL, steps), id) <==> Once(INITIAL, steps, WriteLost(id))
    ensures Quitting(Run(INITIAL, steps), id) <==> Once(INITIAL, steps, GivenUp(id))
  {
    EndsFrom(INITIAL, steps, id);
  }

  // ----- A connection's end

  lemma CurrentStep(s: State, a: Step, k: Conn)
    requires s.core.conn == Some(k) && k in s.adopted
    ensures Next(s, a).core.conn == Some(k) <==> !Does(s, a, TakenDown(k))
    ensures k in Next(s, a).adopted
  {
  }

  /** A current connection stays current exactly until it is replaced, its reader ends,
      or a caller whose own write was lost on it drops it. */
  lemma {:induction false} CurrentUntilTakenDown(s: State, steps: seq<Step>, k: Conn)
    requires s.core.conn == Some(k) && k in s.adopted
    ensures Run(s, steps).core.conn == Some(k) <==> !Once(s, steps, TakenDown(k))
    decreases steps
  {
    if steps != [] {
      var s' := Next(s, steps[0]);
      CurrentStep(s, steps[0], k);
      if s'.core.conn == Some(k) {
        CurrentUntilTakenDown(s', steps[1..], k);
      } else {
        NeverCurrentAgain(s', steps[1..], k);
      }
    }
  }

  ghost predicate NobodyDrops(s: State) {
    forall id | id in s.callers :: s.callers[id].phase != Rejected(false) && s.callers[id].phase != Disconnecting
  }

  predicate Gentle(a: Step) {
    !a.Hello? && !a.ReaderEnds? && !(a.WriteFailed? && !a.cancelled)
  }

  lemma GentleStep(s: State, a: Step)
    requires NobodyDrops(s) && Gentle(a)
    ensures Next(s, a).core.conn == s.core.conn && NobodyDrops(Next(s, a))
  {
  }

  lemma {:induction false} GentleRunsKeepTheConnection(s: State, steps: seq<Step>)
    requires NobodyDrops(s) && forall a | a in steps :: Gentle(a)
    ensures Run(s, steps).core.conn == s.core.conn && NobodyDrops(Run(s, steps))
    decreases steps
  {
    if steps != [] {
      GentleStep(s, steps[0]);
      assert forall a | a in steps[1..] :: a in steps;
      GentleRunsKeepTheConnection(Next(s, steps[0]), steps[1..]);
    }
  }

  /** However many writes are cancelled, and whatever their callers do then, the
      connection stays, as long as nobody says hello, no reader ends and no write fails
      on its own account. */
  lemma CancelledWriteKeepsTheConnection(s: State, id: Call, steps: seq<Step>)
    requires NobodyDrops(s) && forall a | a in steps :: Gentle(a)
    ensures Run(s, [WriteFailed(id, true)] + steps).core.conn == s.core.conn
  {
    GentleRunsKeepTheConnection(s, [WriteFailed(id, true)] + steps);
  }

  /** A cancelled write ends with its context's error and takes nothing but its own call
      out of anything. */
  lemma CancelledWriteIsItsOwn(s: State, id: Call)
    requires At(s, id, Sending)
    ensures Run(s, [WriteFailed(id, true), Withdraw(id), DropAfterWrite(id)])
      == Move(s.(core := s.core.(pending := s.core.pending - {id})), id, Returned(Cancelled))
  {
    ThreeSteps(s, WriteFailed(id, true), Withdraw(id), DropAfterWrite(id));
    CancelledWithdraws(s, Next(s, WriteFailed(id, true)), id);
  }

  lemma CancelledWithdraws(s: State, s1: State, id: Call)
    requires id in s.callers && s1 == Move(s, id, Rejected(true))
    ensures var t := Move(s.(core := s.core.(pending := s.core.pending - {id})), id, Returned(Cancelled));
      Next(s1, Withdraw(id)) == t && Next(t, DropAfterWrite(id)) == t
  {
    assert Next(s1, Withdraw(id)).callers == s.callers[id := s.callers[id].(phase := Returned(Cancelled))];
  }

  lemma ThreeSteps(s: State, x: Step, y: Step, z: Step)
    ensures Run(s, [x, y, z]) == Next(Next(Next(s, x), y), z)
  {
    assert [x, y, z][1..] == [y, z] && [y, z][1..] == [z] && [z][1..] == [];
    assert Run(Next(Next(s, x), y), [z]) == Run(Next(Next(Next(s, x), y), z), []);
  }

  /** A caller that has dropped its connection finds it gone for good. */
  ghost predicate DroppedIsGone(s: State) {
    forall id | id in s.callers && HasDropped(s.callers[id].phase) ::
      s.callers[id].conn in s.adopted && s.core.conn != Some(s.callers[id].conn)
  }

  predicate HasDropped(p: Phase) {
    p.Flushing? || p == Returned(NoRuntime)
  }

  lemma {:induction false} GoneFrom(s: State, steps: seq<Step>)
    requires Inv(s) && DroppedIsGone(s)
    ensures DroppedIsGone(Run(s, steps))
    decreases steps
  {
    if steps != [] {
      StepKeepsInv(s, steps[0]);
      GoneStep(s, steps[0]);
      GoneFrom(Next(s, steps[0]), steps[1..]);
    }
  }

  lemma GoneStep(s: State, a: Step)
    requires Inv(s) && DroppedIsGone(s)
    ensures DroppedIsGone(Next(s, a))
  {
  }

  /** Over every run: once a caller whose write was lost has dropped its connection, that
      connection is never current again; and dropping is all it takes. */
  lemma LostWriteEndsTheConnection(steps: seq<Step>, id: Call)
    ensures var s := Run(INITIAL, steps);
      && (id in s.callers && HasDropped(s.callers[id].phase) ==> s.core.conn != Some(s.callers[id].conn))
      && (At(s, id, Sending) ==>
            var t := Run(s, [WriteFailed(id, false), Withdraw(id), DropAfterWrite(id)]);
            t.core.conn != Some(s.callers[id].conn) && id in t.callers && t.callers[id].phase.Flushing?)
  {
    GoneFrom(INITIAL, steps);
    ThreeSteps(Run(INITIAL, steps), WriteFailed(id, false), Withdraw(id), DropAfterWrite(id));
  }

  // ----- Where outcomes come from

  /** The outcome is on its way to the call, or delivered. */
  ghost predicate Bears(s: State, id: Call, o: Outcome) {
    || (exists p | p in s.parcels :: p.call == id && p.outcome == o)
    || (id in s.box && s.box[id] == o)
    || At(s, id, Returned(Got(o)))
  }

  function Source(id: Call, o: Outcome): Deed {
    match o
    case Answer(k, reply) => Heard(k, id, reply)
    case Unavailable(k) => TakenDown(k)
  }

  lemma BearsStep(s: State, a: Step, id: Call, o: Outcome)
    requires Bears(Next(s, a), id, o)
    ensures Bears(s, id, o) || Does(s, a, Source(id, o))
  {
  }

  lemma {:induction false} BearsFrom(s: State, steps: seq<Step>, id: Call, o: Outcome)
    requires Bears(Run(s, steps), id, o)
    ensures Bears(s, id, o) || Once(s, steps, Source(id, o))
    decreases steps
  {
    if steps != [] {
      BearsFrom(Next(s, steps[0]), steps[1..], id, o);
      if Bears(Next(s, steps[0]), id, o) {
        BearsStep(s, steps[0], id, o);
      }
    }
  }

  /** Over every run a result is never made up: an answer repeats, word for word, a frame
      read for that call, and an unavailable one stands for a connection taken down. */
  lemma OutcomesHaveTheirDeeds(steps: seq<Step>, id: Call, o: Outcome)
    requires At(Run(INITIAL, steps), id, Returned(Got(o)))
    ensures Once(INITIAL, steps, Source(id, o))
  {
    BearsFrom(INITIAL, steps, id, o);
  }

  // ----- What a caller can rely on when it comes back

  /** While the caller flushes, each call it took down is still in its hands or already
      has its outcome; once it is back, all of them have. */
  ghost predicate FlushKept(s: State, id: Call, h: Hand, taken: set<Call>) {
    && h < s.hands && id in s.callers
    && (s.callers[id].phase == Flushing(h) || s.callers[id].phase == Returned(NoRuntime))
    && (forall c | c in taken :: c in s.sent || (exists p | p in s.parcels :: p.call == c && p.hand == h))
    && (s.callers[id].phase == Returned(NoRuntime) ==> taken <= s.sent)
  }

  lemma FlushStep(s: State, a: Step, id: Call, h: Hand, taken: set<Call>)
    requires FlushKept(s, id, h, taken)
    ensures FlushKept(Next(s, a), id, h, taken)
  {
    var s' := Next(s, a);
    forall c | c in taken
      ensures c in s'.sent || (exists p | p in s'.parcels :: p.call == c && p.hand == h)
    {
      if c !in s.sent {
        var p :| p in s.parcels && p.call == c && p.hand == h;
        assert p in s'.parcels || c in s'.sent;
      }
    }
  }

  lemma {:induction false} FlushRun(s: State, steps: seq<Step>, id: Call, h: Hand, taken: set<Call>)
    requires FlushKept(s, id, h, taken)
    ensures FlushKept(Run(s, steps), id, h, taken)
    decreases steps
  {
    if steps != [] {
      FlushStep(s, steps[0], id, h, taken);
      FlushRun(Next(s, steps[0]), steps[1..], id, h, taken);
    }
  }

  /** A caller whose write was lost returns only when every call its connection took down
      with it has been sent its outcome. */
  lemma ReturnsAfterTheOthers(s: State, id: Call, steps: seq<Step>)
    requires At(s, id, Disconnecting)
    requires At(Run(Next(s, DropAfterWrite(id)), steps), id, Returned(NoRuntime))
    ensures Taken(s.core, s.callers[id].conn) <= Run(Next(s, DropAfterWrite(id)), steps).sent
  {
    var s1 := Next(s, DropAfterWrite(id));
    var k, taken := s.callers[id].conn, Taken(s.core, s.callers[id].conn);
    forall c | c in taken
      ensures exists p | p in s1.parcels :: p.call == c && p.hand == s.hands
    {
      assert Parcel(s.hands, c, Unavailable(k)) in s1.parcels;
    }
    FlushRun(s1, steps, id, s.hands, taken);
  }

  /** Past its write: waiting, giving up after it, or back with an outcome. */
  predicate Written(p: Phase) {
    p.Waiting? || p.Cancelling? || (p.Returned? && p.result.Got?)
  }

  ghost predicate WaitersWritten(s: State) {
    forall id | id in s.callers && Written(s.callers[id].phase) :: (s.callers[id].conn, id) in s.wire
  }

  lemma WrittenStep(s: State, a: Step)
    requires WaitersWritten(s)
    ensures WaitersWritten(Next(s, a))
  {
  }

  lemma {:induction false} WrittenFrom(s: State, steps: seq<Step>)
    requires WaitersWritten(s)
    ensures WaitersWritten(Run(s, steps))
    decreases steps
  {
    if steps != [] {
      WrittenStep(s, steps[0]);
      WrittenFrom(Next(s, steps[0]), steps[1..]);
    }
  }

  /** Nobody waits for, or gets, the outcome of a command that did not go out on its
      connection. */
  lemma OnlyWrittenCommandsWait(steps: seq<Step>, id: Call)
    ensures var s := Run(INITIAL, steps);
      id in s.callers && Written(s.callers[id].phase) ==> (s.callers[id].conn, id) in s.wire
  {
    WrittenFrom(INITIAL, steps);
  }
}
