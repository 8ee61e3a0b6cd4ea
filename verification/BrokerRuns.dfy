/** Every interleaving of the broker's goroutines: callers, connection readers, and
    whoever is about to send an outcome. A step is one section under the mutex, one
    channel operation, or one step of a caller outside both. */
module BrokerRuns {
  import opened Options
  import opened BrokerCore

  type Hand = nat
  type Reply = int

  datatype Outcome =
    | Answer(from: Conn, reply: Reply)
    | Unavailable(lost: Conn)

  /** An outcome a goroutine has taken out of `pending` and is about to send. */
  datatype Parcel = Parcel(hand: Hand, call: Call, outcome: Outcome)

  datatype Result = Got(outcome: Outcome) | Cancelled | NoRuntime

  datatype Phase =
    | Sending                       // registered, writing its frame
    | Rejected(cancelled: bool)     // the write failed, about to remove itself
    | Disconnecting                 // removed itself, about to drop the connection
    | Flushing(hand: Hand)          // failing the calls it took down
    | Waiting                       // in select
    | Cancelling                    // select saw the context end, about to remove itself
    | Returned(result: Result)

  datatype Caller = Caller(conn: Conn, phase: Phase)

  /** `box` holds the value buffered in a call's channel, `sent` the channels ever
      sent to, `wire` the request ids written to each connection. */
  datatype State = State(
    core: Core, callers: map<Call, Caller>, parcels: set<Parcel>,
    box: map<Call, Outcome>, sent: set<Call>, hands: nat,
    adopted: set<Conn>, wire: set<(Conn, Call)>)

  const INITIAL := State(EMPTY, map[], {}, map[], {}, 0, {}, {})

  datatype Step =
    | Begin(call: Call)
    | Transmit(call: Call)
    | WriteDone(call: Call)
    | WriteFailed(call: Call, cancelled: bool)
    | Withdraw(call: Call)
    | DropAfterWrite(call: Call)
    | FinishFlush(call: Call)
    | ContextEnds(call: Call)
    | Abandon(call: Call)
    | Receive(call: Call)
    | Hello(conn: Conn)
    | Hear(conn: Conn, id: Call, reply: Reply)
    | ReaderEnds(conn: Conn)
    | Send(parcel: Parcel)

  predicate At(s: State, id: Call, p: Phase) {
    id in s.callers && s.callers[id].phase == p
  }

  function Move(s: State, id: Call, p: Phase): State
    requires id in s.callers
  {
    s.(callers := s.callers[id := s.callers[id].(phase := p)])
  }

  function Failures(calls: set<Call>, h: Hand, lost: Conn): set<Parcel> {
    set id | id in calls :: Parcel(h, id, Unavailable(lost))
  }

  /** Drop connection `k` if it is current: its pending calls go to a fresh hand. */
  function Drop(s: State, k: Conn): State {
    s.(core := Dropped(s.core, k), hands := s.hands + 1,
       parcels := s.parcels + Failures(Taken(s.core, k), s.hands, k))
  }

  function Next(s: State, a: Step): State {
    match a
    case Begin(id) =>
      if id in s.callers || s.core.conn.None? then s
      else s.(core := Registered(s.core, id),
              callers := s.callers[id := Caller(s.core.conn.value, Sending)])
    case Transmit(id) =>
      if At(s, id, Sending) then s.(wire := s.wire + {(s.callers[id].conn, id)}) else s
    case WriteDone(id) =>
      if At(s, id, Sending) && (s.callers[id].conn, id) in s.wire then Move(s, id, Waiting) else s
    case WriteFailed(id, cancelled) =>
      if At(s, id, Sending) then Move(s, id, Rejected(cancelled)) else s
    case Withdraw(id) =>
      if !(At(s, id, Rejected(true)) || At(s, id, Rejected(false))) then s
      else Move(s.(core := Removed(s.core, id)), id,
                if At(s, id, Rejected(true)) then Returned(Cancelled) else Disconnecting)
    case DropAfterWrite(id) =>
      if At(s, id, Disconnecting) then Move(Drop(s, s.callers[id].conn), id, Flushing(s.hands)) else s
    case FinishFlush(id) =>
      if id in s.callers && s.callers[id].phase.Flushing?
         && (forall p | p in s.parcels :: p.hand != s.callers[id].phase.hand)
      then Move(s, id, Returned(NoRuntime)) else s
    case ContextEnds(id) =>
      if At(s, id, Waiting) then Move(s, id, Cancelling) else s
    case Abandon(id) =>
      if At(s, id, Cancelling) then Move(s.(core := Removed(s.core, id)), id, Returned(Cancelled)) else s
    case Receive(id) =>
      if At(s, id, Waiting) && id in s.box
      then Move(s.(box := s.box - {id}), id, Returned(Got(s.box[id]))) else s
    case Hello(k) =>
      if k in s.adopted then s
      else
        var failed := if s.core.conn.Some? then Failures(s.core.pending, s.hands, s.core.conn.value) else {};
        s.(core := Adopted(k), adopted := s.adopted + {k}, hands := s.hands + 1,
           parcels := s.parcels + failed)
    case Hear(k, id, reply) =>
      if k in s.adopted && id in s.core.pending
      then s.(core := Removed(s.core, id), hands := s.hands + 1,
              parcels := s.parcels + {Parcel(s.hands, id, Answer(k, reply))}) else s
    case ReaderEnds(k) =>
      if k in s.adopted then Drop(s, k) else s
    case Send(p) =>
      if p in s.parcels
      then s.(parcels := s.parcels - {p}, box := s.box[p.call := p.outcome], sent := s.sent + {p.call}) else s
  }

  function Run(s: State, steps: seq<Step>): State
    decreases steps
  {
    if steps == [] then s else Run(Next(s, steps[0]), steps[1..])
  }

  // ----- The invariant

  /** A caller that has neither returned nor removed itself. */
  predicate Expecting(s: State, id: Call) {
    id in s.callers &&
    match s.callers[id].phase
    case Sending | Waiting | Cancelling | Rejected(_) => true
    case _ => false
  }

  ghost predicate Held(s: State, id: Call) {
    exists p | p in s.parcels :: p.call == id
  }

  ghost predicate PendingOwned(s: State) {
    forall id | id in s.core.pending ::
      Expecting(s, id) && s.core.conn == Some(s.callers[id].conn) && id !in s.sent
  }

  ghost predicate ParcelsFresh(s: State) {
    forall p | p in s.parcels ::
      p.call in s.callers && p.call !in s.sent && p.call !in s.core.pending && p.hand < s.hands
  }

  ghost predicate ParcelsUnique(s: State) {
    forall p, q | p in s.parcels && q in s.parcels && p.call == q.call :: p == q
  }

  ghost predicate BoxesSent(s: State) {
    && (forall id | id in s.box :: id in s.sent)
    && (forall id | id in s.sent :: id in s.callers)
  }

  ghost predicate NoneLost(s: State) {
    forall id | Expecting(s, id) :: id in s.core.pending || Held(s, id) || id in s.box
  }

  /** Whoever failed a call was that call's own connection going away. */
  ghost predicate LossesOwn(s: State) {
    && (forall p | p in s.parcels && p.outcome.Unavailable? && p.call in s.callers ::
          p.outcome.lost == s.callers[p.call].conn)
    && (forall id | id in s.box && s.box[id].Unavailable? && id in s.callers ::
          s.box[id].lost == s.callers[id].conn)
    && (forall id | id in s.callers && GotLoss(s.callers[id].phase) ::
          s.callers[id].phase.result.outcome.lost == s.callers[id].conn)
  }

  predicate GotLoss(p: Phase) {
    p.Returned? && p.result.Got? && p.result.outcome.Unavailable?
  }

  ghost predicate ConnsKnown(s: State) {
    && (s.core.conn.Some? ==> s.core.conn.value in s.adopted)
    && (forall id | id in s.callers :: s.callers[id].conn in s.adopted)
    && (forall w | w in s.wire :: w.1 in s.callers && w.0 == s.callers[w.1].conn)
  }

  ghost predicate Inv(s: State) {
    && PendingOwned(s) && ParcelsFresh(s) && ParcelsUnique(s) && BoxesSent(s)
    && NoneLost(s) && LossesOwn(s) && ConnsKnown(s)
  }

  lemma StepKeepsPendingOwned(s: State, a: Step)
    requires Inv(s)
    ensures PendingOwned(Next(s, a))
  {
  }

  lemma StepKeepsParcelsFresh(s: State, a: Step)
    requires Inv(s)
    ensures ParcelsFresh(Next(s, a))
  {
  }

  lemma StepKeepsParcelsUnique(s: State, a: Step)
    requires Inv(s)
    ensures ParcelsUnique(Next(s, a))
  {
  }

  lemma StepKeepsBoxes(s: State, a: Step)
    requires Inv(s)
    ensures BoxesSent(Next(s, a)) && ConnsKnown(Next(s, a))
  {
  }

  lemma WitnessHeld(s: State, id: Call, p: Parcel)
    requires p in s.parcels && p.call == id
    ensures Held(s, id)
  {
  }

  lemma FailuresHeld(s: State, calls: set<Call>, h: Hand, lost: Conn, id: Call)
    requires id in calls && Failures(calls, h, lost) <= s.parcels
    ensures Held(s, id)
  {
    WitnessHeld(s, id, Parcel(h, id, Unavailable(lost)));
  }

  /** An outcome in somebody's hands stays there until it is in its channel. */
  lemma HeldUntilSent(s: State, a: Step, id: Call)
    requires Inv(s) && Held(s, id)
    ensures Held(Next(s, a), id) || id in Next(s, a).box
  {
    var p :| p in s.parcels && p.call == id;
    if a != Send(p) {
      WitnessHeld(Next(s, a), id, p);
    }
  }

  /** A call taken out of `pending` by anyone but itself lands in somebody's hands. */
  lemma PendingUntilHeld(s: State, a: Step, id: Call)
    requires Inv(s) && id in s.core.pending && Expecting(Next(s, a), id)
    ensures id in Next(s, a).core.pending || Held(Next(s, a), id)
  {
    var s' := Next(s, a);
    if id !in s'.core.pending {
      match a {
        case Hello(k) =>
          FailuresHeld(s', s.core.pending, s.hands, s.core.conn.value, id);
        case Hear(k, _, reply) =>
          WitnessHeld(s', id, Parcel(s.hands, id, Answer(k, reply)));
        case DropAfterWrite(other) =>
          FailuresHeld(s', s.core.pending, s.hands, s.callers[other].conn, id);
        case ReaderEnds(k) =>
          FailuresHeld(s', s.core.pending, s.hands, k, id);
        case _ =>
      }
    }
  }

  lemma BoxUntilReturned(s: State, a: Step, id: Call)
    requires Inv(s) && id in s.box && Expecting(Next(s, a), id)
    ensures id in Next(s, a).box
  {
  }

  lemma ExpectingBegins(s: State, a: Step, id: Call)
    requires Inv(s) && Expecting(Next(s, a), id) && !Expecting(s, id)
    ensures id in Next(s, a).core.pending
  {
  }

  lemma StepLosesNone(s: State, a: Step)
    requires Inv(s)
    ensures NoneLost(Next(s, a))
  {
    var s' := Next(s, a);
    forall id | Expecting(s', id)
      ensures id in s'.core.pending || Held(s', id) || id in s'.box
    {
      if !Expecting(s, id) {
        ExpectingBegins(s, a, id);
      } else if id in s.core.pending {
        PendingUntilHeld(s, a, id);
      } else if Held(s, id) {
        HeldUntilSent(s, a, id);
      } else {
        BoxUntilReturned(s, a, id);
      }
    }
  }

  lemma StepKeepsLosses(s: State, a: Step)
    requires Inv(s)
    ensures LossesOwn(Next(s, a))
  {
  }

  lemma StepKeepsInv(s: State, a: Step)
    requires Inv(s)
    ensures Inv(Next(s, a))
  {
    StepKeepsPendingOwned(s, a);
    StepKeepsParcelsFresh(s, a);
    StepKeepsParcelsUnique(s, a);
    StepKeepsBoxes(s, a);
    StepLosesNone(s, a);
    StepKeepsLosses(s, a);
  }

  lemma {:induction false} RunKeepsInv(s: State, steps: seq<Step>)
    requires Inv(s)
    ensures Inv(Run(s, steps))
    decreases steps
  {
    if steps != [] {
      StepKeepsInv(s, steps[0]);
      RunKeepsInv(Next(s, steps[0]), steps[1..]);
    }
  }

  // ----- The broker's sections are the steps' shared part

  /** The calls a step takes out of `pending` to give them an outcome. */
  function HandedOver(s: State, a: Step): set<Call> {
    match a
    case Hear(k, id, _) => if k in s.adopted && id in s.core.pending then {id} else {}
    case Hello(k) => if k in s.adopted then {} else s.core.pending
    case ReaderEnds(k) => if k in s.adopted then Taken(s.core, k) else {}
    case DropAfterWrite(id) => if At(s, id, Disconnecting) then Taken(s.core, s.callers[id].conn) else {}
    case _ => {}
  }

  /** One step, through the broker's own methods. */
  method Perform(b: Broker, s: State, a: Step) returns (taken: set<Call>)
    requires b.View() == s.core
    modifies b
    ensures b.View() == Next(s, a).core
    ensures taken == HandedOver(s, a)
  {
    taken := {};
    match a {
      case Begin(id) =>
        if id !in s.callers {
          var current := b.Register(id);
        }
      case Withdraw(id) =>
        if At(s, id, Rejected(true)) || At(s, id, Rejected(false)) {
          b.RemovePending(id);
        }
      case Abandon(id) =>
        if At(s, id, Cancelling) {
          b.RemovePending(id);
        }
      case DropAfterWrite(id) =>
        if At(s, id, Disconnecting) {
          taken := b.Disconnect(s.callers[id].conn);
        }
      case ReaderEnds(k) =>
        if k in s.adopted {
          taken := b.Disconnect(k);
        }
      case Hello(k) =>
        if k !in s.adopted {
          var previous;
          previous, taken := b.Adopt(k);
        }
      case Hear(k, id, _) =>
        if k in s.adopted {
          var found := b.TakeOne(id);
          taken := if found then {id} else {};
        }
      case _ =>
    }
  }

  /** A whole run through the broker: its fields end as the run's shared state does. */
  method PerformAll(steps: seq<Step>) returns (b: Broker)
    ensures fresh(b) && b.View() == Run(INITIAL, steps).core
  {
    b := new Broker();
    var state := INITIAL;
    var i := 0;
    while i < |steps|
      invariant i <= |steps| && fresh(b)
      invariant b.View() == state.core && Run(state, steps[i..]) == Run(INITIAL, steps)
    {
      assert steps[i..][0] == steps[i] && steps[i..][1..] == steps[i + 1..];
      var taken := Perform(b, state, steps[i]);
      state := Next(state, steps[i]);
      i := i + 1;
    }
  }

  /** The outcome a step hands over. */
  function Handing(s: State, a: Step): Outcome {
    match a
    case Hear(k, _, reply) => Answer(k, reply)
    case ReaderEnds(k) => Unavailable(k)
    case DropAfterWrite(id) => Unavailable(if id in s.callers then s.callers[id].conn else 0)
    case _ => Unavailable(if s.core.conn.Some? then s.core.conn.value else 0)
  }

  /** What a step hands over is what it puts into somebody's hands. */
  lemma HandedOverIsHeld(s: State, a: Step, id: Call)
    requires Inv(s)
    ensures id in HandedOver(s, a) <==> exists p | p in Next(s, a).parcels && p !in s.parcels :: p.call == id
  {
    var s' := Next(s, a);
    if id in HandedOver(s, a) {
      var p := Parcel(s.hands, id, Handing(s, a));
      assert p in s'.parcels && p !in s.parcels;
    }
  }

  // ----- No lost waiter

  /** In every reachable state a call that still expects its outcome is in exactly
      one place: pending, in the hands of one goroutine about to send, or buffered
      in its own channel. */
  lemma NoLostWaiter(steps: seq<Step>, id: Call)
    requires Expecting(Run(INITIAL, steps), id)
    ensures var s := Run(INITIAL, steps);
      && (id in s.core.pending || Held(s, id) || id in s.box)
      && (id in s.core.pending ==> !Held(s, id) && id !in s.box)
      && (id in s.box ==> !Held(s, id))
      && (forall p, q | p in s.parcels && q in s.parcels && p.call == q.call == id :: p == q)
  {
    RunKeepsInv(INITIAL, steps);
  }

  /** Nobody waits on a dead bridge: with no connection and no send under way, every
      call that still expects an outcome finds it buffered. */
  lemma DisconnectedCallsAreAnswered(steps: seq<Step>, id: Call)
    requires var s := Run(INITIAL, steps); s.core.conn.None? && s.parcels == {} && Expecting(s, id)
    ensures id in Run(INITIAL, steps).box
  {
    RunKeepsInv(INITIAL, steps);
  }

  /** How many values a run puts into one call's channel. */
  function Deliveries(s: State, steps: seq<Step>, id: Call): nat
    decreases steps
  {
    if steps == [] then 0
    else
      (if steps[0].Send? && steps[0].parcel in s.parcels && steps[0].parcel.call == id then 1 else 0)
      + Deliveries(Next(s, steps[0]), steps[1..], id)
  }

  lemma DeliveryMarks(s: State, a: Step, id: Call)
    requires Inv(s)
    ensures id in s.sent ==> id in Next(s, a).sent && !(a.Send? && a.parcel in s.parcels && a.parcel.call == id)
    ensures a.Send? && a.parcel in s.parcels && a.parcel.call == id ==> id in Next(s, a).sent
  {
  }

  lemma {:induction false} DeliveriesBounded(s: State, steps: seq<Step>, id: Call)
    requires Inv(s)
    ensures Deliveries(s, steps, id) <= if id in s.sent then 0 else 1
    decreases steps
  {
    if steps != [] {
      var s' := Next(s, steps[0]);
      StepKeepsInv(s, steps[0]);
      DeliveryMarks(s, steps[0], id);
      DeliveriesBounded(s', steps[1..], id);
    }
  }

  /** Every result channel gets at most one value in its life, so a send finds the
      channel's one slot empty and never blocks. */
  lemma OneValuePerChannel(steps: seq<Step>, id: Call)
    ensures Deliveries(INITIAL, steps, id) <= 1
    ensures forall p | p in Run(INITIAL, steps).parcels :: p.call !in Run(INITIAL, steps).box
  {
    DeliveriesBounded(INITIAL, steps, id);
    RunKeepsInv(INITIAL, steps);
  }

  // ----- Replaced connections

  /** Pending calls all belong to the current connection, so no connection means
      nothing pending. */
  lemma PendingIsCurrent(steps: seq<Step>, id: Call)
    requires id in Run(INITIAL, steps).core.pending
    ensures var s := Run(INITIAL, steps);
      id in s.callers && s.core.conn == Some(s.callers[id].conn)
  {
    RunKeepsInv(INITIAL, steps);
  }

  lemma StaysReplaced(s: State, a: Step, k: Conn)
    requires k in s.adopted && s.core.conn != Some(k)
    ensures Next(s, a).core.conn != Some(k) && k in Next(s, a).adopted
  {
  }

  lemma {:induction false} NeverCurrentAgain(s: State, steps: seq<Step>, k: Conn)
    requires k in s.adopted && s.core.conn != Some(k)
    ensures Run(s, steps).core.conn != Some(k) && k in Run(s, steps).adopted
    decreases steps
  {
    if steps != [] {
      StaysReplaced(s, steps[0], k);
      NeverCurrentAgain(Next(s, steps[0]), steps[1..], k);
    }
  }

  lemma DropOfReplaced(t: State, k: Conn)
    requires t.core.conn != Some(k)
    ensures Drop(t, k) == t.(hands := t.hands + 1)
  {
    assert Failures({}, t.hands, k) == {};
    assert t.parcels + Failures({}, t.hands, k) == t.parcels;
  }

  /** Once connection `k` has been replaced by `k'`, neither the end of its reader nor
      a failed write on it ever disconnects, fails or answers anything again: only
      the caller whose write failed moves on. */
  lemma ReplacedConnectionIsInert(before: seq<Step>, after: seq<Step>, k: Conn, k': Conn, id: Call)
    requires var s := Run(INITIAL, before); s.core.conn == Some(k) && k' !in s.adopted
    ensures var t := Run(Next(Run(INITIAL, before), Hello(k')), after);
      && Next(t, ReaderEnds(k)) == t.(hands := t.hands + 1)
      && (At(t, id, Disconnecting) && t.callers[id].conn == k ==>
            Next(t, DropAfterWrite(id)) == Move(t.(hands := t.hands + 1), id, Flushing(t.hands)))
  {
    var s := Run(INITIAL, before);
    RunKeepsInv(INITIAL, before);
    var s' := Next(s, Hello(k'));
    assert k in s'.adopted && s'.core.conn == Some(k');
    NeverCurrentAgain(s', after, k);
    DropOfReplaced(Run(s', after), k);
  }

  /** A call that returns unavailable lost the connection it was written to. */
  lemma LossIsOwn(steps: seq<Step>, id: Call)
    requires var s := Run(INITIAL, steps); id in s.callers && GotLoss(s.callers[id].phase)
    ensures var c := Run(INITIAL, steps).callers[id]; c.phase.result.outcome.lost == c.conn
  {
    RunKeepsInv(INITIAL, steps);
  }

  // ----- Whose answer

  predicate Own(c: Caller, o: Outcome) {
    o.Answer? ==> o.from == c.conn
  }

  predicate ForeignBox(s: State, id: Call) {
    id in s.box && id in s.callers && !Own(s.callers[id], s.box[id])
  }

  predicate ForeignResult(s: State, id: Call) {
    && id in s.callers && Delivered(s.callers[id].phase)
    && !Own(s.callers[id], s.callers[id].phase.result.outcome)
  }

  /** Every answer on its way or delivered came from the connection its command was
      written to. */
  ghost predicate AnswersOwn(s: State) {
    && (forall p | p in s.parcels && p.call in s.callers :: Own(s.callers[p.call], p.outcome))
    && (forall id | id in s.box :: !ForeignBox(s, id))
    && (forall id | id in s.callers :: !ForeignResult(s, id))
  }

  predicate Delivered(p: Phase) {
    p.Returned? && p.result.Got?
  }

  /** The check `resolve` does not make: the frame came over the current connection. */
  predicate FromCurrent(s: State, a: Step) {
    a.Hear? && a.conn in s.adopted && a.id in s.core.pending ==> s.core.conn == Some(a.conn)
  }

  predicate AllFromCurrent(s: State, steps: seq<Step>)
    decreases steps
  {
    steps == [] || (FromCurrent(s, steps[0]) && AllFromCurrent(Next(s, steps[0]), steps[1..]))
  }

  lemma CurrentAnswersOwn(s: State, a: Step)
    requires Inv(s) && AnswersOwn(s) && FromCurrent(s, a)
    ensures AnswersOwn(Next(s, a))
  {
  }

  lemma StaleAnswersForeign(s: State, a: Step)
    requires Inv(s) && !FromCurrent(s, a)
    ensures !AnswersOwn(Next(s, a))
  {
    var p := Parcel(s.hands, a.id, Answer(a.conn, a.reply));
    assert p in Next(s, a).parcels && !Own(Next(s, a).callers[a.id], p.outcome);
  }

  lemma ForeignResultStays(s: State, a: Step, id: Call)
    requires ForeignResult(s, id)
    ensures ForeignResult(Next(s, a), id)
  {
  }

  lemma ForeignBoxStays(s: State, a: Step, id: Call)
    requires Inv(s) && ForeignBox(s, id)
    ensures ForeignBox(Next(s, a), id) || ForeignResult(Next(s, a), id)
  {
  }

  lemma CallersKept(s: State, a: Step, id: Call)
    requires id in s.callers
    ensures id in Next(s, a).callers && Next(s, a).callers[id].conn == s.callers[id].conn
  {
  }

  lemma ForeignStays(s: State, a: Step)
    requires Inv(s) && !AnswersOwn(s)
    ensures !AnswersOwn(Next(s, a))
  {
    if p :| p in s.parcels && p.call in s.callers && !Own(s.callers[p.call], p.outcome) {
      CallersKept(s, a, p.call);
      if a == Send(p) {
        assert ForeignBox(Next(s, a), p.call);
      } else {
        assert p in Next(s, a).parcels;
      }
    } else if id :| ForeignBox(s, id) {
      ForeignBoxStays(s, a, id);
    } else {
      var id :| ForeignResult(s, id);
      ForeignResultStays(s, a, id);
    }
  }

  lemma {:induction false} OwnIffCurrentFrom(s: State, steps: seq<Step>)
    requires Inv(s)
    ensures AnswersOwn(Run(s, steps)) <==> AnswersOwn(s) && AllFromCurrent(s, steps)
    decreases steps
  {
    if steps != [] {
      var s' := Next(s, steps[0]);
      StepKeepsInv(s, steps[0]);
      OwnIffCurrentFrom(s', steps[1..]);
      if !AnswersOwn(s) {
        ForeignStays(s, steps[0]);
      } else if FromCurrent(s, steps[0]) {
        CurrentAnswersOwn(s, steps[0]);
      } else {
        StaleAnswersForeign(s, steps[0]);
      }
    }
  }

  /** Answers stay with the connection their command was written to exactly in the
      runs where every matching frame arrives over the connection then current. */
  lemma AnswersAreOwnIffCurrent(steps: seq<Step>)
    ensures AnswersOwn(Run(INITIAL, steps)) <==> AllFromCurrent(INITIAL, steps)
  {
    OwnIffCurrentFrom(INITIAL, steps);
  }

  /** Peers that answer only ids written to them. */
  predicate Honest(s: State, steps: seq<Step>)
    decreases steps
  {
    steps == []
    || ((steps[0].Hear? ==> (steps[0].conn, steps[0].id) in s.wire) && Honest(Next(s, steps[0]), steps[1..]))
  }

  lemma {:induction false} HonestIsCurrent(s: State, steps: seq<Step>)
    requires Inv(s) && Honest(s, steps)
    ensures AllFromCurrent(s, steps)
    decreases steps
  {
    if steps != [] {
      StepKeepsInv(s, steps[0]);
      HonestIsCurrent(Next(s, steps[0]), steps[1..]);
    }
  }

  /** With honest peers a successful result comes from the connection its command was
      written to. */
  lemma HonestAnswersAreOwn(steps: seq<Step>, id: Call)
    requires Honest(INITIAL, steps)
    requires var s := Run(INITIAL, steps); id in s.callers && Delivered(s.callers[id].phase)
    ensures var c := Run(INITIAL, steps).callers[id]; Own(c, c.phase.result.outcome)
  {
    HonestIsCurrent(INITIAL, steps);
    AnswersAreOwnIffCurrent(steps);
  }

  /** Nothing in the broker enforces that honesty: a replaced peer that names a live
      id has its reply returned as the result of a command it was never sent. */
  lemma StalePeerAnswers(c: Call, reply: Reply)
    ensures var parcel := Parcel(2, c, Answer(1, reply));
      Run(INITIAL, [Hello(1), Hello(2), Begin(c), Transmit(c), WriteDone(c), Hear(1, c, reply), Send(parcel), Receive(c)])
        .callers == map[c := Caller(2, Returned(Got(Answer(1, reply))))]
  {
    var parcel := Parcel(2, c, Answer(1, reply));
    var steps := [Hello(1), Hello(2), Begin(c), Transmit(c), WriteDone(c), Hear(1, c, reply), Send(parcel), Receive(c)];
    var waiting := State(Core(Some(2), {c}), map[c := Caller(2, Waiting)], {}, map[], {}, 2, {1, 2}, {(2, c)});
    CommandWritten(c);
    AnswerTaken(waiting, c, parcel);
    RunAppend(INITIAL, steps[..5], steps[5..]);
    assert steps[..5] == [Hello(1), Hello(2), Begin(c), Transmit(c), WriteDone(c)];
    assert steps[5..] == [Hear(1, c, reply), Send(parcel), Receive(c)];
    assert steps[..5] + steps[5..] == steps;
  }

  lemma CommandWritten(c: Call)
    ensures Run(INITIAL, [Hello(1), Hello(2), Begin(c), Transmit(c), WriteDone(c)])
      == State(Core(Some(2), {c}), map[c := Caller(2, Waiting)], {}, map[], {}, 2, {1, 2}, {(2, c)})
  {
    var s2 := State(Core(Some(2), {}), map[], {}, map[], {}, 2, {1, 2}, {});
    assert Failures({}, 1, 1) == {};
    assert Next(Next(INITIAL, Hello(1)), Hello(2)) == s2;
    var s3 := State(Core(Some(2), {c}), map[c := Caller(2, Sending)], {}, map[], {}, 2, {1, 2}, {});
    assert Next(s2, Begin(c)) == s3;
    RunUnfolds(INITIAL, [Hello(1), Hello(2), Begin(c), Transmit(c), WriteDone(c)]);
    RunUnfolds(s3, [Transmit(c), WriteDone(c)]);
    assert [Hello(1), Hello(2), Begin(c), Transmit(c), WriteDone(c)][2..] == [Begin(c), Transmit(c), WriteDone(c)];
    assert [Begin(c), Transmit(c), WriteDone(c)][1..] == [Transmit(c), WriteDone(c)];
  }

  lemma AnswerTaken(s: State, c: Call, p: Parcel)
    requires s == State(Core(Some(2), {c}), map[c := Caller(2, Waiting)], {}, map[], {}, 2, {1, 2}, {(2, c)})
    requires p.hand == 2 && p.call == c && p.outcome.Answer? && p.outcome.from == 1
    ensures Run(s, [Hear(1, c, p.outcome.reply), Send(p), Receive(c)]).callers
      == map[c := Caller(2, Returned(Got(p.outcome)))]
  {
    var steps := [Hear(1, c, p.outcome.reply), Send(p), Receive(c)];
    var s1 := Next(s, steps[0]);
    assert s1.parcels == {p} && s1.callers == s.callers;
    var s2 := Next(s1, steps[1]);
    assert s2.box == map[c := p.outcome] && s2.callers == s.callers;
    RunUnfolds(s, steps);
    assert steps[2..] == [Receive(c)] && [Receive(c)][1..] == [];
    assert Run(s2, [Receive(c)]) == Run(Next(s2, Receive(c)), []);
  }

  lemma {:induction false} RunAppend(s: State, a: seq<Step>, b: seq<Step>)
    ensures Run(s, a + b) == Run(Run(s, a), b)
    decreases a
  {
    if a == [] {
      assert a + b == b;
    } else {
      assert (a + b)[1..] == a[1..] + b;
      RunAppend(Next(s, a[0]), a[1..], b);
    }
  }

  lemma RunUnfolds(s: State, steps: seq<Step>)
    requires |steps| >= 2
    ensures Run(s, steps) == Run(Next(Next(s, steps[0]), steps[1]), steps[2..])
  {
    assert steps[1..][1..] == steps[2..];
  }
}
