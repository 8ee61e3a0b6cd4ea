/** The broker's write path: one token guards the connections' streams, and a write
    loops over partial writes while it holds the token. */
module BrokerWire {
  import opened BridgeFrames

  // ----- One write

  /** What one call of the connection's Write reports. */
  datatype Reply = Reply(written: nat, failed: bool)

  /** The connection's k-th answer; a Write never claims more than it was given. */
  type Kernel = nat -> Reply

  function Taken(r: Reply, left: nat): nat {
    if r.written <= left then r.written else left
  }

  /** How many of `left` bytes get out from the k-th Write on, and whether the loop
      ends without an error. */
  function Pushed(left: nat, k: nat, kernel: Kernel): (r: (nat, bool))
    ensures r.0 <= left && (r.1 ==> r.0 == left)
    decreases left
  {
    if left == 0 then (0, true)
    else
      var n := Taken(kernel(k), left);
      if kernel(k).failed || n == 0 then (n, false)
      else
        var rest := Pushed(left - n, k + 1, kernel);
        (n + rest.0, rest.1)
  }

  function Attempted(body: Body, kernel: Kernel): Attempt {
    if |Line(body)| > MAX_FRAME_BYTES then Attempt(body, 0, false)
    else
      var p := Pushed(|Line(body)|, 0, kernel);
      Attempt(body, p.0, p.1)
  }

  /** How many times the loop calls Write. */
  function WritesMade(left: nat, k: nat, kernel: Kernel): nat
    decreases left
  {
    if left == 0 then 0
    else
      var n := Taken(kernel(k), left);
      if kernel(k).failed || n == 0 then 1 else 1 + WritesMade(left - n, k + 1, kernel)
  }

  predicate Stalls(r: Reply) { r.failed || r.written == 0 }

  /** The loop succeeds exactly when no Write it made failed or took nothing; only the
      last one can have. */
  lemma {:induction false} FailureHasACause(left: nat, k: nat, kernel: Kernel)
    ensures var made := WritesMade(left, k, kernel);
      && (forall i | k <= i < k + made - 1 :: !Stalls(kernel(i)))
      && (Pushed(left, k, kernel).1 <==> forall i | k <= i < k + made :: !Stalls(kernel(i)))
    decreases left
  {
    if left > 0 {
      var n := Taken(kernel(k), left);
      if kernel(k).failed || n == 0 {
        assert Stalls(kernel(k));
      } else {
        FailureHasACause(left - n, k + 1, kernel);
      }
    }
  }

  /** Success is whole frames only, within the limit, and anything less is reported:
      the frame was too long, or one of the Writes made failed or took nothing. */
  lemma WriteIsWholeOrReported(body: Body, kernel: Kernel)
    ensures var a := Attempted(body, kernel);
      && a.body == body && a.sent <= |Line(body)|
      && (a.ok ==> Whole(a) && Sent(a) == Line(body))
      && (a.sent > 0 ==> |Line(body)| <= MAX_FRAME_BYTES)
      && (a.ok <==>
          |Line(body)| <= MAX_FRAME_BYTES
          && forall i | 0 <= i < WritesMade(|Line(body)|, 0, kernel) :: !Stalls(kernel(i)))
  {
    FailureHasACause(|Line(body)|, 0, kernel);
  }

  class Connection {
    var stream: Bytes

    constructor ()
      ensures stream == []
    {
      stream := [];
    }

    method Write(frame: Bytes, reply: Reply) returns (written: nat)
      modifies this
      ensures written == Taken(reply, |frame|)
      ensures stream == old(stream) + frame[..written]
    {
      written := if reply.written <= |frame| then reply.written else |frame|;
      stream := stream + frame[..written];
    }

    /** The partial-write loop. */
    method WriteAll(line: Bytes, kernel: Kernel) returns (failed: bool)
      modifies this
      ensures var all := Pushed(|line|, 0, kernel);
        stream == old(stream) + line[..all.0] && failed == !all.1
    {
      var frame := line;
      ghost var sent, all := 0, Pushed(|line|, 0, kernel);
      var k := 0;
      failed := false;
      while |frame| > 0 && !failed
        invariant sent <= |line| && frame == line[sent..] && k >= 0
        invariant stream == old(stream) + line[..sent]
        invariant failed ==> all == (sent, false)
        invariant !failed ==> all == (sent + Pushed(|frame|, k, kernel).0, Pushed(|frame|, k, kernel).1)
        decreases |frame|, !failed
      {
        var reply := kernel(k);
        var written := Write(frame, reply);
        assert line[..sent] + frame[..written] == line[..sent + written];
        failed := reply.failed;
        sent, k := sent + written, k + 1;
        if written == 0 && !failed {
          failed := true;
          break;
        }
        frame := frame[written..];
      }
    }

    /** The broker's write while it holds the token. */
    method WriteFrame(body: Body, kernel: Kernel) returns (failed: bool)
      modifies this
      ensures stream == old(stream) + Sent(Attempted(body, kernel))
      ensures failed == !Attempted(body, kernel).ok
    {
      if |body| + 1 > MAX_FRAME_BYTES {
        assert stream == stream + [];
        return true;
      }
      failed := WriteAll(body + ['\n'], kernel);
    }
  }

  // ----- Many writers, one token

  type Writer = nat
  type Conn = nat

  /** A writer inside the guarded section and how far it has come. */
  datatype Job = Job(conn: Conn, body: Body, sent: nat)

  /** How a write ends for its caller: the frame is out; its context is over (or it was
      a cancel frame, whose failure nobody looks at); or it failed. */
  datatype Ending = Delivered | Cancelled | Failed

  datatype Wire = Wire(
    token: bool, inside: map<Writer, Job>, closed: set<Conn>,
    streams: map<Conn, Bytes>, logs: map<Conn, seq<Attempt>>)

  const IDLE := Wire(true, map[], {}, map[], map[])

  datatype Step =
    | Enter(writer: Writer, conn: Conn, body: Body)
    | Chunk(writer: Writer, bytes: nat)
    | Leave(writer: Writer, ending: Ending)
    | Close(conn: Conn)

  function StreamOf(s: Wire, c: Conn): Bytes {
    if c in s.streams then s.streams[c] else []
  }

  /** The finished writes on one connection, oldest first. */
  function LogOf(s: Wire, c: Conn): seq<Attempt> {
    if c in s.logs then s.logs[c] else []
  }

  function Next(s: Wire, a: Step): Wire {
    match a
    case Enter(w, c, body) =>
      if s.token && w !in s.inside then s.(token := false, inside := s.inside[w := Job(c, body, 0)]) else s
    case Chunk(w, n) =>
      if w !in s.inside then s
      else
        var j := s.inside[w];
        var line := Line(j.body);
        if 0 < n && j.sent + n <= |line| <= MAX_FRAME_BYTES && j.conn !in s.closed
        then s.(inside := s.inside[w := j.(sent := j.sent + n)],
                streams := s.streams[j.conn := StreamOf(s, j.conn) + line[j.sent..j.sent + n]])
        else s
    case Leave(w, ending) =>
      if w !in s.inside || (ending.Delivered? && s.inside[w].sent < |Line(s.inside[w].body)|) then s
      else
        var j := s.inside[w];
        s.(token := true, inside := s.inside - {w},
           logs := s.logs[j.conn := LogOf(s, j.conn) + [Attempt(j.body, j.sent, ending.Delivered?)]])
    case Close(c) => s.(closed := s.closed + {c})
  }

  function Run(s: Wire, steps: seq<Step>): Wire
    decreases steps
  {
    if steps == [] then s else Run(Next(s, steps[0]), steps[1..])
  }

  function Partial(j: Job): Attempt { Attempt(j.body, j.sent, false) }

  ghost predicate Exclusive(s: Wire) {
    && (s.token <==> s.inside == map[])
    && (forall v, w | v in s.inside && w in s.inside :: v == w)
  }

  predicate Sensible(a: Attempt) {
    && a.sent <= |Line(a.body)|
    && (a.sent > 0 ==> |Line(a.body)| <= MAX_FRAME_BYTES)
    && (a.ok ==> Whole(a))
  }

  predicate Carries(stream: Bytes, log: seq<Attempt>, j: Job) {
    Sensible(Partial(j)) && stream == Stream(log) + Sent(Partial(j))
  }

  ghost predicate Accounted(s: Wire, c: Conn) {
    && (forall k | 0 <= k < |LogOf(s, c)| :: Sensible(LogOf(s, c)[k]))
    && (forall w | w in s.inside && s.inside[w].conn == c ::
          Carries(StreamOf(s, c), LogOf(s, c), s.inside[w]))
    && ((forall w | w in s.inside :: s.inside[w].conn != c) ==> StreamOf(s, c) == Stream(LogOf(s, c)))
  }

  lemma EnterAccounted(s: Wire, a: Step, c: Conn)
    requires Exclusive(s) && Accounted(s, c) && a.Enter?
    ensures Accounted(Next(s, a), c)
  {
    assert Stream(LogOf(s, c)) + Sent(Attempt(a.body, 0, false)) == Stream(LogOf(s, c));
  }

  lemma SentGrows(body: Body, sent: nat, n: nat)
    requires sent + n <= |Line(body)|
    ensures Sent(Attempt(body, sent + n, false)) == Sent(Attempt(body, sent, false)) + Line(body)[sent..sent + n]
  {
    var line := Line(body);
    assert line[..sent] + line[sent..sent + n] == line[..sent + n];
    assert forall k | 0 <= k <= |line| :: Sent(Attempt(body, k, false)) == line[..k];
  }

  predicate Advances(s: Wire, a: Step) {
    && a.Chunk? && a.writer in s.inside && 0 < a.bytes
    && s.inside[a.writer].sent + a.bytes <= |Line(s.inside[a.writer].body)| <= MAX_FRAME_BYTES
    && s.inside[a.writer].conn !in s.closed
  }

  lemma ChunkEffect(s: Wire, a: Step, c: Conn)
    requires Advances(s, a)
    ensures var s', j := Next(s, a), s.inside[a.writer];
      && LogOf(s', c) == LogOf(s, c)
      && s'.inside == s.inside[a.writer := j.(sent := j.sent + a.bytes)]
      && StreamOf(s', c) == StreamOf(s, c)
           + if c == j.conn then Line(j.body)[j.sent..j.sent + a.bytes] else []
  {
  }

  lemma CarriesMore(stream: Bytes, log: seq<Attempt>, j: Job, n: nat)
    requires Carries(stream, log, j) && j.sent + n <= |Line(j.body)| <= MAX_FRAME_BYTES
    ensures Carries(stream + Line(j.body)[j.sent..j.sent + n], log, j.(sent := j.sent + n))
  {
    SentGrows(j.body, j.sent, n);
    var more := Line(j.body)[j.sent..j.sent + n];
    assert Stream(log) + Sent(Partial(j)) + more == Stream(log) + (Sent(Partial(j)) + more);
  }

  lemma ChunkAccounted(s: Wire, a: Step, c: Conn)
    requires Exclusive(s) && Accounted(s, c) && a.Chunk?
    ensures Accounted(Next(s, a), c)
  {
    if Advances(s, a) {
      ChunkEffect(s, a, c);
      var j := s.inside[a.writer];
      if j.conn == c {
        CarriesMore(StreamOf(s, c), LogOf(s, c), j, a.bytes);
      }
    } else {
      assert Next(s, a) == s;
    }
  }

  predicate Leaves(s: Wire, a: Step) {
    a.Leave? && a.writer in s.inside
    && (a.ending.Delivered? ==> s.inside[a.writer].sent >= |Line(s.inside[a.writer].body)|)
  }

  function Record(j: Job, ending: Ending): Attempt {
    Attempt(j.body, j.sent, ending.Delivered?)
  }

  lemma LeaveEffect(s: Wire, a: Step, c: Conn)
    requires Exclusive(s) && Leaves(s, a)
    ensures var s', j := Next(s, a), s.inside[a.writer];
      && s'.inside == map[] && StreamOf(s', c) == StreamOf(s, c)
      && LogOf(s', c) == if c == j.conn then LogOf(s, c) + [Record(j, a.ending)] else LogOf(s, c)
  {
    assert s.inside.Keys == {a.writer};
    assert Next(s, a).inside.Keys == {};
  }

  lemma CarriedAway(stream: Bytes, log: seq<Attempt>, j: Job, ending: Ending)
    requires Carries(stream, log, j) && (ending.Delivered? ==> j.sent >= |Line(j.body)|)
    ensures stream == Stream(log + [Record(j, ending)]) && Sensible(Record(j, ending))
  {
    StreamSnoc(log, Record(j, ending));
  }

  lemma LeaveAccounted(s: Wire, a: Step, c: Conn)
    requires Exclusive(s) && Accounted(s, c) && a.Leave?
    ensures Accounted(Next(s, a), c)
  {
    if Leaves(s, a) {
      var j := s.inside[a.writer];
      LeaveEffect(s, a, c);
      if j.conn == c {
        CarriedAway(StreamOf(s, c), LogOf(s, c), j, a.ending);
      }
    } else {
      assert Next(s, a) == s;
    }
  }

  lemma {:induction false} RunAccounted(s: Wire, steps: seq<Step>, c: Conn)
    requires Exclusive(s) && Accounted(s, c)
    ensures Exclusive(Run(s, steps)) && Accounted(Run(s, steps), c)
    decreases steps
  {
    if steps != [] {
      match steps[0] {
        case Enter(_, _, _) => EnterAccounted(s, steps[0], c);
        case Chunk(_, _) => ChunkAccounted(s, steps[0], c);
        case Leave(_, _) => LeaveAccounted(s, steps[0], c);
        case Close(_) =>
      }
      StepExclusive(s, steps[0]);
      RunAccounted(Next(s, steps[0]), steps[1..], c);
    }
  }

  lemma StepExclusive(s: Wire, a: Step)
    requires Exclusive(s)
    ensures Exclusive(Next(s, a))
  {
    var s' := Next(s, a);
    if a.Chunk? && s' != s {
      assert a.writer in s'.inside;
    }
    if a.Leave? && s' != s {
      assert s.inside.Keys == {a.writer};
      assert s'.inside.Keys == {};
    }
  }

  /** The gate holds its token exactly when no writer is inside, and no two writers
      ever are. */
  lemma TokenIsConserved(steps: seq<Step>)
    ensures var s := Run(IDLE, steps);
      && (s.token <==> s.inside == map[])
      && (forall v, w | v in s.inside && w in s.inside :: v == w)
  {
    RunAccounted(IDLE, steps, 0);
  }

  /** However writers interleave, each connection carries its finished writes one
      after the other and then only what the current holder has sent: no write has
      another writer's bytes inside it. */
  lemma StreamsAreSequential(steps: seq<Step>, c: Conn, w: Writer)
    ensures var s := Run(IDLE, steps);
      && (w in s.inside && s.inside[w].conn == c ==>
            StreamOf(s, c) == Stream(LogOf(s, c)) + Sent(Partial(s.inside[w])))
      && (s.token ==> StreamOf(s, c) == Stream(LogOf(s, c)))
      && (forall k | 0 <= k < |LogOf(s, c)| && LogOf(s, c)[k].ok ::
            Whole(LogOf(s, c)[k]) && |Line(LogOf(s, c)[k].body)| <= MAX_FRAME_BYTES)
  {
    RunAccounted(IDLE, steps, c);
  }

  function Bodies(log: seq<Attempt>): seq<Bytes> {
    if log == [] then [] else [log[0].body] + Bodies(log[1..])
  }

  /** Frames written in full, each fitting the peer. */
  predicate AllFit(log: seq<Attempt>) {
    forall k | 0 <= k < |log| :: Whole(log[k]) && |log[k].body| <= MAX_COMMAND_BYTES
  }

  lemma {:induction false} FitAreWholes(log: seq<Attempt>)
    requires AllFit(log)
    ensures Wholes(log) == Bodies(log)
  {
    if log != [] {
      FitAreWholes(log[1..]);
    }
  }

  /** Frames that all got out whole and fit the peer arrive in order, and a frame
      still being written behind them spoils none. */
  lemma WholeFramesArrive(log: seq<Attempt>, current: Attempt)
    requires AllFit(log) && !Whole(current)
    ensures Read(FRESH, Stream(log) + Sent(current)).lines == Bodies(log)
  {
    FitAreWholes(log);
    WholesSnoc(log, current);
    StreamSnoc(log, current);
    PeerReceivesWhatWasWritten(log + [current]);
    assert Readable(log + [current]);
  }

  /** Every write succeeded, with a frame that fits the peer. */
  predicate AllDelivered(log: seq<Attempt>) {
    forall k | 0 <= k < |log| :: log[k].ok && |log[k].body| <= MAX_COMMAND_BYTES
  }

  /** While every earlier write on a connection succeeded, its peer reads exactly the
      frames written, in order, as long as they fit the peer; what the current holder
      has sent of its own frame spoils none of them. */
  lemma SuccessfulWritesArrive(steps: seq<Step>, c: Conn)
    requires var s := Run(IDLE, steps);
      && AllDelivered(LogOf(s, c))
      && (forall w | w in s.inside && s.inside[w].conn == c :: !Whole(Partial(s.inside[w])))
    ensures var s := Run(IDLE, steps); Read(FRESH, StreamOf(s, c)).lines == Bodies(LogOf(s, c))
  {
    RunAccounted(IDLE, steps, c);
    var s := Run(IDLE, steps);
    var log := LogOf(s, c);
    if w :| w in s.inside && s.inside[w].conn == c {
      WholeFramesArrive(log, Partial(s.inside[w]));
    } else {
      WholeFramesArrive(log, Attempt("", 0, false));
      assert Stream(log) + [] == Stream(log);
    }
  }

  lemma {:induction false} WholesSnoc(log: seq<Attempt>, a: Attempt)
    requires !Whole(a)
    ensures Wholes(log + [a]) == Wholes(log)
  {
    if log == [] {
      assert log + [a] == [a] && [a][1..] == [];
    } else {
      assert (log + [a])[1..] == log[1..] + [a];
      WholesSnoc(log[1..], a);
    }
  }

  // ----- Torn writes

  /** One writer passing through alone, putting out `n` bytes of its frame. */
  function Passage(w: Writer, c: Conn, body: Body, n: nat, ending: Ending): seq<Step> {
    [Enter(w, c, body), Chunk(w, n), Leave(w, ending)]
  }

  lemma ThreeSteps(s: Wire, x: Step, y: Step, z: Step)
    ensures Run(s, [x, y, z]) == Next(Next(Next(s, x), y), z)
  {
    assert [x, y, z][1..] == [y, z] && [y, z][1..] == [z] && [z][1..] == [];
    assert Run(Next(Next(s, x), y), [z]) == Run(Next(Next(Next(s, x), y), z), []);
  }

  ghost predicate Vacant(s: Wire) {
    s.token && s.inside == map[]
  }

  lemma SentIsPrefix(body: Body, n: nat, ok: bool)
    requires n <= |Line(body)|
    ensures Line(body)[..n] == Line(body)[0..n] == Sent(Attempt(body, n, ok))
  {
  }

  lemma OneWriter(s: Wire, w: Writer, c: Conn, body: Body, n: nat, ending: Ending)
    requires Vacant(s) && c !in s.closed && n <= |Line(body)| && (n > 0 ==> |Line(body)| <= MAX_FRAME_BYTES)
    requires ending.Delivered? ==> n == |Line(body)|
    ensures var t, a := Run(s, Passage(w, c, body, n, ending)), Attempt(body, n, ending.Delivered?);
      && Vacant(t) && t.closed == s.closed
      && LogOf(t, c) == LogOf(s, c) + [a] && StreamOf(t, c) == StreamOf(s, c) + Sent(a)
  {
    var steps := Passage(w, c, body, n, ending);
    ThreeSteps(s, steps[0], steps[1], steps[2]);
    SentIsPrefix(body, n, ending.Delivered?);
    var s1 := Next(s, steps[0]);
    var s2 := Next(s1, steps[1]);
    assert s2.inside == map[w := Job(c, body, n)];
    assert StreamOf(s2, c) == StreamOf(s, c) + Sent(Attempt(body, n, ending.Delivered?));
    assert Next(s2, steps[2]).inside == map[];
  }

  /** The broker's write, run alone, is one passage through the gate: same bytes, same
      record. */
  lemma WriteFrameIsOnePassage(s: Wire, w: Writer, c: Conn, body: Body, kernel: Kernel, ending: Ending)
    requires Vacant(s) && c !in s.closed && ending.Delivered? == Attempted(body, kernel).ok
    ensures var a := Attempted(body, kernel);
      var t := Run(s, Passage(w, c, body, a.sent, ending));
      t.token && LogOf(t, c) == LogOf(s, c) + [a] && StreamOf(t, c) == StreamOf(s, c) + Sent(a)
  {
    var a := Attempted(body, kernel);
    WriteIsWholeOrReported(body, kernel);
    OneWriter(s, w, c, body, a.sent, ending);
  }

  /** What the caller of a write that did not succeed does next: a failed one closes
      the connection, a cancelled one leaves it as it is. */
  function Aftermath(c: Conn, ending: Ending): seq<Step> {
    if ending.Failed? then [Close(c)] else []
  }

  /** A writer with a frame to get out: it succeeds if it can, and otherwise fails. */
  function Sending(w: Writer, c: Conn, body: Body): seq<Step> {
    Passage(w, c, body, |Line(body)|, Delivered) + [Leave(w, Failed)]
  }

  /** The last write on the connection succeeded, but its peer did not read what was
      written. */
  predicate Swallowed(s: Wire, c: Conn) {
    var log := LogOf(s, c);
    log != [] && log[|log| - 1].ok && Read(FRESH, StreamOf(s, c)).lines != Wholes(log)
  }

  lemma OpenSending(s: Wire, w: Writer, c: Conn, body: Body)
    requires Vacant(s) && c !in s.closed && |Line(body)| <= MAX_FRAME_BYTES
    ensures var t, a := Run(s, Sending(w, c, body)), Attempt(body, |Line(body)|, true);
      LogOf(t, c) == LogOf(s, c) + [a] && StreamOf(t, c) == StreamOf(s, c) + Sent(a)
  {
    OneWriter(s, w, c, body, |Line(body)|, Delivered);
    RunAppend(s, Passage(w, c, body, |Line(body)|, Delivered), [Leave(w, Failed)]);
    OneStep(Run(s, Passage(w, c, body, |Line(body)|, Delivered)), Leave(w, Failed));
  }

  lemma ClosedSending(s: Wire, w: Writer, c: Conn, body: Body)
    requires Vacant(s) && c in s.closed
    ensures LogOf(Run(s, Sending(w, c, body)), c) == LogOf(s, c) + [Attempt(body, 0, false)]
  {
    var steps := Passage(w, c, body, |Line(body)|, Delivered);
    ThreeSteps(s, steps[0], steps[1], steps[2]);
    var s1 := Next(s, steps[0]);
    assert Next(Next(s1, steps[1]), steps[2]) == s1;
    RunAppend(s, steps, [Leave(w, Failed)]);
    OneStep(s1, Leave(w, Failed));
  }

  lemma OneStep(s: Wire, a: Step)
    ensures Run(s, [a]) == Next(s, a)
  {
    assert [a][1..] == [];
  }

  /** The log around a torn write that was not followed by a close. */
  lemma TornLogIsRead(log: seq<Attempt>, torn: Attempt, next: Attempt)
    requires AllFit(log) && !Whole(torn) && Whole(next) && |next.body| <= MAX_COMMAND_BYTES
    ensures var all := log + [torn] + [next];
      Read(FRESH, Stream(all)).lines == Wholes(all) <==> !Torn(torn)
  {
    var all := log + [torn] + [next];
    PeerReceivesWhatWasWritten(all);
    assert all[|log|] == torn && all[|log| + 1] == next;
    assert forall i | 0 <= i < |log| :: all[i] == log[i] && !Torn(all[i]);
  }

  lemma ThreeSent(log: seq<Attempt>, torn: Attempt, next: Attempt)
    ensures Stream(log + [torn] + [next]) == Stream(log) + Sent(torn) + Sent(next)
  {
    StreamSnoc(log, torn);
    StreamSnoc(log + [torn], next);
  }

  lemma SwallowedIff(t: Wire, c: Conn, log: seq<Attempt>, torn: Attempt, next: Attempt)
    requires AllFit(log) && !Whole(torn) && Whole(next) && next.ok && |next.body| <= MAX_COMMAND_BYTES
    requires LogOf(t, c) == log + [torn] + [next]
    requires StreamOf(t, c) == Stream(log) + Sent(torn) + Sent(next)
    ensures Swallowed(t, c) <==> Torn(torn)
  {
    ThreeSent(log, torn, next);
    TornLogIsRead(log, torn, next);
  }

  lemma TwoWriters(s: Wire, c: Conn, a: Body, n: nat, ending: Ending, b: Body)
    requires Vacant(s) && c !in s.closed && !ending.Delivered?
    requires n <= |a| && (n > 0 ==> |Line(a)| <= MAX_FRAME_BYTES) && |b| <= MAX_COMMAND_BYTES
    ensures var t := Run(Run(s, Passage(0, c, a, n, ending)), Sending(1, c, b));
      var torn, next := Attempt(a, n, false), Attempt(b, |Line(b)|, true);
      && LogOf(t, c) == LogOf(s, c) + [torn] + [next]
      && StreamOf(t, c) == StreamOf(s, c) + Sent(torn) + Sent(next)
  {
    OneWriter(s, 0, c, a, n, ending);
    OpenSending(Run(s, Passage(0, c, a, n, ending)), 1, c, b);
  }

  /** The next frame behind a torn one, on a connection still open. */
  lemma OpenConnectionSwallows(s: Wire, c: Conn, a: Body, n: nat, ending: Ending, b: Body)
    requires Vacant(s) && c !in s.closed && AllFit(LogOf(s, c)) && StreamOf(s, c) == Stream(LogOf(s, c))
    requires n <= |a| && (n > 0 ==> |Line(a)| <= MAX_FRAME_BYTES) && !ending.Delivered? && |b| <= MAX_COMMAND_BYTES
    ensures Swallowed(Run(Run(s, Passage(0, c, a, n, ending)), Sending(1, c, b)), c) <==> n > 0
  {
    TwoWriters(s, c, a, n, ending, b);
    SwallowedIff(Run(Run(s, Passage(0, c, a, n, ending)), Sending(1, c, b)), c, LogOf(s, c),
                 Attempt(a, n, false), Attempt(b, |Line(b)|, true));
  }

  /** Behind a torn write that closed the connection nothing more is delivered. */
  lemma ClosedConnectionDeliversNothing(s: Wire, c: Conn, a: Body, n: nat, ending: Ending, b: Body)
    requires Vacant(s) && c !in s.closed && ending.Failed?
    requires n <= |a| && (n > 0 ==> |Line(a)| <= MAX_FRAME_BYTES)
    ensures !Swallowed(Run(Run(Run(s, Passage(0, c, a, n, ending)), Aftermath(c, ending)), Sending(1, c, b)), c)
  {
    var mid := Run(s, Passage(0, c, a, n, ending));
    OneWriter(s, 0, c, a, n, ending);
    OneStep(mid, Close(c));
    ClosedSending(Next(mid, Close(c)), 1, c, b);
  }

  /** On a connection whose writes all succeeded so far, a write of any frame `a` stops
      after any `n` bytes short of it, and another writer sends any frame `b` that fits
      the peer. That frame is swallowed if and only if the torn write had put out a
      byte and the connection was not closed in between; and the broker closes it only
      for a failed write, not for a cancelled one, and only after the gate is free. */
  lemma NextFrameSwallowedIff(before: seq<Step>, c: Conn, a: Body, n: nat, ending: Ending, closedFirst: bool, b: Body)
    requires var s := Run(IDLE, before); Vacant(s) && c !in s.closed && AllDelivered(LogOf(s, c))
    requires n <= |a| && (n > 0 ==> |Line(a)| <= MAX_FRAME_BYTES) && !ending.Delivered? && |b| <= MAX_COMMAND_BYTES
    ensures var torn := Run(Run(IDLE, before), Passage(0, c, a, n, ending));
      var later := if closedFirst then Run(torn, Aftermath(c, ending)) else torn;
      Swallowed(Run(later, Sending(1, c, b)), c) <==> n > 0 && !(ending.Failed? && closedFirst)
  {
    var s := Run(IDLE, before);
    RunAccounted(IDLE, before, c);
    if ending.Failed? && closedFirst {
      ClosedConnectionDeliversNothing(s, c, a, n, ending, b);
    } else {
      OpenConnectionSwallows(s, c, a, n, ending, b);
      assert Run(Run(s, Passage(0, c, a, n, ending)), []) == Run(s, Passage(0, c, a, n, ending));
    }
  }

  /** What the peer reads instead: one line nobody wrote. */
  lemma SwallowedLine(log: seq<Attempt>, a: Body, n: nat, b: Body)
    requires AllFit(log)
    requires n <= |a| && n + |b| <= MAX_COMMAND_BYTES
    ensures Read(FRESH, Stream(log) + (a[..n] + Line(b))).lines == Bodies(log) + [a[..n] + b]
  {
    WholesLeaveNothing(log);
    ReadAppend(FRESH, Stream(log), a[..n] + Line(b));
    assert a[..n] + Line(b) == Line(a[..n] + b);
    ReadFitting(Bodies(log), a[..n] + b);
  }

  lemma WholesLeaveNothing(log: seq<Attempt>)
    requires AllFit(log)
    ensures Read(FRESH, Stream(log)) == Reader(Bodies(log), [], false)
  {
    WholesAreLines([], log);
    assert [] + Bodies(log) == Bodies(log);
  }

  lemma {:induction false} WholesAreLines(lines: seq<Bytes>, log: seq<Attempt>)
    requires AllFit(log)
    ensures Read(Reader(lines, [], false), Stream(log)) == Reader(lines + Bodies(log), [], false)
    decreases log
  {
    if log == [] {
      assert lines + [] == lines;
    } else {
      var body, rest := log[0].body, log[1..];
      ReadAppend(Reader(lines, [], false), Line(body), Stream(rest));
      ReadFitting(lines, body);
      WholesAreLines(lines + [body], rest);
      Regrouped(lines, [body], Bodies(rest));
    }
  }

  lemma Regrouped(a: seq<Bytes>, b: seq<Bytes>, c: seq<Bytes>)
    ensures (a + b) + c == a + (b + c)
  {
  }

  lemma ReadFitting(lines: seq<Bytes>, body: Body)
    requires |body| <= MAX_COMMAND_BYTES
    ensures Read(Reader(lines, [], false), Line(body)) == Reader(lines + [body], [], false)
  {
    ReadLine(Reader(lines, [], false), body);
    assert [] + body == body;
  }

  lemma {:induction false} RunAppend(s: Wire, a: seq<Step>, b: seq<Step>)
    ensures Run(s, a + b) == Run(Run(s, a), b)
    decreases a
  {
    if a == [] {
      assert a + b == b;
    } else {
      assert (a + b)[1..] == a[1..] + b;
      RunAppend(Next(s, a[0]), a[1..], b);
    }
  }
}
