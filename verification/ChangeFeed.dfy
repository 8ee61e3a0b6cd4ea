/** Live change delivery: a cursor-batched poller over the durable change log, and the
    broadcaster that fans its events out to a changing set of subscribers. */
module ChangeFeed {
  import opened Options

  datatype Event = Event(at: int, body: int)

  type Id = nat

  /** What the source answers to one read, None when it failed. */
  type Read = Option<seq<Event>>

  // ----- The broadcaster

  /** `heard` is what each subscriber's callback has been called with, and `published`
      the whole stream. */
  datatype Feed = Feed(nextID: Id, subs: set<Id>, heard: map<Id, seq<Event>>, published: seq<Event>)

  const SILENT := Feed(0, {}, map[], [])

  datatype Step = Subscribe | Unsubscribe(id: Id) | Publish(event: Event)

  function Heard(f: Feed, id: Id): seq<Event> {
    if id in f.heard then f.heard[id] else []
  }

  function Tell(heard: map<Id, seq<Event>>, ids: set<Id>, e: Event): map<Id, seq<Event>> {
    map id | id in heard.Keys + ids ::
      if id !in ids then heard[id] else (if id in heard then heard[id] else []) + [e]
  }

  function Next(f: Feed, a: Step): Feed {
    match a
    case Subscribe => f.(nextID := f.nextID + 1, subs := f.subs + {f.nextID})
    case Unsubscribe(id) => f.(subs := f.subs - {id})
    case Publish(e) => f.(heard := Tell(f.heard, f.subs, e), published := f.published + [e])
  }

  function Run(f: Feed, steps: seq<Step>): Feed
    decreases steps
  {
    if steps == [] then f else Run(Next(f, steps[0]), steps[1..])
  }

  class Broadcaster {
    var nextID: Id
    var subs: set<Id>
    var heard: map<Id, seq<Event>>
    ghost var published: seq<Event>

    ghost function View(): Feed
      reads this
    {
      Feed(nextID, subs, heard, published)
    }

    constructor ()
      ensures View() == SILENT
    {
      nextID, subs, heard, published := 0, {}, map[], [];
    }

    method Subscribe() returns (id: Id)
      modifies this
      ensures View() == Next(old(View()), Step.Subscribe) && id == old(nextID)
    {
      id := nextID;
      nextID := nextID + 1;
      subs := subs + {id};
    }

    method Unsubscribe(id: Id)
      modifies this
      ensures View() == Next(old(View()), Step.Unsubscribe(id))
    {
      subs := subs - {id};
    }

    /** Call one subscriber; a panic inside the call is recovered here. */
    method Deliver(id: Id, e: Event, panics: Id -> bool) returns (recovered: bool)
      modifies this`heard
      ensures heard == Tell(old(heard), {id}, e) && recovered == panics(id)
    {
      heard := heard[id := (if id in heard then heard[id] else []) + [e]];
      assert heard == Tell(old(heard), {id}, e);
      recovered := panics(id);
    }

    /** Every current subscriber is called once, in map order, whoever panics. */
    method Publish(e: Event, panics: Id -> bool)
      modifies this
      ensures View() == Next(old(View()), Step.Publish(e))
    {
      var left := subs;
      ghost var told: set<Id> := {};
      assert heard == Tell(heard, {}, e);
      while left != {}
        invariant left !! told && left + told == subs == old(subs)
        invariant nextID == old(nextID) && published == old(published)
        invariant heard == Tell(old(heard), told, e)
        decreases left
      {
        var id :| id in left;
        var recovered := Deliver(id, e, panics);
        assert heard == Tell(old(heard), told + {id}, e);
        left, told := left - {id}, told + {id};
      }
      assert told == subs;
      published := published + [e];
    }
  }

  // ----- What a subscriber hears

  function Spoken(a: Step): seq<Event> {
    if a.Publish? then [a.event] else []
  }

  function Events(steps: seq<Step>): seq<Event> {
    if steps == [] then [] else Spoken(steps[0]) + Events(steps[1..])
  }

  lemma {:induction false} RunAppend(f: Feed, a: seq<Step>, b: seq<Step>)
    ensures Run(f, a + b) == Run(Run(f, a), b)
    decreases a
  {
    if a == [] {
      assert a + b == b;
    } else {
      assert (a + b)[1..] == a[1..] + b;
      RunAppend(Next(f, a[0]), a[1..], b);
    }
  }

  ghost predicate Numbered(f: Feed) {
    && (forall id | id in f.subs :: id < f.nextID)
    && (forall id | id in f.heard :: id < f.nextID)
  }

  lemma {:induction false} RunNumbered(f: Feed, steps: seq<Step>)
    requires Numbered(f)
    ensures Numbered(Run(f, steps)) && f.nextID <= Run(f, steps).nextID
    decreases steps
  {
    if steps != [] {
      RunNumbered(Next(f, steps[0]), steps[1..]);
    }
  }

  lemma ListenerStep(f: Feed, a: Step, id: Id)
    requires id in f.subs && a != Unsubscribe(id)
    ensures id in Next(f, a).subs && Heard(Next(f, a), id) == Heard(f, id) + Spoken(a)
  {
  }

  /** A subscriber hears everything published, in order, until it leaves. */
  lemma {:induction false} ListenerHears(f: Feed, steps: seq<Step>, id: Id)
    requires id in f.subs && forall k | 0 <= k < |steps| :: steps[k] != Unsubscribe(id)
    ensures id in Run(f, steps).subs && Heard(Run(f, steps), id) == Heard(f, id) + Events(steps)
    decreases steps
  {
    if steps == [] {
      assert Heard(f, id) + [] == Heard(f, id);
    } else {
      ListenerStep(f, steps[0], id);
      ListenerHears(Next(f, steps[0]), steps[1..], id);
      Regroup(Heard(f, id), Spoken(steps[0]), Events(steps[1..]));
    }
  }

  lemma Regroup(a: seq<Event>, b: seq<Event>, c: seq<Event>)
    ensures (a + b) + c == a + (b + c)
  {
  }

  lemma {:induction false} StreamIsEvents(f: Feed, steps: seq<Step>)
    ensures Run(f, steps).published == f.published + Events(steps)
    decreases steps
  {
    if steps == [] {
      assert f.published + [] == f.published;
    } else {
      StreamIsEvents(Next(f, steps[0]), steps[1..]);
      assert Next(f, steps[0]).published == f.published + Spoken(steps[0]);
      Regroup(f.published, Spoken(steps[0]), Events(steps[1..]));
    }
  }

  lemma {:induction false} AbsenteeHearsNothing(f: Feed, steps: seq<Step>, id: Id)
    requires Numbered(f) && id !in f.subs && id < f.nextID
    ensures id !in Run(f, steps).subs && Heard(Run(f, steps), id) == Heard(f, id)
    decreases steps
  {
    if steps != [] {
      AbsenteeHearsNothing(Next(f, steps[0]), steps[1..], id);
    }
  }

  lemma SubscribeRun(before: seq<Step>, during: seq<Step>)
    ensures var id := Run(SILENT, before).nextID;
      var f := Next(Run(SILENT, before), Subscribe);
      && Run(SILENT, before + [Subscribe] + during) == Run(f, during)
      && Numbered(f) && id in f.subs && Heard(f, id) == [] && id < f.nextID
  {
    RunNumbered(SILENT, before);
    RunAppend(SILENT, before + [Subscribe], during);
    RunAppend(SILENT, before, [Subscribe]);
    assert [Subscribe][1..] == [];
    var f := Run(SILENT, before);
    assert Run(f, [Subscribe]) == Run(Next(f, Subscribe), []);
  }

  /** Each subscriber hears exactly the contiguous stretch of the stream published
      between its subscribe and its unsubscribe, whatever other subscribers do. */
  lemma SubscriberHearsItsSegment(before: seq<Step>, during: seq<Step>, after: seq<Step>)
    requires Unsubscribe(Run(SILENT, before).nextID) !in during
    ensures var id := Run(SILENT, before).nextID;
      && Heard(Run(SILENT, before + [Subscribe] + during), id) == Events(during)
      && Heard(Run(SILENT, before + [Subscribe] + during + [Unsubscribe(id)] + after), id) == Events(during)
  {
    var id := Run(SILENT, before).nextID;
    SubscribeRun(before, during);
    var f := Next(Run(SILENT, before), Subscribe);
    ListenerHears(f, during, id);
    RunNumbered(f, during);
    var g := Run(f, during);
    var leave := before + [Subscribe] + during + [Unsubscribe(id)];
    RunAppend(SILENT, before + [Subscribe] + during, [Unsubscribe(id)]);
    assert [Unsubscribe(id)][1..] == [];
    assert Run(g, [Unsubscribe(id)]) == Run(Next(g, Unsubscribe(id)), []);
    RunAppend(SILENT, leave, after);
    AbsenteeHearsNothing(Next(g, Unsubscribe(id)), after, id);
  }

  /** An id is handed out once: repeating an unsubscribe, however late, removes
      nobody. */
  lemma StaleUnsubscribeIsInert(before: seq<Step>, id: Id, after: seq<Step>)
    requires id < Run(SILENT, before).nextID
    ensures var f := Run(Next(Run(SILENT, before), Unsubscribe(id)), after);
      Next(f, Unsubscribe(id)) == f
  {
    RunNumbered(SILENT, before);
    var f := Next(Run(SILENT, before), Unsubscribe(id));
    AbsenteeHearsNothing(f, after, id);
    assert Run(f, after).subs - {id} == Run(f, after).subs;
  }

  // ----- The poller

  /** What one batch adds to the stream when the cursor stands at `c`. */
  function Fresh(c: int, evs: seq<Event>): seq<Event>
    decreases evs
  {
    if evs == [] then []
    else if evs[0].at <= c then Fresh(c, evs[1..])
    else [evs[0]] + Fresh(evs[0].at, evs[1..])
  }

  function Cursor(c: int, evs: seq<Event>): int
    decreases evs
  {
    if evs == [] then c else Cursor(if evs[0].at <= c then c else evs[0].at, evs[1..])
  }

  function PublishAll(f: Feed, evs: seq<Event>): Feed
    decreases evs
  {
    if evs == [] then f else PublishAll(Next(f, Publish(evs[0])), evs[1..])
  }

  class Poller {
    const bcast: Broadcaster
    const batch: nat
    var lastSeq: int

    constructor (bcast: Broadcaster, batch: int, startSeq: int)
      ensures this.bcast == bcast && lastSeq == startSeq
      ensures this.batch == if batch <= 0 then 512 else batch
    {
      this.bcast := bcast;
      this.batch := if batch <= 0 then 512 else batch;
      lastSeq := startSeq;
    }

    /** `head` is the source's answer, None when the read failed. */
    method SeekToHead(head: Option<int>) returns (failed: bool)
      modifies this
      ensures failed == head.None? && lastSeq == if head.None? then old(lastSeq) else head.value
    {
      if head.None? {
        return true;
      }
      lastSeq := head.value;
      failed := false;
    }

    /** `read` is whatever the source returns for the cursor and the batch size. */
    method Poll(read: Read, panics: Id -> bool) returns (failed: bool)
      modifies this, bcast
      ensures failed == read.None?
      ensures lastSeq == if read.None? then old(lastSeq) else Cursor(old(lastSeq), read.value)
      ensures bcast.View() == PublishAll(old(bcast.View()), if read.None? then [] else Fresh(old(lastSeq), read.value))
    {
      if read.None? {
        return true;
      }
      var evs := read.value;
      var i := 0;
      while i < |evs|
        invariant i <= |evs|
        invariant Cursor(old(lastSeq), evs) == Cursor(lastSeq, evs[i..])
        invariant PublishAll(old(bcast.View()), Fresh(old(lastSeq), evs))
          == PublishAll(bcast.View(), Fresh(lastSeq, evs[i..]))
      {
        assert evs[i..][1..] == evs[i + 1..];
        var e := evs[i];
        i := i + 1;
        if e.at <= lastSeq {
          continue;
        }
        assert ([e] + Fresh(e.at, evs[i..]))[1..] == Fresh(e.at, evs[i..]);
        bcast.Publish(e, panics);
        lastSeq := e.at;
      }
      failed := false;
    }
  }

  lemma {:induction false} PublishAllStreams(f: Feed, evs: seq<Event>)
    ensures PublishAll(f, evs).published == f.published + evs
    decreases evs
  {
    if evs != [] {
      PublishAllStreams(Next(f, Publish(evs[0])), evs[1..]);
    }
  }

  // ----- Any source: the stream ascends

  ghost predicate Ascending(evs: seq<Event>) {
    forall i, j | 0 <= i < j < |evs| :: evs[i].at < evs[j].at
  }

  ghost predicate Above(c: int, evs: seq<Event>) {
    forall i | 0 <= i < |evs| :: c < evs[i].at
  }

  /** A stretch of the stream that takes the cursor from `c` to `c'`. */
  ghost predicate Leads(c: int, evs: seq<Event>, c': int) {
    && Ascending(evs) && Above(c, evs) && c <= c'
    && c' == (if evs == [] then c else evs[|evs| - 1].at)
  }

  lemma LeadsJoin(c: int, a: seq<Event>, c1: int, b: seq<Event>, c2: int)
    requires Leads(c, a, c1) && Leads(c1, b, c2)
    ensures Leads(c, a + b, c2)
  {
    assert forall i | 0 <= i < |a| :: a[i].at <= c1;
  }

  lemma {:induction false} FreshAscends(c: int, evs: seq<Event>)
    ensures Leads(c, Fresh(c, evs), Cursor(c, evs))
    decreases evs
  {
    if evs != [] {
      if evs[0].at <= c {
        FreshAscends(c, evs[1..]);
      } else {
        FreshAscends(evs[0].at, evs[1..]);
        LeadsJoin(c, [evs[0]], evs[0].at, Fresh(evs[0].at, evs[1..]), Cursor(c, evs));
      }
    }
  }

  /** Everything a series of polls publishes, and where it leaves the cursor. */
  function Stream(c: int, polls: seq<Read>): seq<Event>
    decreases polls
  {
    if polls == [] then []
    else if polls[0].None? then Stream(c, polls[1..])
    else Fresh(c, polls[0].value) + Stream(Cursor(c, polls[0].value), polls[1..])
  }

  function CursorAfter(c: int, polls: seq<Read>): int
    decreases polls
  {
    if polls == [] then c
    else CursorAfter(if polls[0].None? then c else Cursor(c, polls[0].value), polls[1..])
  }

  /** Whatever the source returns, the published sequence numbers strictly ascend from
      the start cursor, and the cursor is the last of them. */
  lemma {:induction false} StreamAscends(c: int, polls: seq<Read>)
    ensures Leads(c, Stream(c, polls), CursorAfter(c, polls))
    decreases polls
  {
    if polls != [] {
      if polls[0].None? {
        StreamAscends(c, polls[1..]);
      } else {
        var evs := polls[0].value;
        var c1 := Cursor(c, evs);
        FreshAscends(c, evs);
        StreamAscends(c1, polls[1..]);
        LeadsJoin(c, Fresh(c, evs), c1, Stream(c1, polls[1..]), CursorAfter(c1, polls[1..]));
      }
    }
  }

  lemma AscendingJoin(a: seq<Event>, b: seq<Event>, c: int)
    requires Ascending(a) && Ascending(b) && Above(c, b)
    requires a != [] ==> a[|a| - 1].at <= c
    ensures Ascending(a + b)
  {
    assert forall i | 0 <= i < |a| :: a[i].at <= c;
  }

  /** Seeking keeps that promise across the seek, for every source, exactly when the
      new cursor is not behind what was already published. */
  lemma SeekIsSafeIff(published: seq<Event>, head: int)
    requires Ascending(published) && published != []
    ensures published[|published| - 1].at <= head <==>
            forall polls: seq<Read> :: Ascending(published + Stream(head, polls))
  {
    var last := published[|published| - 1].at;
    if last <= head {
      forall polls: seq<Read>
        ensures Ascending(published + Stream(head, polls))
      {
        StreamAscends(head, polls);
        AscendingJoin(published, Stream(head, polls), head);
      }
    } else {
      var again := [Some([Event(last, 0)])];
      assert again[1..] == [] && [Event(last, 0)][1..] == [];
      assert Fresh(head, [Event(last, 0)]) == [Event(last, 0)] + Fresh(last, []);
      assert Stream(head, again) == [Event(last, 0)];
      var both := published + Stream(head, again);
      assert both[|published| - 1].at == both[|published|].at;
    }
  }

  // ----- The durable log as source: first `batch` rows after the cursor, in order

  /** How many rows of an ascending log the cursor has passed. */
  function Passed(log: seq<Event>, c: int): (n: nat)
    ensures n <= |log|
  {
    if log == [] || log[0].at > c then 0 else 1 + Passed(log[1..], c)
  }

  function Window(log: seq<Event>, c: int, batch: nat): seq<Event> {
    var from := Passed(log, c);
    log[from..if from + batch <= |log| then from + batch else |log|]
  }

  lemma {:induction false} PassedSplits(log: seq<Event>, c: int)
    requires Ascending(log)
    ensures forall i | 0 <= i < |log| :: log[i].at <= c <==> i < Passed(log, c)
  {
    if log != [] {
      PassedSplits(log[1..], c);
      assert forall i | 0 < i < |log| :: log[i] == log[1..][i - 1];
    }
  }

  lemma PassedRow(log: seq<Event>, m: nat)
    requires Ascending(log) && m < |log|
    ensures Passed(log, log[m].at) == m + 1
  {
    var n := Passed(log, log[m].at);
    PassedSplits(log, log[m].at);
    assert m < n;
    assert m + 1 < |log| ==> log[m + 1].at > log[m].at && !(m + 1 < n);
  }

  lemma {:induction false} FreshOfAscending(c: int, evs: seq<Event>)
    requires Ascending(evs) && Above(c, evs)
    ensures Fresh(c, evs) == evs
    ensures Cursor(c, evs) == if evs == [] then c else evs[|evs| - 1].at
    decreases evs
  {
    if evs != [] {
      assert Above(evs[0].at, evs[1..]);
      FreshOfAscending(evs[0].at, evs[1..]);
    }
  }

  lemma WindowIs(log: seq<Event>, c: int, batch: nat)
    ensures var w, n := Window(log, c, batch), Passed(log, c);
      n + |w| <= |log| && w == log[n..n + |w|]
  {
  }

  lemma SliceAscends(log: seq<Event>, from: nat, to: nat)
    requires Ascending(log) && from <= to <= |log|
    ensures Ascending(log[from..to])
  {
  }

  lemma PassedSlice(final: seq<Event>, w: seq<Event>, n: nat)
    requires Ascending(final) && w != [] && n + |w| <= |final| && w == final[n..n + |w|]
    ensures Passed(final, w[|w| - 1].at) == n + |w|
  {
    PassedRow(final, n + |w| - 1);
  }

  lemma WindowAbove(log: seq<Event>, c: int, batch: nat)
    requires Ascending(log)
    ensures Above(c, Window(log, c, batch))
  {
    PassedSplits(log, c);
    var w, n := Window(log, c, batch), Passed(log, c);
    assert forall i | 0 <= i < |w| :: w[i] == log[n + i];
  }

  /** One poll of the log publishes its window and moves the cursor past exactly it. */
  lemma PollOfLog(log: seq<Event>, c: int, batch: nat)
    requires Ascending(log)
    ensures var w := Window(log, c, batch);
      && Fresh(c, w) == w
      && Cursor(c, w) == (if w == [] then c else w[|w| - 1].at)
      && Passed(log, Cursor(c, w)) == Passed(log, c) + |w|
  {
    var w, n := Window(log, c, batch), Passed(log, c);
    WindowIs(log, c, batch);
    SliceAscends(log, n, n + |w|);
    WindowAbove(log, c, batch);
    FreshOfAscending(c, w);
    if w != [] {
      PassedSlice(log, w, n);
    }
  }

  /** One tick of the poll loop: the log as it then stands, and whether the read works. */
  datatype Tick = Tick(log: seq<Event>, works: bool)

  function Answer(t: Tick, c: int, batch: nat): Read {
    if t.works then Some(Window(t.log, c, batch)) else None
  }

  /** The reads a poller with cursor `c` gets over these ticks. */
  function Reads(c: int, batch: nat, ticks: seq<Tick>): seq<Read>
    decreases ticks
  {
    if ticks == [] then []
    else
      var r := Answer(ticks[0], c, batch);
      [r] + Reads(if r.None? then c else Cursor(c, r.value), batch, ticks[1..])
  }

  function Published(c: int, batch: nat, ticks: seq<Tick>): seq<Event> {
    Stream(c, Reads(c, batch, ticks))
  }

  function CursorOf(c: int, batch: nat, ticks: seq<Tick>): int {
    CursorAfter(c, Reads(c, batch, ticks))
  }

  function Advanced(c: int, batch: nat, t: Tick): int {
    if t.works then Cursor(c, Window(t.log, c, batch)) else c
  }

  lemma FirstTick(c: int, batch: nat, ticks: seq<Tick>)
    requires ticks != [] && Ascending(ticks[0].log)
    ensures var c1, rest := Advanced(c, batch, ticks[0]), ticks[1..];
      && Published(c, batch, ticks)
           == (if ticks[0].works then Window(ticks[0].log, c, batch) else []) + Published(c1, batch, rest)
      && CursorOf(c, batch, ticks) == CursorOf(c1, batch, rest)
  {
    var reads1 := Reads(c, batch, ticks);
    PollOfLog(ticks[0].log, c, batch);
    assert reads1[1..] == Reads(Advanced(c, batch, ticks[0]), batch, ticks[1..]);
  }

  ghost predicate Sorted(ticks: seq<Tick>) {
    forall i | 0 <= i < |ticks| :: Ascending(ticks[i].log)
  }

  /** The log only grows, and only upward. */
  ghost predicate Growing(ticks: seq<Tick>, final: seq<Event>) {
    forall i | 0 <= i < |ticks| :: ticks[i].log <= final
  }

  lemma {:induction false} PrefixPassed(log: seq<Event>, final: seq<Event>, c: int)
    requires log <= final && Ascending(final)
    ensures Ascending(log)
    ensures Passed(log, c) < |log| ==> Passed(final, c) == Passed(log, c)
  {
    if log != [] {
      assert log[1..] <= final[1..];
      PrefixPassed(log[1..], final[1..], c);
      assert forall i | 0 <= i < |log| :: log[i] == final[i];
    }
  }

  /** After any number of polls of a growing log, failed reads included, the published
      stream is exactly the log's rows between the start cursor and the cursor, once
      each and in order. */
  lemma {:induction false} PollsRefineTheLog(c: int, batch: nat, ticks: seq<Tick>, final: seq<Event>)
    requires Ascending(final) && Growing(ticks, final)
    ensures c <= CursorOf(c, batch, ticks)
    ensures Passed(final, c) <= Passed(final, CursorOf(c, batch, ticks))
    ensures Published(c, batch, ticks) == final[Passed(final, c)..Passed(final, CursorOf(c, batch, ticks))]
    decreases ticks
  {
    if ticks != [] {
      var c1 := Advanced(c, batch, ticks[0]);
      TickInFinal(ticks[0], final, c, batch);
      FirstTick(c, batch, ticks);
      PollsRefineTheLog(c1, batch, ticks[1..], final);
      SlicesJoin(final, Passed(final, c), Passed(final, c1), Passed(final, CursorOf(c1, batch, ticks[1..])));
    }
  }

  lemma SlicesJoin(final: seq<Event>, a: nat, b: nat, d: nat)
    requires a <= b <= d <= |final|
    ensures final[a..b] + final[b..d] == final[a..d]
  {
  }

  lemma TickInFinal(tick: Tick, final: seq<Event>, c: int, batch: nat)
    requires tick.log <= final && Ascending(final)
    ensures Ascending(tick.log)
    ensures Spans(final, c, if tick.works then Window(tick.log, c, batch) else [], Advanced(c, batch, tick))
  {
    WindowInFinal(tick.log, final, c, batch);
    NoSpan(final, c);
  }

  lemma PrefixSlice(log: seq<Event>, final: seq<Event>, from: nat, to: nat)
    requires log <= final && from <= to <= |log|
    ensures log[from..to] == final[from..to]
  {
    assert log == final[..|log|];
  }

  lemma FullWindow(log: seq<Event>, final: seq<Event>, c: int, batch: nat, w: seq<Event>, n: nat)
    requires log <= final && Ascending(final) && w == Window(log, c, batch) && w != [] && n == Passed(log, c)
    ensures n + |w| <= |final| && Passed(final, c) == n && w == final[n..n + |w|]
  {
    WindowIs(log, c, batch);
    PrefixPassed(log, final, c);
    PrefixSlice(log, final, n, n + |w|);
  }

  /** `w` is the stretch of the log that takes the cursor from `c` to `c'`. */
  ghost predicate Spans(final: seq<Event>, c: int, w: seq<Event>, c': int) {
    && c <= c' && Passed(final, c') == Passed(final, c) + |w|
    && w == final[Passed(final, c)..Passed(final, c')]
  }

  lemma SpanOf(final: seq<Event>, c: int, w: seq<Event>, n: nat)
    requires Ascending(final) && w != [] && Passed(final, c) == n && n + |w| <= |final| && w == final[n..n + |w|]
    requires c <= w[|w| - 1].at
    ensures Spans(final, c, w, w[|w| - 1].at)
  {
    PassedSlice(final, w, n);
  }

  lemma NoSpan(final: seq<Event>, c: int)
    ensures Spans(final, c, [], c)
  {
  }

  lemma WindowInFinal(log: seq<Event>, final: seq<Event>, c: int, batch: nat)
    requires log <= final && Ascending(final)
    ensures Ascending(log)
    ensures Spans(final, c, Window(log, c, batch), Cursor(c, Window(log, c, batch)))
  {
    var w, n := Window(log, c, batch), Passed(log, c);
    PrefixPassed(log, final, c);
    PollOfLog(log, c, batch);
    FreshAscends(c, w);
    if w == [] {
      NoSpan(final, c);
    } else {
      FullWindow(log, final, c, batch, w, n);
      SpanOf(final, c, w, n);
    }
  }

  // ----- Rows deleted behind the poller's back

  /** Rows may vanish between ticks, but a new row always comes on top. */
  ghost predicate Evolves(older: seq<Event>, newer: seq<Event>) {
    forall e | e in newer && e !in older :: forall d | d in older :: d.at < e.at
  }

  lemma {:induction false} PassedMonotone(log: seq<Event>, lo: int, hi: int)
    requires lo <= hi
    ensures Passed(log, lo) <= Passed(log, hi)
  {
    if log != [] {
      PassedMonotone(log[1..], lo, hi);
    }
  }

  lemma SliceMembers(log: seq<Event>, from: nat, to: nat, e: Event)
    requires from <= to <= |log|
    ensures e in log[from..to] <==> exists i | from <= i < to :: log[i] == e
  {
    var rows := log[from..to];
    if e in rows {
      var k :| 0 <= k < |rows| && rows[k] == e;
      assert log[from + k] == e;
    }
    if i :| from <= i < to && log[i] == e {
      assert rows[i - from] == e;
    }
  }

  lemma RowIndex(log: seq<Event>, lo: int, hi: int, e: Event) returns (i: nat)
    requires Ascending(log) && e in log && lo < e.at <= hi
    ensures Passed(log, lo) <= i < Passed(log, hi) && log[i] == e
  {
    PassedSplits(log, lo);
    PassedSplits(log, hi);
    i :| 0 <= i < |log| && log[i] == e;
  }

  lemma RowBetween(log: seq<Event>, lo: int, hi: int, e: Event)
    requires Ascending(log) && Passed(log, lo) <= Passed(log, hi)
    ensures e in log[Passed(log, lo)..Passed(log, hi)] <==> e in log && lo < e.at <= hi
  {
    SliceMembers(log, Passed(log, lo), Passed(log, hi), e);
    if e in log && lo < e.at <= hi {
      var i := RowIndex(log, lo, hi, e);
    }
    if i :| Passed(log, lo) <= i < Passed(log, hi) && log[i] == e {
      PassedSplits(log, lo);
      PassedSplits(log, hi);
    }
  }

  lemma RowsBetween(log: seq<Event>, lo: int, hi: int)
    requires Ascending(log) && lo <= hi
    ensures Passed(log, lo) <= Passed(log, hi)
    ensures var rows := log[Passed(log, lo)..Passed(log, hi)];
      Ascending(rows) && forall e :: e in rows <==> e in log && lo < e.at <= hi
  {
    PassedMonotone(log, lo, hi);
    SliceAscends(log, Passed(log, lo), Passed(log, hi));
    forall e
      ensures e in log[Passed(log, lo)..Passed(log, hi)] <==> e in log && lo < e.at <= hi
    {
      RowBetween(log, lo, hi, e);
    }
  }

  lemma WindowAt(log: seq<Event>, c: int, batch: nat, i: nat)
    requires Passed(log, c) <= i < Passed(log, c) + |Window(log, c, batch)|
    ensures i < |log| && log[i] in Window(log, c, batch)
  {
    assert Window(log, c, batch)[i - Passed(log, c)] == log[i];
  }

  lemma WindowCovers(log: seq<Event>, c: int, batch: nat, e: Event)
    requires Ascending(log) && e in log && c < e.at <= Cursor(c, Window(log, c, batch))
    ensures e in Window(log, c, batch)
  {
    PollOfLog(log, c, batch);
    var i := RowIndex(log, c, Cursor(c, Window(log, c, batch)), e);
    WindowAt(log, c, batch, i);
  }

  /** Nothing that is still in the log is ever skipped: deletions may race with the
      polls, but every surviving row up to the cursor has been published. */
  lemma {:induction false} NothingSurvivingIsLost(c: int, batch: nat, ticks: seq<Tick>, final: seq<Event>, e: Event)
    requires Sorted(ticks) && forall i | 0 <= i < |ticks| :: Evolves(ticks[i].log, final)
    requires e in final && c < e.at <= CursorOf(c, batch, ticks)
    ensures e in Published(c, batch, ticks)
    decreases ticks
  {
    assert ticks != [];
    var log, rest, c1 := ticks[0].log, ticks[1..], Advanced(c, batch, ticks[0]);
    FirstTick(c, batch, ticks);
    if c1 < e.at {
      NothingSurvivingIsLost(c1, batch, rest, final, e);
    } else {
      assert Evolves(log, final);
      PollOfLog(log, c, batch);
      var w := Window(log, c, batch);
      assert w != [] && w[|w| - 1].at == c1;
      assert w[|w| - 1] in log;
      WindowCovers(log, c, batch, e);
    }
  }

  /** Every row a poll published from its log is still in the log now. */
  ghost predicate PublishedRowsStay(c: int, batch: nat, ticks: seq<Tick>, final: seq<Event>) {
    forall e | e in Published(c, batch, ticks) :: e in final
  }

  lemma {:induction false} StreamOf(c: int, batch: nat, ticks: seq<Tick>)
    ensures var stream := Published(c, batch, ticks);
      && Ascending(stream) && Above(c, stream)
      && c <= CursorOf(c, batch, ticks)
      && forall i | 0 <= i < |stream| :: stream[i].at <= CursorOf(c, batch, ticks)
  {
    var stream := Published(c, batch, ticks);
    StreamAscends(c, Reads(c, batch, ticks));
    assert forall i | 0 <= i < |stream| :: stream[i].at <= stream[|stream| - 1].at;
  }

  lemma Least(a: seq<Event>, e: Event)
    requires Ascending(a) && e in a
    ensures a != [] && a[0] in a && a[0].at <= e.at && (a[0].at == e.at ==> a[0] == e)
  {
    var i :| 0 <= i < |a| && a[i] == e;
    assert i == 0 || a[0].at < a[i].at;
  }

  lemma {:induction false} AscendingListsAgree(a: seq<Event>, b: seq<Event>)
    requires Ascending(a) && Ascending(b) && forall e :: e in a <==> e in b
    ensures a == b
  {
    assert forall e | e in b :: e in a;
    if a != [] {
      Least(b, a[0]);
      Least(a, b[0]);
      RestOf(a);
      RestOf(b);
      AscendingListsAgree(a[1..], b[1..]);
    } else {
      SomeMember(b);
    }
  }

  lemma SomeMember(a: seq<Event>)
    ensures a != [] ==> exists e :: e in a
  {
    if a != [] {
      assert a[0] in a;
    }
  }

  lemma RestOf(a: seq<Event>)
    requires Ascending(a) && a != []
    ensures Ascending(a[1..]) && forall e :: e in a[1..] <==> e in a && e != a[0]
  {
    assert forall e | e in a :: e == a[0] || e in a[1..];
    assert forall i | 0 < i < |a| :: a[0].at < a[i].at;
  }

  /** With rows deleted between polls the published stream is the surviving log between
      the two cursors if and only if no row was deleted after it had been published. */
  lemma PollsRefineTheSurvivorsIff(c: int, batch: nat, ticks: seq<Tick>, final: seq<Event>)
    requires Sorted(ticks) && Ascending(final) && forall i | 0 <= i < |ticks| :: Evolves(ticks[i].log, final)
    ensures var c' := CursorOf(c, batch, ticks);
      && Passed(final, c) <= Passed(final, c')
      && ((Published(c, batch, ticks) == final[Passed(final, c)..Passed(final, c')]) <==>
          PublishedRowsStay(c, batch, ticks, final))
  {
    var c', stream := CursorOf(c, batch, ticks), Published(c, batch, ticks);
    StreamOf(c, batch, ticks);
    RowsBetween(final, c, c');
    var rows := final[Passed(final, c)..Passed(final, c')];
    if PublishedRowsStay(c, batch, ticks, final) {
      forall e
        ensures e in stream <==> e in rows
      {
        if e in rows {
          NothingSurvivingIsLost(c, batch, ticks, final, e);
        }
      }
      AscendingListsAgree(stream, rows);
    }
  }

  lemma SingleRow(e: Event, c: int, batch: nat)
    requires c < e.at && batch > 0
    ensures Window([e], c, batch) == [e]
  {
    assert Passed([e], c) == 0;
  }

  lemma EmptyTick(c: int, batch: nat)
    ensures Published(c, batch, [Tick([], true)]) == []
  {
    FirstTick(c, batch, [Tick([], true)]);
    assert [Tick([], true)][1..] == [];
    assert Window([], c, batch) == [];
  }

  /** Publish a row, delete it, poll again: the stream holds a row the log no longer
      has, so it is not what is left between the cursors. */
  lemma DeletionBehindTheCursor(e: Event, c: int, batch: nat)
    requires c < e.at && batch > 0
    ensures var ticks, final := [Tick([e], true), Tick([], true)], [];
      && Sorted(ticks) && (forall i | 0 <= i < |ticks| :: Evolves(ticks[i].log, final))
      && Published(c, batch, ticks) == [e] && !PublishedRowsStay(c, batch, ticks, final)
      && Published(c, batch, ticks) != final[Passed(final, c)..Passed(final, CursorOf(c, batch, ticks))]
  {
    var ticks := [Tick([e], true), Tick([], true)];
    SingleRow(e, c, batch);
    FirstTick(c, batch, ticks);
    assert ticks[1..] == [Tick([], true)];
    EmptyTick(Advanced(c, batch, ticks[0]), batch);
  }

  // ----- Draining

  function Backlog(log: seq<Event>, c: int): nat {
    |log| - Passed(log, c)
  }

  function Repeat(log: seq<Event>, k: nat): seq<Tick> {
    seq(k, i => Tick(log, true))
  }

  lemma {:induction false} DrainsByBatches(log: seq<Event>, c: int, batch: nat, k: nat)
    requires Ascending(log)
    ensures var n := Backlog(log, c);
      Backlog(log, CursorOf(c, batch, Repeat(log, k))) == if k * batch <= n then n - k * batch else 0
    decreases k
  {
    if k > 0 {
      var ticks := Repeat(log, k);
      FirstTick(c, batch, ticks);
      PollOfLog(log, c, batch);
      assert ticks[1..] == Repeat(log, k - 1);
      DrainsByBatches(log, Advanced(c, batch, ticks[0]), batch, k - 1);
      OneMore(k, batch);
    }
  }

  lemma OneMore(k: nat, batch: nat)
    requires k > 0
    ensures k * batch == (k - 1) * batch + batch && (k - 1) * batch >= 0
  {
  }

  /** On a quiet log every poll drains one batch: a backlog of n is gone after
      ceil(n / batch) polls and not before. */
  lemma Drains(log: seq<Event>, c: int, batch: nat, k: nat)
    requires Ascending(log) && batch > 0
    ensures Backlog(log, CursorOf(c, batch, Repeat(log, k))) == 0 <==> k >= (Backlog(log, c) + batch - 1) / batch
  {
    DrainsByBatches(log, c, batch, k);
    CeilingSplits(Backlog(log, c), batch, k);
  }

  lemma CeilingSplits(n: nat, batch: nat, k: nat)
    requires batch > 0
    ensures n <= k * batch <==> k >= (n + batch - 1) / batch
  {
    var q := (n + batch - 1) / batch;
    assert q * batch <= n + batch - 1 < q * batch + batch;
    if k >= q {
      assert k * batch >= q * batch;
    } else {
      assert k * batch <= (q - 1) * batch;
      assert (q - 1) * batch == q * batch - batch;
    }
  }
}
