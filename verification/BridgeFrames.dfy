/** Newline-terminated frames on the browser bridge: what a writer puts on the wire,
    and what the peer's line reader makes of it, however the bytes are cut up. */
module BridgeFrames {

  type Bytes = string

  /** An encoded message; the encoder never emits a raw newline. */
  type Body = b: Bytes | '\n' !in b

  /** The broker refuses longer frames, newline included. */
  const MAX_FRAME_BYTES: nat := 8 * 1024 * 1024

  /** The peer drops the connection over longer lines. */
  const MAX_COMMAND_BYTES: nat := 1024 * 1024

  function Line(body: Body): Bytes { body + ['\n'] }

  /** One write: how much of the frame reached the connection, and what the caller
      was told. */
  datatype Attempt = Attempt(body: Body, sent: nat, ok: bool)

  function Sent(a: Attempt): Bytes {
    if a.sent <= |a.body| then a.body[..a.sent] else Line(a.body)
  }

  predicate Whole(a: Attempt) { a.sent > |a.body| }

  predicate Torn(a: Attempt) { 0 < a.sent <= |a.body| }

  function Stream(log: seq<Attempt>): Bytes {
    if log == [] then [] else Sent(log[0]) + Stream(log[1..])
  }

  function Wholes(log: seq<Attempt>): seq<Bytes> {
    if log == [] then [] else (if Whole(log[0]) then [log[0].body] else []) + Wholes(log[1..])
  }

  lemma {:induction false} StreamAppend(a: seq<Attempt>, b: seq<Attempt>)
    ensures Stream(a + b) == Stream(a) + Stream(b)
  {
    if a == [] {
      assert a + b == b;
    } else {
      assert (a + b)[1..] == a[1..] + b;
      StreamAppend(a[1..], b);
    }
  }

  lemma StreamSnoc(log: seq<Attempt>, a: Attempt)
    ensures Stream(log + [a]) == Stream(log) + Sent(a)
  {
    StreamAppend(log, [a]);
    assert Stream([a]) == Sent(a) + Stream([a][1..]);
  }

  // ----- The peer's reader, one byte at a time

  datatype Reader = Reader(lines: seq<Bytes>, buffer: Bytes, dead: bool)

  const FRESH := Reader([], [], false)

  function ReadByte(r: Reader, b: char): Reader {
    if r.dead then r
    else if b == '\n' then Reader(r.lines + [r.buffer], [], false)
    else
      var buffer := r.buffer + [b];
      Reader(r.lines, buffer, |buffer| > MAX_COMMAND_BYTES)
  }

  function Read(r: Reader, s: Bytes): Reader
    decreases s
  {
    if s == [] then r else Read(ReadByte(r, s[0]), s[1..])
  }

  lemma {:induction false} ReadAppend(r: Reader, a: Bytes, b: Bytes)
    ensures Read(r, a + b) == Read(Read(r, a), b)
    decreases a
  {
    if a == [] {
      assert a + b == b;
    } else {
      assert (a + b)[1..] == a[1..] + b;
      ReadAppend(ReadByte(r, a[0]), a[1..], b);
    }
  }

  lemma {:induction false} DeadStays(r: Reader, s: Bytes)
    requires r.dead
    ensures Read(r, s) == r
    decreases s
  {
    if s != [] {
      DeadStays(r, s[1..]);
    }
  }

  predicate Resting(r: Reader) {
    !r.dead && |r.buffer| <= MAX_COMMAND_BYTES
  }

  /** Text without a newline only fills the buffer, until it overflows. */
  lemma {:induction false} ReadText(r: Reader, s: Bytes)
    requires Resting(r) && '\n' !in s
    ensures Read(r, s).lines == r.lines
    ensures Read(r, s).dead <==> |r.buffer + s| > MAX_COMMAND_BYTES
    ensures !Read(r, s).dead ==> Read(r, s) == Reader(r.lines, r.buffer + s, false)
    decreases s
  {
    if s != [] {
      var r' := ReadByte(r, s[0]);
      assert s[0] in s && forall c | c in s[1..] :: c in s;
      assert r.buffer + s == r'.buffer + s[1..];
      if r'.dead {
        DeadStays(r', s[1..]);
      } else {
        ReadText(r', s[1..]);
      }
    } else {
      assert r.buffer + s == r.buffer;
    }
  }

  lemma ReadLine(r: Reader, body: Body)
    requires Resting(r)
    ensures Read(r, Line(body)).dead <==> |r.buffer + body| > MAX_COMMAND_BYTES
    ensures Read(r, Line(body)).dead ==> Read(r, Line(body)).lines == r.lines
    ensures !Read(r, Line(body)).dead ==> Read(r, Line(body)) == Reader(r.lines + [r.buffer + body], [], false)
  {
    ReadAppend(r, body, ['\n']);
    ReadText(r, body);
    var mid := Read(r, body);
    assert Read(mid, ['\n']) == ReadByte(mid, '\n') by {
      assert ['\n'][1..] == [];
    }
  }

  lemma {:induction false} LinesGrow(r: Reader, s: Bytes)
    ensures r.lines <= Read(r, s).lines
    decreases s
  {
    if s != [] {
      LinesGrow(ReadByte(r, s[0]), s[1..]);
    }
  }

  // ----- When the peer receives exactly the frames that were written

  /** Every whole frame fits the peer, and nothing torn stands before it. */
  ghost predicate Readable(log: seq<Attempt>) {
    forall j | 0 <= j < |log| && Whole(log[j]) ::
      |log[j].body| <= MAX_COMMAND_BYTES && forall i | 0 <= i < j :: !Torn(log[i])
  }

  ghost predicate NoneWhole(log: seq<Attempt>) {
    forall j | 0 <= j < |log| :: !Whole(log[j])
  }

  lemma ReadableCons(log: seq<Attempt>)
    requires log != []
    ensures Readable(log) <==>
            Readable(log[1..]) && (Torn(log[0]) ==> NoneWhole(log[1..]))
            && (Whole(log[0]) ==> |log[0].body| <= MAX_COMMAND_BYTES)
    ensures NoneWhole(log) <==> !Whole(log[0]) && NoneWhole(log[1..])
  {
    var rest := log[1..];
    assert forall j | 0 < j < |log| :: log[j] == rest[j - 1];
    assert forall j | 0 <= j < |rest| :: rest[j] == log[j + 1];
  }

  lemma {:induction false} WholesEmpty(log: seq<Attempt>)
    ensures Wholes(log) == [] <==> NoneWhole(log)
  {
    if log != [] {
      ReadableCons(log);
      WholesEmpty(log[1..]);
    }
  }

  ghost predicate Faithful(r: Reader, log: seq<Attempt>) {
    Read(r, Stream(log)).lines == r.lines + Wholes(log)
  }

  lemma DeadIsFaithfulIffNoneWhole(r: Reader, log: seq<Attempt>)
    requires r.dead
    ensures Faithful(r, log) <==> NoneWhole(log)
  {
    DeadStays(r, Stream(log));
    WholesEmpty(log);
    assert r.lines + Wholes(log) == r.lines <==> |Wholes(log)| == 0;
  }

  lemma {:induction false} FaithfulIff(r: Reader, log: seq<Attempt>)
    requires Resting(r)
    ensures Faithful(r, log) <==> Readable(log) && (r.buffer != [] ==> NoneWhole(log))
    decreases |log|, 1
  {
    if log == [] {
      assert r.lines + [] == r.lines;
    } else {
      var a, rest := log[0], log[1..];
      var r' := Read(r, Sent(a));
      ReadAppend(r, Sent(a), Stream(rest));
      ReadableCons(log);
      if Whole(a) {
        WholeFaithful(r, a, rest);
      } else {
        ReadText(r, Sent(a));
        assert Wholes(log) == Wholes(rest);
        assert Sent(a) == [] <==> !Torn(a);
        if r'.dead {
          DeadIsFaithfulIffNoneWhole(r', rest);
          NoneWholeReadable(rest);
        } else {
          FaithfulIff(r', rest);
        }
      }
    }
  }

  lemma NoneWholeReadable(log: seq<Attempt>)
    ensures NoneWhole(log) ==> Readable(log)
  {
  }

  lemma {:induction false} WholeFaithful(r: Reader, a: Attempt, rest: seq<Attempt>)
    requires Resting(r) && Whole(a)
    ensures Faithful(r, [a] + rest) <==> Readable([a] + rest) && r.buffer == []
    decreases |rest| + 1, 0
  {
    var log := [a] + rest;
    assert log[1..] == rest;
    var r' := Read(r, Line(a.body));
    ReadAppend(r, Line(a.body), Stream(rest));
    ReadLine(r, a.body);
    ReadableCons(log);
    assert Wholes(log) == [a.body] + Wholes(rest);
    assert r.lines + Wholes(log) == (r.lines + [a.body]) + Wholes(rest);
    LinesGrow(r', Stream(rest));
    if r'.dead {
      DeadStays(r', Stream(rest));
      assert |r.buffer + a.body| == |r.buffer| + |a.body|;
    } else {
      FaithfulIff(r', rest);
      assert r.buffer == [] ==> r.buffer + a.body == a.body;
      var got := Read(r', Stream(rest)).lines;
      assert got[|r.lines|] == r.buffer + a.body;
      assert (r.lines + Wholes(log))[|r.lines|] == a.body;
      assert |r.buffer + a.body| == |r.buffer| + |a.body|;
    }
  }

  /** The peer receives exactly the frames written in full, in order and unaltered,
      if and only if each of them fits its limit and no torn frame precedes one. */
  lemma PeerReceivesWhatWasWritten(log: seq<Attempt>)
    ensures Read(FRESH, Stream(log)).lines == Wholes(log) <==> Readable(log)
  {
    FaithfulIff(FRESH, log);
    assert [] + Wholes(log) == Wholes(log);
  }

  /** The broker happily writes a frame that makes its peer hang up. */
  lemma AcceptedFrameCanKillPeer(body: Body)
    requires MAX_COMMAND_BYTES < |body| < MAX_FRAME_BYTES
    ensures |Line(body)| <= MAX_FRAME_BYTES
    ensures Read(FRESH, Line(body)).dead && Read(FRESH, Line(body)).lines == []
  {
    ReadLine(FRESH, body);
    assert [] + body == body;
  }

  // ----- The peer's reader as it runs: whole chunks, split at newlines

  /** Same lines delivered, same fate, and the same buffer while alive. */
  predicate Alike(a: Reader, b: Reader) {
    a.lines == b.lines && a.dead == b.dead && (!a.dead ==> a == b)
  }

  lemma {:induction false} AlikeReads(a: Reader, b: Reader, s: Bytes)
    requires Alike(a, b)
    ensures Alike(Read(a, s), Read(b, s))
    decreases s
  {
    if a.dead {
      DeadStays(a, s);
      DeadStays(b, s);
    }
  }

  method IndexOfNewline(s: Bytes) returns (i: nat)
    ensures i <= |s| && '\n' !in s[..i]
    ensures i < |s| ==> s[i] == '\n'
  {
    i := 0;
    while i < |s| && s[i] != '\n'
      invariant i <= |s| && '\n' !in s[..i]
    {
      i := i + 1;
    }
  }

  class Peer {
    var lines: seq<Bytes>
    var buffer: Bytes
    var dead: bool

    function View(): Reader
      reads this
    {
      Reader(lines, buffer, dead)
    }

    ghost predicate Valid()
      reads this
    {
      !dead ==> '\n' !in buffer && |buffer| <= MAX_COMMAND_BYTES
    }

    constructor ()
      ensures Valid() && View() == FRESH
    {
      lines, buffer, dead := [], [], false;
    }

    /** One data event: deliver every complete line, keep the rest, and hang up over
        an oversized line or rest. */
    method Consume(chunk: Bytes)
      requires Valid()
      modifies this
      ensures Valid() && Alike(View(), Read(old(View()), chunk))
    {
      if dead {
        DeadStays(View(), chunk);
        return;
      }
      ghost var before := View();
      ReadText(Reader(lines, [], false), buffer);
      assert [] + buffer == buffer;
      ReadAppend(Reader(lines, [], false), buffer, chunk);
      buffer := buffer + chunk;
      while true
        invariant !dead
        invariant Read(Reader(lines, [], false), buffer) == Read(before, chunk)
        decreases |buffer|
      {
        var newline := IndexOfNewline(buffer);
        var r := Reader(lines, [], false);
        if newline == |buffer| {
          assert buffer[..newline] == buffer;
          ReadText(r, buffer);
          assert [] + buffer == buffer;
          dead := |buffer| > MAX_COMMAND_BYTES;
          return;
        }
        var line, rest := buffer[..newline], buffer[newline + 1..];
        assert buffer == Line(line) + rest;
        ReadAppend(r, Line(line), rest);
        ReadLine(r, line);
        assert [] + line == line;
        if |line| > MAX_COMMAND_BYTES {
          DeadStays(Read(r, Line(line)), rest);
          buffer, dead := rest, true;
          return;
        }
        lines, buffer := lines + [line], rest;
      }
    }
  }

  function Joined(chunks: seq<Bytes>): Bytes {
    if chunks == [] then [] else chunks[0] + Joined(chunks[1..])
  }

  lemma {:induction false} JoinedSnoc(chunks: seq<Bytes>, c: Bytes)
    ensures Joined(chunks + [c]) == Joined(chunks) + c
  {
    if chunks == [] {
      assert [c][1..] == [] && [c] == chunks + [c];
    } else {
      assert (chunks + [c])[1..] == chunks[1..] + [c];
      JoinedSnoc(chunks[1..], c);
    }
  }

  /** However the transport cuts a log of writes into chunks, the peer delivers
      exactly the frames written in full if and only if the log is readable. */
  method Deliver(chunks: seq<Bytes>, ghost log: seq<Attempt>) returns (lines: seq<Bytes>, dead: bool)
    requires Joined(chunks) == Stream(log)
    ensures lines == Read(FRESH, Stream(log)).lines && dead == Read(FRESH, Stream(log)).dead
    ensures lines == Wholes(log) <==> Readable(log)
  {
    var peer := new Peer();
    var i := 0;
    while i < |chunks|
      invariant i <= |chunks| && peer.Valid() && fresh(peer)
      invariant Alike(peer.View(), Read(FRESH, Joined(chunks[..i])))
    {
      ghost var was := peer.View();
      peer.Consume(chunks[i]);
      assert chunks[..i + 1] == chunks[..i] + [chunks[i]];
      JoinedSnoc(chunks[..i], chunks[i]);
      ReadAppend(FRESH, Joined(chunks[..i]), chunks[i]);
      AlikeReads(was, Read(FRESH, Joined(chunks[..i])), chunks[i]);
      i := i + 1;
    }
    assert chunks[..|chunks|] == chunks;
    PeerReceivesWhatWasWritten(log);
    return peer.lines, peer.dead;
  }
}
