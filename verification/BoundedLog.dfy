/** The recovery supervisor's log writer: it accepts everything and keeps a bounded
    prefix. */
module BoundedLog {

  type Bytes = string

  const MAX_LOG: nat := 2 * 1024 * 1024

  /** One write to the underlying file: all of it, or an error after some bytes. */
  datatype FileResult = Full | Fails(after: nat)

  function Prefix(s: Bytes, n: int): Bytes {
    if n <= 0 then [] else if n <= |s| then s[..n] else s
  }

  function Taken(part: Bytes, r: FileResult): Bytes {
    if r.Full? then part else Prefix(part, r.after)
  }

  datatype State = State(file: Bytes, written: nat, overflow: bool)

  const OPENED := State([], 0, false)

  function Next(s: State, data: Bytes, r: FileResult): State {
    var remaining := MAX_LOG - s.written;
    var part := Taken(Prefix(data, remaining), r);
    State(s.file + part, s.written + |part|, s.overflow || |data| > remaining)
  }

  class Log {
    var file: Bytes
    var written: nat
    var overflow: bool

    function View(): State
      reads this
    {
      State(file, written, overflow)
    }

    constructor ()
      ensures View() == OPENED
    {
      file, written, overflow := [], 0, false;
    }

    /** The caller is told that all its bytes were taken unless the file failed. */
    method Write(data: Bytes, r: FileResult) returns (n: nat, failed: bool)
      modifies this
      ensures View() == Next(old(View()), data, r)
      ensures failed == (old(written) < MAX_LOG && r.Fails?)
      ensures n == if failed then written - old(written) else |data|
    {
      var remaining := MAX_LOG - written;
      if remaining > 0 {
        var part := data;
        if |part| > remaining {
          part := part[..remaining];
          overflow := true;
        }
        var taken := if r.Full? || r.after > |part| then |part| else r.after;
        file := file + part[..taken];
        written := written + taken;
        if r.Fails? {
          return taken, true;
        }
      }
      if |data| > remaining {
        overflow := true;
      }
      return |data|, false;
    }
  }

  // ----- Any series of writes

  datatype Call = Call(data: Bytes, result: FileResult)

  function Run(calls: seq<Call>): State {
    if calls == [] then OPENED
    else Next(Run(calls[..|calls| - 1]), calls[|calls| - 1].data, calls[|calls| - 1].result)
  }

  /** Everything the log was ever given. */
  function Stream(calls: seq<Call>): Bytes {
    if calls == [] then [] else Stream(calls[..|calls| - 1]) + calls[|calls| - 1].data
  }

  /** Without file errors the log is exactly the first two mebibytes of the stream,
      the counter is its length, and overflow says whether anything was cut. */
  lemma {:induction false} LogIsBoundedPrefix(calls: seq<Call>)
    requires forall k | 0 <= k < |calls| :: calls[k].result.Full?
    ensures var s, stream := Run(calls), Stream(calls);
      && s.file == Prefix(stream, MAX_LOG)
      && s.written == |s.file|
      && (s.overflow <==> |stream| > MAX_LOG)
      && (!s.overflow ==> s.file == stream)
  {
    if calls != [] {
      LogIsBoundedPrefix(calls[..|calls| - 1]);
      var before, data := Stream(calls[..|calls| - 1]), calls[|calls| - 1].data;
      assert Prefix(before + data, MAX_LOG) == Prefix(before, MAX_LOG) + Prefix(data, MAX_LOG - |Prefix(before, MAX_LOG)|);
    }
  }

  /** Whatever the file does, the counter is the file's length and never passes the
      bound, and nothing is cut silently: short of the stream's length, either some
      write failed or overflow is set. */
  lemma {:induction false} NothingIsCutSilently(calls: seq<Call>)
    ensures var s := Run(calls);
      && s.written == |s.file| <= MAX_LOG
      && (s.written < |Stream(calls)| ==> s.overflow || exists k | 0 <= k < |calls| :: calls[k].result.Fails?)
  {
    if calls != [] {
      NothingIsCutSilently(calls[..|calls| - 1]);
      var before := Run(calls[..|calls| - 1]);
      if before.written < |Stream(calls[..|calls| - 1])| && !before.overflow {
        var k :| 0 <= k < |calls| - 1 && calls[..|calls| - 1][k].result.Fails?;
        assert calls[k].result.Fails?;
      }
    }
  }
}
