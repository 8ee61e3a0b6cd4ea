/** The write-ahead discipline the four one-shot engines share: a durable fence is
    committed first, the irreversible effect follows at once, and whatever happens
    in between (a crash, the end of the call, any other durable step) disarms the
    effect for good. */
module FencedEffect {

  /** What one entry of an engine's journal means for one chosen effect. */
  datatype Mark =
    | Fence     // the compare-and-set that spends the one permission
    | Fire      // the external effect itself
    | Other     // any other durable step or effect
    | Boundary  // the entry point returned, or the process died

  /** `fenced` is durable; `armed` is the program counter of the call that won the
      fence and is lost with it; `fired` counts effects over the whole run. */
  datatype Machine = Machine(fenced: bool, armed: bool, fired: nat)

  const INITIAL := Machine(false, false, 0)

  predicate Enabled(m: Machine, k: Mark) {
    match k
    case Fence => !m.fenced
    case Fire => m.armed
    case Other | Boundary => true
  }

  function Step(m: Machine, k: Mark): Machine {
    match k
    case Fence => Machine(true, true, m.fired)
    case Fire => Machine(m.fenced, false, m.fired + 1)
    case Other | Boundary => m.(armed := false)
  }

  function After(m: Machine, ks: seq<Mark>): Machine
    decreases ks
  {
    if ks == [] then m else After(Step(m, ks[0]), ks[1..])
  }

  predicate Accepts(m: Machine, ks: seq<Mark>)
    decreases ks
  {
    ks == [] || (Enabled(m, ks[0]) && Accepts(Step(m, ks[0]), ks[1..]))
  }

  predicate Frugal(m: Machine) {
    m.fired + (if m.armed then 1 else 0) <= (if m.fenced then 1 else 0)
  }

  /** The same discipline read off a finished journal, without any machine. */
  ghost predicate Disciplined(ks: seq<Mark>) {
    && (forall i :: 0 <= i < |ks| && ks[i] == Fire ==> i > 0 && ks[i - 1] == Fence)
    && (forall i, j :: 0 <= i < j < |ks| ==> !(ks[i] == Fence && ks[j] == Fence))
  }

  function Fires(ks: seq<Mark>): nat {
    if ks == [] then 0 else (if ks[0] == Fire then 1 else 0) + Fires(ks[1..])
  }

  lemma {:induction false} AcceptsAppend(m: Machine, a: seq<Mark>, b: seq<Mark>)
    ensures Accepts(m, a + b) <==> Accepts(m, a) && Accepts(After(m, a), b)
    ensures After(m, a + b) == After(After(m, a), b)
    decreases a
  {
    if a == [] {
      assert a + b == b;
    } else {
      assert (a + b)[1..] == a[1..] + b;
      AcceptsAppend(Step(m, a[0]), a[1..], b);
    }
  }

  /** Acceptance is closed under stopping early, so a crash at any point of an
      accepted journal leaves an accepted journal. */
  lemma AcceptsPrefix(m: Machine, ks: seq<Mark>, n: nat)
    requires n <= |ks| && Accepts(m, ks)
    ensures Accepts(m, ks[..n])
  {
    AcceptsAppend(m, ks[..n], ks[n..]);
    assert ks[..n] + ks[n..] == ks;
  }

  /** Over any accepted journal the effect fires at most once in all, and never
      once the fence is committed and the winning call is gone. */
  lemma {:induction false} AtMostOneFire(m: Machine, ks: seq<Mark>)
    requires Frugal(m) && Accepts(m, ks)
    ensures Frugal(After(m, ks))
    ensures After(m, ks).fired == m.fired + Fires(ks)
    ensures m.fired + Fires(ks) <= 1
    ensures m.fenced && !m.armed ==> Fires(ks) == 0
    decreases ks
  {
    if ks != [] {
      AtMostOneFire(Step(m, ks[0]), ks[1..]);
    }
  }

  ghost predicate JustFenced(m: Machine, ks: seq<Mark>, i: nat)
    requires i < |ks|
  {
    if i == 0 then m.armed else ks[i - 1] == Fence
  }

  ghost predicate DisciplinedFrom(m: Machine, ks: seq<Mark>) {
    && (forall i | 0 <= i < |ks| && ks[i] == Fire :: JustFenced(m, ks, i))
    && (forall i, j | 0 <= i < j < |ks| :: !(ks[i] == Fence && ks[j] == Fence))
    && (m.fenced ==> forall i | 0 <= i < |ks| :: ks[i] != Fence)
  }

  lemma {:induction false} AcceptsIffDisciplinedFrom(m: Machine, ks: seq<Mark>)
    requires m.armed ==> m.fenced
    ensures Accepts(m, ks) <==> DisciplinedFrom(m, ks)
    decreases ks
  {
    if ks != [] {
      var m', rest := Step(m, ks[0]), ks[1..];
      AcceptsIffDisciplinedFrom(m', rest);
      assert forall i | 0 < i < |ks| :: ks[i] == rest[i - 1];
      if DisciplinedFrom(m, ks) {
        assert JustFenced(m, ks, 0) || ks[0] != Fire;
        forall i | 0 <= i < |rest| && rest[i] == Fire
          ensures JustFenced(m', rest, i)
        {
          assert ks[i + 1] == Fire && JustFenced(m, ks, i + 1);
        }
      }
      if Enabled(m, ks[0]) && DisciplinedFrom(m', rest) {
        forall i | 0 <= i < |ks| && ks[i] == Fire
          ensures JustFenced(m, ks, i)
        {
          if i > 0 {
            assert rest[i - 1] == Fire && JustFenced(m', rest, i - 1);
          }
        }
      }
    }
  }

  /** The machine accepts exactly the disciplined journals: every effect directly
      follows a fence, and at most one fence is ever committed. */
  lemma AcceptsIffDisciplined(ks: seq<Mark>)
    ensures Accepts(INITIAL, ks) <==> Disciplined(ks)
  {
    AcceptsIffDisciplinedFrom(INITIAL, ks);
  }
}
