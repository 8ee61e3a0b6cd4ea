/** Journals of guarded updates and external effects, and the runs that write them.
    Everything here holds for any engine whose table satisfies `Sound`, whose calls
    satisfy `Orderly`, and whose effects satisfy `Fenced`. */
module Journal {
  import opened FencedEffect

  /** A durable table: which entries its row admits, what they do to it, its CHECK
      constraints, which entries are updates (the rest are effects or the end of a
      call), and a rank every update spends. */
  datatype Table<!R, !E> = Table(
    guard: (R, E) -> bool, apply: (R, E) -> R, checks: R -> bool,
    durable: E -> bool, rank: R -> nat, end: E)

  /** One kind of external effect: how entries look to the fence machine, and when
      the row says its fence is spent. */
  datatype Effect<!R, !E> = Effect(mark: E -> Mark, spent: R -> bool)

  ghost predicate Sound<R(!new), E(!new)>(t: Table<R, E>) {
    && (forall r, e | t.checks(r) && t.guard(r, e) ::
          && t.checks(t.apply(r, e))
          && t.rank(t.apply(r, e)) + (if t.durable(e) then 1 else 0) <= t.rank(r))
    && (forall r :: t.guard(r, t.end) && t.apply(r, t.end) == r)
    && !t.durable(t.end)
  }

  ghost predicate Fenced<R(!new), E(!new)>(t: Table<R, E>, x: Effect<R, E>) {
    && (forall r, e | t.checks(r) && t.guard(r, e) ::
          && (x.mark(e) == Fence ==> !x.spent(r))
          && (x.spent(t.apply(r, e)) <==> x.spent(r) || x.mark(e) == Fence))
    && x.mark(t.end) == Boundary
  }

  function Replay<R, E>(t: Table<R, E>, r: R, es: seq<E>): R
    decreases es
  {
    if es == [] then r else Replay(t, t.apply(r, es[0]), es[1..])
  }

  predicate Legal<R, E>(t: Table<R, E>, r: R, es: seq<E>)
    decreases es
  {
    es == [] || (t.guard(r, es[0]) && Legal(t, t.apply(r, es[0]), es[1..]))
  }

  lemma {:induction false} Append<R(!new), E(!new)>(t: Table<R, E>, r: R, a: seq<E>, b: seq<E>)
    ensures Replay(t, r, a + b) == Replay(t, Replay(t, r, a), b)
    ensures Legal(t, r, a + b) <==> Legal(t, r, a) && Legal(t, Replay(t, r, a), b)
    decreases a
  {
    if a == [] {
      assert a + b == b;
    } else {
      assert (a + b)[1..] == a[1..] + b;
      Append(t, t.apply(r, a[0]), a[1..], b);
    }
  }

  function Updates<R, E>(t: Table<R, E>, es: seq<E>): nat
    decreases es
  {
    if es == [] then 0 else (if t.durable(es[0]) then 1 else 0) + Updates(t, es[1..])
  }

  lemma {:induction false} LegalKeepsChecks<R(!new), E(!new)>(t: Table<R, E>, r: R, es: seq<E>)
    requires Sound(t) && t.checks(r) && Legal(t, r, es)
    ensures t.checks(Replay(t, r, es))
    ensures Updates(t, es) + t.rank(Replay(t, r, es)) <= t.rank(r)
    decreases es
  {
    if es != [] {
      LegalKeepsChecks(t, t.apply(r, es[0]), es[1..]);
    }
  }

  predicate FirstIsDurable<R, E>(t: Table<R, E>, es: seq<E>) {
    es != [] && t.durable(es[0])
  }

  lemma CommittedWorkSpendsRank<R(!new), E(!new)>(t: Table<R, E>, r: R, es: seq<E>)
    requires Sound(t) && t.checks(r) && Legal(t, r, es)
    ensures FirstIsDurable(t, es) ==> t.rank(Replay(t, r, es)) < t.rank(r)
  {
    LegalKeepsChecks(t, r, es);
  }

  // ----- A column written at most once

  function Count<E>(p: E -> bool, es: seq<E>): nat
    decreases es
  {
    if es == [] then 0 else (if p(es[0]) then 1 else 0) + Count(p, es[1..])
  }

  /** Only `writes` entries touch the column, they find it blank and leave it filled. */
  ghost predicate WrittenWhenBlank<R(!new), E(!new)>(t: Table<R, E>, column: R -> string, writes: E -> bool) {
    forall r, e | t.guard(r, e) ::
      if writes(e) then column(r) == "" && column(t.apply(r, e)) != "" else column(t.apply(r, e)) == column(r)
  }

  lemma {:induction false} WrittenOnce<R(!new), E(!new)>(t: Table<R, E>, column: R -> string, writes: E -> bool, r: R, es: seq<E>)
    requires WrittenWhenBlank(t, column, writes) && Legal(t, r, es)
    ensures Count(writes, es) <= if column(r) == "" then 1 else 0
    ensures Count(writes, es) == 0 ==> column(Replay(t, r, es)) == column(r)
    decreases es
  {
    if es != [] {
      WrittenOnce(t, column, writes, t.apply(r, es[0]), es[1..]);
    }
  }

  // ----- Effects stand directly behind their fences

  predicate FencedAt<R, E>(x: Effect<R, E>, es: seq<E>, i: nat)
    requires i < |es|
  {
    x.mark(es[i]) == Fire ==> i > 0 && x.mark(es[i - 1]) == Fence
  }

  ghost predicate Adjacent<R, E>(x: Effect<R, E>, es: seq<E>) {
    forall i | 0 <= i < |es| :: FencedAt(x, es, i)
  }

  lemma AdjacentAppend<R(!new), E(!new)>(x: Effect<R, E>, a: seq<E>, b: seq<E>)
    requires Adjacent(x, a) && Adjacent(x, b)
    ensures Adjacent(x, a + b)
  {
    forall i | 0 <= i < |a + b|
      ensures FencedAt(x, a + b, i)
    {
      assert if i < |a| then FencedAt(x, a, i) else FencedAt(x, b, i - |a|);
    }
  }

  /** A call that wins its fence performs the effect at once and then adds at most
      bookkeeping; such a call is legal and prompt. */
  lemma WonLegal<R, E>(t: Table<R, E>, r: R, fence: E, effect: E, rest: seq<E>)
    requires t.guard(r, fence)
    requires var r' := t.apply(r, fence);
      t.guard(r', effect) && t.apply(r', effect) == r' && Legal(t, r', rest)
    ensures Legal(t, r, [fence, effect] + rest)
  {
    var es := [fence, effect] + rest;
    assert es[1..] == [effect] + rest && es[1..][1..] == rest;
    assert Legal(t, t.apply(r, fence), es[1..]);
  }

  lemma WonAdjacent<R, E>(x: Effect<R, E>, fence: E, effect: E, rest: seq<E>)
    requires x.mark(fence) != Fire && (x.mark(effect) == Fire ==> x.mark(fence) == Fence)
    requires forall e | e in rest :: x.mark(e) != Fire
    ensures Adjacent(x, [fence, effect] + rest)
  {
    var es := [fence, effect] + rest;
    forall i | 0 <= i < |es|
      ensures FencedAt(x, es, i)
    {
      assert i >= 2 ==> es[i] == rest[i - 2];
    }
  }

  predicate FiresOnlyBehind<R, E>(x: Effect<R, E>, fence: E, effect: E, lost: E) {
    x.mark(fence) != Fire && (x.mark(effect) == Fire ==> x.mark(fence) == Fence) && x.mark(lost) != Fire
  }

  /** The common shape of a winning call: fence, effect, and the record of a failed
      effect if it failed. */
  lemma WinnerIsProper<R, E>(t: Table<R, E>, x: Effect<R, E>, y: Effect<R, E>, r: R, fence: E, effect: E, lost: E, rest: seq<E>)
    requires t.guard(r, fence)
    requires var r' := t.apply(r, fence); t.guard(r', effect) && t.apply(r', effect) == r' && t.guard(r', lost)
    requires rest == [] || rest == [lost]
    requires FiresOnlyBehind(x, fence, effect, lost) && FiresOnlyBehind(y, fence, effect, lost)
    ensures Legal(t, r, [fence, effect] + rest)
    ensures Adjacent(x, [fence, effect] + rest) && Adjacent(y, [fence, effect] + rest)
  {
    assert Legal(t, t.apply(r, fence), rest);
    WonLegal(t, r, fence, effect, rest);
    WonAdjacent(x, fence, effect, rest);
    WonAdjacent(y, fence, effect, rest);
  }

  function Marks<R, E>(x: Effect<R, E>, es: seq<E>): seq<Mark> {
    seq(|es|, i requires 0 <= i < |es| => x.mark(es[i]))
  }

  lemma {:induction false} LegalIsAccepted<R(!new), E(!new)>(t: Table<R, E>, x: Effect<R, E>, r: R, es: seq<E>, m: Machine)
    requires Sound(t) && Fenced(t, x) && t.checks(r) && Legal(t, r, es)
    requires m.fenced == x.spent(r)
    requires es != [] && x.mark(es[0]) == Fire ==> m.armed
    requires forall i | 0 < i < |es| :: FencedAt(x, es, i)
    ensures Accepts(m, Marks(x, es))
    decreases es
  {
    if es != [] {
      var rest := es[1..];
      assert Marks(x, es)[1..] == Marks(x, rest);
      assert rest != [] ==> FencedAt(x, es, 1);
      forall i | 0 < i < |rest|
        ensures FencedAt(x, rest, i)
      {
        assert FencedAt(x, es, i + 1);
      }
      LegalIsAccepted(t, x, t.apply(r, es[0]), rest, Step(m, x.mark(es[0])));
    }
  }

  // ----- Runs

  /** A call of the engine, or a transition made elsewhere, and how many journal
      entries of it get out before the process dies. */
  datatype Attempt<+M> = Attempt(move: M, cut: nat)

  /** `calls(r, m)` is everything move `m` journals on row `r` if nothing kills it. */
  function Surviving<R, E, M>(calls: (R, M) -> seq<E>, r: R, a: Attempt<M>): seq<E> {
    var es := calls(r, a.move);
    if a.cut < |es| then es[..a.cut] else es
  }

  function Log<R, E, M>(t: Table<R, E>, calls: (R, M) -> seq<E>, r: R, run: seq<Attempt<M>>): seq<E>
    decreases run
  {
    if run == [] then []
    else
      var es := Surviving(calls, r, run[0]);
      es + [t.end] + Log(t, calls, Replay(t, r, es), run[1..])
  }

  function Final<R, E, M>(t: Table<R, E>, calls: (R, M) -> seq<E>, r: R, run: seq<Attempt<M>>): R
    decreases run
  {
    if run == [] then r else Final(t, calls, Replay(t, r, Surviving(calls, r, run[0])), run[1..])
  }

  lemma {:induction false} RunSplit<R, E, M>(t: Table<R, E>, calls: (R, M) -> seq<E>, r: R, a: seq<Attempt<M>>, b: seq<Attempt<M>>)
    ensures Log(t, calls, r, a + b) == Log(t, calls, r, a) + Log(t, calls, Final(t, calls, r, a), b)
    ensures Final(t, calls, r, a + b) == Final(t, calls, Final(t, calls, r, a), b)
    decreases a
  {
    if a == [] {
      assert a + b == b;
    } else {
      assert (a + b)[1..] == a[1..] + b;
      RunSplit(t, calls, Replay(t, r, Surviving(calls, r, a[0])), a[1..], b);
    }
  }

  lemma TwoAttempts<R, E, M>(t: Table<R, E>, calls: (R, M) -> seq<E>, r: R, a: Attempt<M>, b: Attempt<M>)
    ensures var es := Surviving(calls, r, a);
      var r' := Replay(t, r, es);
      var es' := Surviving(calls, r', b);
      && Log(t, calls, r, [a, b]) == es + [t.end] + es' + [t.end]
      && Final(t, calls, r, [a, b]) == Replay(t, r', es')
  {
    var r' := Replay(t, r, Surviving(calls, r, a));
    assert [a, b][1..] == [b] && [b][1..] == [];
    assert Log(t, calls, r', [b]) == Surviving(calls, r', b) + [t.end];
    assert Final(t, calls, r', [b]) == Replay(t, r', Surviving(calls, r', b));
  }

  /** A row on which no call leaves anything stays as it is through every run. */
  lemma {:induction false} QuietRowsAbsorb<R, E, M(!new)>(t: Table<R, E>, calls: (R, M) -> seq<E>, r: R, run: seq<Attempt<M>>)
    requires forall m :: calls(r, m) == []
    ensures Final(t, calls, r, run) == r && forall e | e in Log(t, calls, r, run) :: e == t.end
    decreases run
  {
    if run != [] {
      assert calls(r, run[0].move) == [];
      QuietRowsAbsorb(t, calls, r, run[1..]);
    }
  }

  ghost predicate Orderly<R(!new), E, M(!new)>(t: Table<R, E>, calls: (R, M) -> seq<E>) {
    forall r, m | t.checks(r) :: Legal(t, r, calls(r, m))
  }

  ghost predicate Prompt<R(!new), E, M(!new)>(t: Table<R, E>, calls: (R, M) -> seq<E>, x: Effect<R, E>) {
    forall r, m | t.checks(r) :: Adjacent(x, calls(r, m))
  }

  lemma SurvivingLegal<R(!new), E(!new), M(!new)>(t: Table<R, E>, calls: (R, M) -> seq<E>, r: R, a: Attempt<M>)
    requires Sound(t) && Orderly(t, calls) && t.checks(r)
    ensures Legal(t, r, Surviving(calls, r, a)) && t.checks(Replay(t, r, Surviving(calls, r, a)))
  {
    var es, cut := calls(r, a.move), |Surviving(calls, r, a)|;
    assert Legal(t, r, es);
    assert es == es[..cut] + es[cut..] && Surviving(calls, r, a) == es[..cut];
    Append(t, r, es[..cut], es[cut..]);
    LegalKeepsChecks(t, r, es[..cut]);
  }

  /** A run commits only admitted updates, its final row is the replay of its
      journal, no CHECK constraint is ever broken, and all the updates of all its
      calls together spend no more than the rank of the first row. */
  lemma {:induction false} RunsAreLegal<R(!new), E(!new), M(!new)>(t: Table<R, E>, calls: (R, M) -> seq<E>, r: R, run: seq<Attempt<M>>)
    requires Sound(t) && Orderly(t, calls) && t.checks(r)
    ensures Legal(t, r, Log(t, calls, r, run))
    ensures Replay(t, r, Log(t, calls, r, run)) == Final(t, calls, r, run)
    ensures t.checks(Final(t, calls, r, run))
    ensures Updates(t, Log(t, calls, r, run)) + t.rank(Final(t, calls, r, run)) <= t.rank(r)
    decreases run
  {
    if run != [] {
      var es := Surviving(calls, r, run[0]);
      var r' := Replay(t, r, es);
      SurvivingLegal(t, calls, r, run[0]);
      RunsAreLegal(t, calls, r', run[1..]);
      Append(t, r, es, [t.end]);
      Append(t, r, es + [t.end], Log(t, calls, r', run[1..]));
    }
    LegalKeepsChecks(t, r, Log(t, calls, r, run));
  }

  lemma {:induction false} RunsArePrompt<R(!new), E(!new), M(!new)>(
    t: Table<R, E>, calls: (R, M) -> seq<E>, x: Effect<R, E>, r: R, run: seq<Attempt<M>>)
    requires Sound(t) && Orderly(t, calls) && Prompt(t, calls, x) && x.mark(t.end) == Boundary && t.checks(r)
    ensures Adjacent(x, Log(t, calls, r, run))
    decreases run
  {
    if run != [] {
      var es := Surviving(calls, r, run[0]);
      var all := calls(r, run[0].move);
      assert Adjacent(x, all);
      forall i | 0 <= i < |es|
        ensures FencedAt(x, es, i)
      {
        assert FencedAt(x, all, i);
      }
      SurvivingLegal(t, calls, r, run[0]);
      RunsArePrompt(t, calls, x, Replay(t, r, es), run[1..]);
      AdjacentAppend(x, es, [t.end]);
      AdjacentAppend(x, es + [t.end], Log(t, calls, Replay(t, r, es), run[1..]));
    }
  }

  /** Every run of an engine, with crashes anywhere, is a run of the write-ahead
      fence machine; so its effect fires at most once, never without a fence, and
      never again once the fence is durable and the winning call is gone. */
  lemma RunsRefineTheFence<R(!new), E(!new), M(!new)>(
    t: Table<R, E>, calls: (R, M) -> seq<E>, x: Effect<R, E>, r: R, run: seq<Attempt<M>>)
    requires Sound(t) && Orderly(t, calls) && Fenced(t, x) && Prompt(t, calls, x) && t.checks(r)
    ensures Accepts(Machine(x.spent(r), false, 0), Marks(x, Log(t, calls, r, run)))
    ensures Fires(Marks(x, Log(t, calls, r, run))) <= if x.spent(r) then 0 else 1
    ensures !x.spent(r) ==> Disciplined(Marks(x, Log(t, calls, r, run)))
  {
    var log := Log(t, calls, r, run);
    RunsAreLegal(t, calls, r, run);
    RunsArePrompt(t, calls, x, r, run);
    assert log != [] ==> FencedAt(x, log, 0);
    LegalIsAccepted(t, x, r, log, Machine(x.spent(r), false, 0));
    AtMostOneFire(Machine(x.spent(r), false, 0), Marks(x, log));
    AcceptsIffDisciplined(Marks(x, log));
  }

  // ----- The durable side of an engine

  /** What an update leaves in the journal: nothing when the store errs or the
      WHERE clause does not match, itself otherwise. */
  function Commit<R, E>(t: Table<R, E>, r: R, e: E, faulty: E -> bool): seq<E> {
    if !faulty(e) && t.guard(r, e) then [e] else []
  }

  /** A call's journal entries, and whether it returned an error. */
  datatype Outcome<+E> = Outcome(events: seq<E>, failed: bool)

  class Ledger<R, E> {
    const table: Table<R, E>
    const initial: R
    var row: R
    var journal: seq<E>

    ghost predicate Valid()
      reads this
    {
      row == Replay(table, initial, journal)
    }

    constructor (t: Table<R, E>, first: R)
      ensures Valid() && table == t && row == first && journal == []
    {
      table, initial, row, journal := t, first, first, [];
    }

    /** A store method: an atomic guarded update that either errs, or reports
        whether its WHERE clause matched. */
    method Update(e: E, faulty: E -> bool) returns (err: bool, updated: bool)
      requires Valid()
      modifies this
      ensures Valid()
      ensures err == faulty(e) && updated == (!err && table.guard(old(row), e))
      ensures journal == old(journal) + Commit(table, old(row), e, faulty)
      ensures row == if updated then table.apply(old(row), e) else old(row)
    {
      err, updated := faulty(e), false;
      if !err && table.guard(row, e) {
        Extend(e);
        row, journal, updated := table.apply(row, e), journal + [e], true;
      }
    }

    /** An external effect: nothing durable changes, but it cannot be undone. */
    method Perform(e: E)
      requires Valid() && table.apply(row, e) == row
      modifies this`journal
      ensures Valid() && journal == old(journal) + [e]
    {
      Extend(e);
      journal := journal + [e];
    }

    lemma Extend(e: E)
      ensures Replay(table, initial, journal + [e]) == table.apply(Replay(table, initial, journal), e)
    {
      ReplayLast(table, initial, journal, e);
    }
  }

  lemma {:induction false} ReplayLast<R, E>(t: Table<R, E>, r: R, es: seq<E>, e: E)
    ensures Replay(t, r, es + [e]) == t.apply(Replay(t, r, es), e)
    decreases es
  {
    if es == [] {
      assert es + [e] == [e];
    } else {
      assert (es + [e])[1..] == es[1..] + [e];
      ReplayLast(t, t.apply(r, es[0]), es[1..], e);
    }
  }

  /** The last entry of a legal journal was allowed by a row the checks hold of, and
      the replay is that row with the entry applied. */
  lemma LastEntry<R(!new), E(!new)>(t: Table<R, E>, r: R, es: seq<E>) returns (front: R)
    requires Sound(t) && t.checks(r) && Legal(t, r, es) && es != []
    ensures t.checks(front) && t.guard(front, es[|es| - 1])
    ensures Replay(t, r, es) == t.apply(front, es[|es| - 1])
  {
    var init := es[..|es| - 1];
    var last := es[|es| - 1];
    front := Replay(t, r, init);
    assert es == init + [last];
    Append(t, r, init, [last]);
    LegalKeepsChecks(t, r, init);
    ReplayLast(t, r, init, last);
    assert Legal(t, front, [last]);
  }

  /** What every admitted entry keeps true of row and journal is true wherever a legal
      journal leads. */
  ghost predicate Kept<R(!new), E(!new)>(t: Table<R, E>, told: (R, seq<E>) -> bool) {
    forall r, es, e | t.checks(r) && t.guard(r, e) && told(r, es) :: told(t.apply(r, e), es + [e])
  }

  lemma {:induction false} ReplayKeeps<R(!new), E(!new)>(t: Table<R, E>, told: (R, seq<E>) -> bool, r: R, es: seq<E>)
    requires Sound(t) && t.checks(r) && Legal(t, r, es) && Kept(t, told) && told(r, [])
    ensures told(Replay(t, r, es), es)
    decreases es
  {
    if es != [] {
      var init, last := es[..|es| - 1], es[|es| - 1];
      assert es == init + [last];
      Append(t, r, init, [last]);
      LegalKeepsChecks(t, r, init);
      ReplayKeeps(t, told, r, init);
      ReplayLast(t, r, init, last);
      assert Legal(t, Replay(t, r, init), [last]);
    }
  }

  // ----- Who left an entry

  lemma PrefixOfRest<M>(run: seq<Attempt<M>>, k: nat)
    requires 0 < k <= |run|
    ensures run[..k] == [run[0]] + run[1..][..k - 1] && run[..k][1..] == run[1..][..k - 1]
  {
  }

  /** Every entry of a run, but the ends of its calls, was left by one of its attempts
      on the row the run had reached by then. */
  lemma {:induction false} EntryHasAttempt<R, E, M>(t: Table<R, E>, calls: (R, M) -> seq<E>, r: R, run: seq<Attempt<M>>, e: E)
      returns (k: nat)
    requires e in Log(t, calls, r, run) && e != t.end
    ensures k < |run| && e in Surviving(calls, Final(t, calls, r, run[..k]), run[k])
    decreases run
  {
    var es := Surviving(calls, r, run[0]);
    if e in es {
      k := 0;
      assert run[..0] == [];
    } else {
      var k' := EntryHasAttempt(t, calls, Replay(t, r, es), run[1..], e);
      k := k' + 1;
      PrefixOfRest(run, k);
    }
  }

  /** And whatever an attempt leaves is an entry of the run. */
  lemma {:induction false} AttemptLeaves<R, E, M>(t: Table<R, E>, calls: (R, M) -> seq<E>, r: R, run: seq<Attempt<M>>, k: nat, e: E)
    requires k < |run| && e in Surviving(calls, Final(t, calls, r, run[..k]), run[k])
    ensures e in Log(t, calls, r, run)
    decreases run
  {
    if k == 0 {
      assert run[..0] == [];
    } else {
      PrefixOfRest(run, k);
      AttemptLeaves(t, calls, Replay(t, r, Surviving(calls, r, run[0])), run[1..], k - 1, e);
    }
  }

  /** No attempt of the run is cut short. */
  ghost predicate Uncut<R, E, M>(t: Table<R, E>, calls: (R, M) -> seq<E>, r: R, run: seq<Attempt<M>>) {
    forall k | 0 <= k < |run| :: run[k].cut >= |calls(Final(t, calls, r, run[..k]), run[k].move)|
  }

  /** What may be read off a row and a move alone: which entries the call leaves. */
  ghost predicate Explains<R(!new), E(!new), M(!new)>(t: Table<R, E>, calls: (R, M) -> seq<E>, cause: (R, M, E) -> bool) {
    forall r, m, e | t.checks(r) && e != t.end :: e in calls(r, m) <==> cause(r, m, e)
  }

  /** Over every run an entry has an attempt with cause for it, and where no attempt is
      cut short every cause has its entry. */
  lemma RunsAreExplained<R(!new), E(!new), M(!new)>(
    t: Table<R, E>, calls: (R, M) -> seq<E>, cause: (R, M, E) -> bool, r: R, run: seq<Attempt<M>>, e: E)
    requires Sound(t) && Orderly(t, calls) && t.checks(r) && Explains(t, calls, cause) && e != t.end
    ensures e in Log(t, calls, r, run) ==>
      exists k | 0 <= k < |run| :: cause(Final(t, calls, r, run[..k]), run[k].move, e)
    ensures Uncut(t, calls, r, run) ==>
      (e in Log(t, calls, r, run) <==>
       exists k | 0 <= k < |run| :: cause(Final(t, calls, r, run[..k]), run[k].move, e))
  {
    if e in Log(t, calls, r, run) {
      var k := EntryHasAttempt(t, calls, r, run, e);
      RunsAreLegal(t, calls, r, run[..k]);
      assert cause(Final(t, calls, r, run[..k]), run[k].move, e);
    }
    if k :| Uncut(t, calls, r, run) && 0 <= k < |run| && cause(Final(t, calls, r, run[..k]), run[k].move, e) {
      RunsAreLegal(t, calls, r, run[..k]);
      AttemptLeaves(t, calls, r, run, k, e);
    }
  }
}
