/** Copying the project registry between two data directories: one loop over the
    source with an id index and a path index of the target. */
module RegistryImport {
  import opened Options

  type Id = string
  type Path = string

  /** `data` stands for every column the import copies without looking at it. */
  datatype Project = Project(id: Id, path: Path, archived: bool, data: int)

  datatype Repo = Repo(project: Id, body: int)

  datatype Reason = SameIdArchived | SameIdDifferentPath | SamePathDifferentId

  datatype Conflict = Conflict(id: Id, path: Path, reason: Reason, targetId: Id, targetPath: Path)

  datatype Report = Report(dryRun: bool, inserted: nat, updated: nat, skipped: nat, conflicts: seq<Conflict>)

  /** The target store: project rows by primary key, and each project's child repos. */
  datatype Table = Table(rows: map<Id, Project>, repos: map<Id, seq<Repo>>)

  /** The two indexes; of an indexed project only its id and path are ever read. */
  datatype Index = Index(byId: map<Id, Path>, byPath: map<Path, Id>)

  /** Which store calls fail for reasons of their own, the source's child repos, and
      the row a lookup by path picks when several active rows share the path. */
  datatype Env = Env(
    getFails: Id -> bool, reposFail: Id -> bool, writeFails: Id -> bool,
    repos: Id -> seq<Repo>, find: (map<Id, Project>, Path) -> Option<Id>)

  predicate Active(t: Table, id: Id) {
    id in t.rows && !t.rows[id].archived
  }

  ghost predicate Keyed(t: Table) {
    forall id | id in t.rows :: t.rows[id].id == id
  }

  ghost predicate PathsUnique(t: Table) {
    forall a, b | Active(t, a) && Active(t, b) && t.rows[a].path == t.rows[b].path :: a == b
  }

  /** A lookup by path finds an active row there if one exists. */
  ghost predicate Finds(env: Env, t: Table) {
    forall p: Path ::
      match env.find(t.rows, p)
      case Some(id) => Active(t, id) && t.rows[id].path == p
      case None => forall id | Active(t, id) :: t.rows[id].path != p
  }

  // ----- The store's own guarded upsert

  function Existing(p: Project, c: Reason, target: Project): Conflict {
    Conflict(p.id, p.path, c, target.id, target.path)
  }

  function Refusal(t: Table, p: Project, env: Env): Option<Conflict> {
    if p.id in t.rows && t.rows[p.id].archived then Some(Existing(p, SameIdArchived, t.rows[p.id]))
    else if p.id in t.rows && t.rows[p.id].path != p.path then Some(Existing(p, SameIdDifferentPath, t.rows[p.id]))
    else
      var found := env.find(t.rows, p.path);
      if found.Some? && found.value in t.rows && found.value != p.id
      then Some(Existing(p, SamePathDifferentId, t.rows[found.value])) else None
  }

  function Relabel(repos: seq<Repo>, id: Id): seq<Repo> {
    seq(|repos|, i requires 0 <= i < |repos| => repos[i].(project := id))
  }

  function Upsert(t: Table, p: Project, env: Env): Table {
    Table(t.rows[p.id := p], t.repos[p.id := Relabel(env.repos(p.id), p.id)])
  }

  // ----- One source project

  datatype Outcome = Insert | Update | Skip(conflict: Conflict) | Abort

  predicate Chosen(o: Outcome) { o.Insert? || o.Update? }

  /** What the loop decides before it writes anything. */
  function Judge(ix: Index, t: Table, src: Project, env: Env): Outcome {
    if src.id !in ix.byId && env.getFails(src.id) then Abort
    else if src.id !in ix.byId && src.id in t.rows && t.rows[src.id].archived then
      Skip(Existing(src, SameIdArchived, t.rows[src.id]))
    else
      var existing :=
        if src.id in ix.byId then Some(ix.byId[src.id])
        else if src.id in t.rows then Some(t.rows[src.id].path) else None;
      if existing.Some? && existing.value != src.path then
        Skip(Conflict(src.id, src.path, SameIdDifferentPath, src.id, existing.value))
      else if src.path in ix.byPath && ix.byPath[src.path] != src.id then
        Skip(Conflict(src.id, src.path, SamePathDifferentId, ix.byPath[src.path], src.path))
      else if env.reposFail(src.id) then Abort
      else if existing.Some? && src.path in ix.byPath then Update
      else Insert
  }

  /** The decision after the write; a dry run writes nothing. */
  function Settle(o: Outcome, t: Table, src: Project, dry: bool, env: Env): Outcome {
    if dry || o.Skip? || o.Abort? then o
    else if env.writeFails(src.id) then Abort
    else
      var refusal := Refusal(t, src, env);
      if refusal.Some? then Skip(refusal.value) else o
  }

  datatype Progress = Progress(ix: Index, t: Table, rep: Report, ok: bool)

  /** Carry out a settled outcome. */
  function Apply(s: Progress, src: Project, o: Outcome, env: Env): Progress {
    var t := if Chosen(o) && !s.rep.dryRun then Upsert(s.t, src, env) else s.t;
    match o
    case Abort => s.(ok := false)
    case Skip(c) => s.(rep := s.rep.(skipped := s.rep.skipped + 1, conflicts := s.rep.conflicts + [c]))
    case Update => s.(t := t, rep := s.rep.(updated := s.rep.updated + 1))
    case Insert =>
      s.(ix := Index(s.ix.byId[src.id := src.path], s.ix.byPath[src.path := src.id]),
         t := t, rep := s.rep.(inserted := s.rep.inserted + 1))
  }

  function Advance(s: Progress, src: Project, env: Env): Progress {
    Apply(s, src, Settle(Judge(s.ix, s.t, src, env), s.t, src, s.rep.dryRun, env), env)
  }

  function Import(s: Progress, srcs: seq<Project>, env: Env): Progress
    decreases srcs
  {
    if srcs == [] || !s.ok then s else Import(Advance(s, srcs[0], env), srcs[1..], env)
  }

  function Blank(dry: bool): Report { Report(dry, 0, 0, 0, []) }

  // ----- The loop as it runs

  class Target {
    var rows: map<Id, Project>
    var repos: map<Id, seq<Repo>>

    function View(): Table
      reads this
    {
      Table(rows, repos)
    }

    /** `fails` is an error of the store itself, not a conflict. */
    method ImportWorkspaceProject(p: Project, children: seq<Repo>, fails: bool, env: Env)
        returns (failed: bool, refusal: Option<Conflict>)
      requires fails == env.writeFails(p.id) && children == Relabel(env.repos(p.id), p.id)
      modifies this
      ensures failed == env.writeFails(p.id)
      ensures refusal == if failed then None else Refusal(old(View()), p, env)
      ensures View() == if failed || refusal.Some? then old(View()) else Upsert(old(View()), p, env)
    {
      if fails {
        return true, None;
      }
      failed, refusal := false, None;
      if p.id in rows && rows[p.id].archived {
        refusal := Some(Existing(p, SameIdArchived, rows[p.id]));
        return;
      }
      if p.id in rows && rows[p.id].path != p.path {
        refusal := Some(Existing(p, SameIdDifferentPath, rows[p.id]));
        return;
      }
      var found := env.find(rows, p.path);
      if found.Some? && found.value in rows && found.value != p.id {
        refusal := Some(Existing(p, SamePathDifferentId, rows[found.value]));
        return;
      }
      rows, repos := rows[p.id := p], repos[p.id := children];
    }
  }

  function IndexList(ps: seq<Project>, ix: Index): Index
    decreases ps
  {
    if ps == [] then ix
    else IndexList(ps[1..], Index(ix.byId[ps[0].id := ps[0].path], ix.byPath[ps[0].path := ps[0].id]))
  }

  const EMPTY := Index(map[], map[])

  function Start(t: Table, listing: seq<Project>, dry: bool): Progress {
    Progress(IndexList(listing, EMPTY), t, Blank(dry), true)
  }

  method BuildIndex(listing: seq<Project>) returns (byId: map<Id, Path>, byPath: map<Path, Id>)
    ensures Index(byId, byPath) == IndexList(listing, EMPTY)
  {
    byId, byPath := map[], map[];
    var i := 0;
    while i < |listing|
      invariant i <= |listing|
      invariant IndexList(listing, EMPTY) == IndexList(listing[i..], Index(byId, byPath))
    {
      assert listing[i..][1..] == listing[i + 1..];
      byId, byPath := byId[listing[i].id := listing[i].path], byPath[listing[i].path := listing[i].id];
      i := i + 1;
    }
  }

  /** Write a chosen project with its relabelled repos; the store may still object. */
  method Copy(src: Project, o: Outcome, target: Target, env: Env) returns (settled: Outcome)
    requires Chosen(o)
    modifies target
    ensures settled == Settle(o, old(target.View()), src, false, env)
    ensures target.View() == if Chosen(settled) then Upsert(old(target.View()), src, env) else old(target.View())
  {
    var children := Relabel(env.repos(src.id), src.id);
    var failed, refusal := target.ImportWorkspaceProject(src, children, env.writeFails(src.id), env);
    settled := if failed then Abort else if refusal.Some? then Skip(refusal.value) else o;
  }

  /** `srcs` is the sorted source listing and `listing` the target's active projects. */
  method Run(srcs: seq<Project>, target: Target, listing: seq<Project>, dry: bool, env: Env)
      returns (rep: Report, ok: bool)
    modifies target
    ensures var end := Import(Start(old(target.View()), listing, dry), srcs, env);
      target.View() == end.t && rep == end.rep && ok == end.ok
  {
    rep, ok := Blank(dry), true;
    var byId, byPath := BuildIndex(listing);
    ghost var all := Import(Start(target.View(), listing, dry), srcs, env);
    var i := 0;
    while i < |srcs|
      invariant i <= |srcs| && ok && rep.dryRun == dry
      invariant all == Import(Progress(Index(byId, byPath), target.View(), rep, ok), srcs[i..], env)
    {
      assert srcs[i..][1..] == srcs[i + 1..];
      var src := srcs[i];
      var o := Judge(Index(byId, byPath), target.View(), src, env);
      if !o.Abort? && !o.Skip? && !dry {
        o := Copy(src, o, target, env);
      }
      if o.Abort? {
        ok := false;
        return;
      }
      match o {
        case Skip(c) => rep := rep.(skipped := rep.skipped + 1, conflicts := rep.conflicts + [c]);
        case Update => rep := rep.(updated := rep.updated + 1);
        case Insert =>
          byId, byPath := byId[src.id := src.path], byPath[src.path := src.id];
          rep := rep.(inserted := rep.inserted + 1);
      }
      i := i + 1;
    }
  }

  // ----- Counting

  /** On success every source project is counted once, and every skip has its
      conflict. */
  lemma {:induction false} EverySourceIsCounted(s: Progress, srcs: seq<Project>, env: Env)
    requires s.ok
    ensures var e := Import(s, srcs, env);
      && e.rep.dryRun == s.rep.dryRun
      && e.rep.skipped - |e.rep.conflicts| == s.rep.skipped - |s.rep.conflicts|
      && (e.ok ==> e.rep.inserted + e.rep.updated + e.rep.skipped
                     == s.rep.inserted + s.rep.updated + s.rep.skipped + |srcs|)
    decreases srcs
  {
    if srcs != [] {
      var s' := Advance(s, srcs[0], env);
      if s'.ok {
        EverySourceIsCounted(s', srcs[1..], env);
      } else {
        assert Import(s', srcs[1..], env) == s';
      }
    }
  }

  // ----- The indexes

  /** Each index is the inverse of the other, so both are injective. */
  ghost predicate Mutual(ix: Index) {
    && (forall id | id in ix.byId :: ix.byId[id] in ix.byPath && ix.byPath[ix.byId[id]] == id)
    && (forall p | p in ix.byPath :: ix.byPath[p] in ix.byId && ix.byId[ix.byPath[p]] == p)
  }

  /** The indexes hold exactly the table's active rows. */
  ghost predicate Mirrors(ix: Index, t: Table) {
    && Mutual(ix)
    && (forall id :: id in ix.byId <==> Active(t, id))
    && (forall id | id in ix.byId :: ix.byId[id] == t.rows[id].path)
  }

  /** A table the store keeps in order: rows under their own id, active paths apart. */
  ghost predicate Orderly(t: Table) {
    Keyed(t) && PathsUnique(t)
  }

  ghost predicate Listed(t: Table, listing: seq<Project>) {
    && (forall k | 0 <= k < |listing| :: Active(t, listing[k].id) && t.rows[listing[k].id] == listing[k])
    && (forall id | Active(t, id) :: t.rows[id] in listing)
  }

  /** The index of some of the active rows. */
  ghost predicate Covers(ix: Index, t: Table, done: set<Id>) {
    && ix.byId.Keys == done
    && (forall id | id in done :: Active(t, id) && ix.byId[id] == t.rows[id].path
                                  && ix.byId[id] in ix.byPath && ix.byPath[ix.byId[id]] == id)
    && (forall p | p in ix.byPath :: ix.byPath[p] in done && ix.byId[ix.byPath[p]] == p)
  }

  function Ids(ps: seq<Project>): set<Id> {
    set p | p in ps :: p.id
  }

  lemma IdsCons(ps: seq<Project>)
    requires ps != []
    ensures Ids(ps) == {ps[0].id} + Ids(ps[1..])
  {
    assert forall q | q in ps :: q == ps[0] || q in ps[1..];
  }

  lemma CoversMore(ix: Index, t: Table, done: set<Id>, p: Project)
    requires Orderly(t) && Covers(ix, t, done) && Active(t, p.id) && t.rows[p.id] == p
    ensures Covers(Index(ix.byId[p.id := p.path], ix.byPath[p.path := p.id]), t, done + {p.id})
  {
    forall id | id in done && t.rows[id].path == p.path
      ensures id == p.id
    {
      assert Active(t, id) && Active(t, p.id);
    }
    forall q | q in ix.byPath && ix.byPath[q] == p.id
      ensures q == p.path
    {
      assert ix.byId[ix.byPath[q]] == q;
    }
  }

  lemma {:induction false} IndexCovers(t: Table, ps: seq<Project>, ix: Index, done: set<Id>)
    requires Orderly(t) && Covers(ix, t, done)
    requires forall k | 0 <= k < |ps| :: Active(t, ps[k].id) && t.rows[ps[k].id] == ps[k]
    ensures Covers(IndexList(ps, ix), t, done + Ids(ps))
    decreases ps
  {
    if ps == [] {
      assert done + Ids(ps) == done;
    } else {
      CoversMore(ix, t, done, ps[0]);
      IdsCons(ps);
      assert done + {ps[0].id} + Ids(ps[1..]) == done + Ids(ps);
      IndexCovers(t, ps[1..], Index(ix.byId[ps[0].id := ps[0].path], ix.byPath[ps[0].path := ps[0].id]), done + {ps[0].id});
    }
  }

  /** Built from the target's listing, the two indexes are inverse and hold exactly
      the active projects. */
  lemma StartMirrors(t: Table, listing: seq<Project>)
    requires Orderly(t) && Listed(t, listing)
    ensures Mirrors(IndexList(listing, EMPTY), t)
  {
    IndexCovers(t, listing, EMPTY, {});
    assert {} + Ids(listing) == Ids(listing);
    forall id
      ensures id in Ids(listing) <==> Active(t, id)
    {
      if Active(t, id) {
        assert t.rows[id] in listing && t.rows[id].id == id;
      }
    }
  }

  ghost predicate Finder(env: Env) {
    forall t: Table :: Finds(env, t)
  }

  lemma JudgedFree(ix: Index, t: Table, src: Project, env: Env)
    requires Mirrors(ix, t) && Orderly(t) && Chosen(Judge(ix, t, src, env))
    ensures src.id in t.rows ==> !t.rows[src.id].archived && t.rows[src.id].path == src.path
    ensures forall id | Active(t, id) && t.rows[id].path == src.path :: id == src.id
    ensures Judge(ix, t, src, env).Insert? <==> src.id !in t.rows
    ensures src.id in ix.byId <==> src.id in t.rows
    ensures src.path in ix.byPath <==> src.id in t.rows
  {
    if src.id in t.rows && !t.rows[src.id].archived {
      assert Active(t, src.id);
    }
    if src.path in ix.byPath {
      assert ix.byPath[src.path] == src.id;
      assert Active(t, src.id);
    }
  }

  /** The decision read off the target alone: update a project active at that path,
      insert one whose id and path are both free, and otherwise name the first thing
      in the way. */
  lemma JudgeDecides(ix: Index, t: Table, src: Project, env: Env)
    requires Mirrors(ix, t) && Orderly(t) && !env.getFails(src.id) && !env.reposFail(src.id)
    ensures var o := Judge(ix, t, src, env);
      && (o == Update <==> Active(t, src.id) && t.rows[src.id].path == src.path)
      && (o == Insert <==> src.id !in t.rows && forall id | Active(t, id) :: t.rows[id].path != src.path)
      && (src.id in t.rows && t.rows[src.id].archived ==> o == Skip(Existing(src, SameIdArchived, t.rows[src.id])))
      && (Active(t, src.id) && t.rows[src.id].path != src.path ==>
            o == Skip(Existing(src, SameIdDifferentPath, t.rows[src.id])))
      && (forall id | src.id !in t.rows && Active(t, id) && t.rows[id].path == src.path ::
            o == Skip(Existing(src, SamePathDifferentId, t.rows[id])))
  {
    if src.id in t.rows {
      assert Active(t, src.id) <==> !t.rows[src.id].archived;
      assert t.rows[src.id].id == src.id;
    }
    forall id | Active(t, id) && t.rows[id].path == src.path
      ensures src.path in ix.byPath && ix.byPath[src.path] == id && t.rows[id].id == id
    {
      assert id in ix.byId;
    }
    if src.path in ix.byPath {
      assert Active(t, ix.byPath[src.path]);
    }
  }

  /** What the indexes let through, the store's own guards accept. */
  lemma NoRefusal(ix: Index, t: Table, src: Project, env: Env)
    requires Mirrors(ix, t) && Orderly(t) && Finds(env, t) && Chosen(Judge(ix, t, src, env))
    ensures Refusal(t, src, env) == None
  {
    JudgedFree(ix, t, src, env);
    var found := env.find(t.rows, src.path);
    if found.Some? {
      assert Active(t, found.value) && t.rows[found.value].path == src.path;
    }
  }

  ghost predicate InStep(s: Progress) {
    s.ok && Mirrors(s.ix, s.t) && Orderly(s.t)
  }

  lemma UpsertOrderly(ix: Index, t: Table, src: Project, env: Env)
    requires Mirrors(ix, t) && Orderly(t) && !src.archived && Chosen(Judge(ix, t, src, env))
    ensures Orderly(Upsert(t, src, env))
    ensures forall id :: Active(Upsert(t, src, env), id) <==> Active(t, id) || id == src.id
  {
    JudgedFree(ix, t, src, env);
    var t' := Upsert(t, src, env);
    assert forall a | a != src.id && Active(t', a) :: Active(t, a) && t'.rows[a] == t.rows[a];
  }

  lemma InsertMutual(ix: Index, src: Project)
    requires Mutual(ix) && src.id !in ix.byId && src.path !in ix.byPath
    ensures Mutual(Index(ix.byId[src.id := src.path], ix.byPath[src.path := src.id]))
  {
  }

  /** One step of a real run keeps the indexes the mirror of the table, the table
      orderly, and never meets a refusal of the store. */
  lemma AdvanceKeeps(s: Progress, src: Project, env: Env)
    requires InStep(s) && !s.rep.dryRun && !src.archived && Finds(env, s.t)
    ensures Advance(s, src, env).ok ==> InStep(Advance(s, src, env))
    ensures Orderly(Advance(s, src, env).t)
    ensures var o := Judge(s.ix, s.t, src, env);
      Settle(o, s.t, src, false, env) == if Chosen(o) && env.writeFails(src.id) then Abort else o
  {
    var o := Judge(s.ix, s.t, src, env);
    if Chosen(o) {
      NoRefusal(s.ix, s.t, src, env);
      JudgedFree(s.ix, s.t, src, env);
      UpsertOrderly(s.ix, s.t, src, env);
      if o.Insert? {
        InsertMutual(s.ix, src);
      }
    }
  }

  lemma {:induction false} ImportKeeps(s: Progress, srcs: seq<Project>, env: Env)
    requires InStep(s) && !s.rep.dryRun && Finder(env)
    requires forall k | 0 <= k < |srcs| :: !srcs[k].archived
    ensures Orderly(Import(s, srcs, env).t)
    ensures Import(s, srcs, env).ok ==> InStep(Import(s, srcs, env))
    decreases srcs
  {
    if srcs != [] {
      assert Finds(env, s.t);
      AdvanceKeeps(s, srcs[0], env);
      var s' := Advance(s, srcs[0], env);
      if s'.ok {
        ImportKeeps(s', srcs[1..], env);
      } else {
        assert Import(s', srcs[1..], env) == s';
      }
    }
  }

  // ----- What an import leaves alone

  ghost predicate Keeps(t: Table, t': Table) {
    forall id | id in t.rows ::
      && id in t'.rows
      && t'.rows[id].archived == t.rows[id].archived && t'.rows[id].path == t.rows[id].path
      && (t.rows[id].archived ==> t'.rows[id] == t.rows[id])
  }

  /** Everything stored about one project. */
  predicate SameAt(t: Table, t': Table, id: Id) {
    && (id in t.rows <==> id in t'.rows) && (id in t.rows ==> t.rows[id] == t'.rows[id])
    && (id in t.repos <==> id in t'.repos) && (id in t.repos ==> t.repos[id] == t'.repos[id])
  }

  /** A step writes nothing, or exactly the source's own row and child repos, onto
      nothing or an active row at the same path. */
  lemma AdvanceWrites(s: Progress, src: Project, env: Env)
    ensures var t' := Advance(s, src, env).t;
      t' == s.t
      || (!s.rep.dryRun && t' == Upsert(s.t, src, env)
          && (src.id in s.t.rows ==> !s.t.rows[src.id].archived && s.t.rows[src.id].path == src.path))
    ensures Advance(s, src, env).rep.dryRun == s.rep.dryRun
  {
  }

  lemma AdvanceLeaves(s: Progress, src: Project, env: Env)
    requires !src.archived
    ensures Keeps(s.t, Advance(s, src, env).t)
    ensures forall id | id != src.id :: SameAt(s.t, Advance(s, src, env).t, id)
    ensures s.rep.dryRun ==> Advance(s, src, env).t == s.t
    ensures Advance(s, src, env).rep.dryRun == s.rep.dryRun
  {
    AdvanceWrites(s, src, env);
    WriteKeeps(s.t, src, env);
  }

  lemma WriteKeeps(t: Table, src: Project, env: Env)
    requires !src.archived
    ensures Keeps(t, t)
    ensures (src.id in t.rows ==> !t.rows[src.id].archived && t.rows[src.id].path == src.path) ==>
            Keeps(t, Upsert(t, src, env))
    ensures forall id | id != src.id :: SameAt(t, Upsert(t, src, env), id)
  {
  }

  /** No run, not even one that stops on an error, removes or archives a target
      project, moves it to another path, or touches an archived one; and whatever the
      source does not name keeps everything stored about it. */
  lemma {:induction false} ExistingProjectsStay(s: Progress, srcs: seq<Project>, env: Env)
    requires forall k | 0 <= k < |srcs| :: !srcs[k].archived
    ensures Keeps(s.t, Import(s, srcs, env).t)
    ensures forall id | id !in Ids(srcs) :: SameAt(s.t, Import(s, srcs, env).t, id)
    ensures s.rep.dryRun ==> Import(s, srcs, env).t == s.t
    decreases srcs
  {
    if srcs != [] && s.ok {
      AdvanceLeaves(s, srcs[0], env);
      IdsCons(srcs);
      ExistingProjectsStay(Advance(s, srcs[0], env), srcs[1..], env);
    }
  }

  // ----- When a dry run predicts the real one

  /** The id index holds exactly the active rows, each at its path; the path index may
      favour any of several rows at one path. */
  ghost predicate Tracks(ix: Index, t: Table) {
    && Keyed(t)
    && (forall id :: id in ix.byId <==> Active(t, id))
    && (forall id | id in ix.byId :: ix.byId[id] == t.rows[id].path)
  }

  lemma {:induction false} IndexTracks(t: Table, ps: seq<Project>, ix: Index, done: set<Id>)
    requires forall k | 0 <= k < |ps| :: Active(t, ps[k].id) && t.rows[ps[k].id] == ps[k]
    requires ix.byId.Keys == done && forall id | id in done :: Active(t, id) && ix.byId[id] == t.rows[id].path
    ensures var ix' := IndexList(ps, ix);
      && ix'.byId.Keys == done + Ids(ps)
      && forall id | id in ix'.byId :: Active(t, id) && ix'.byId[id] == t.rows[id].path
    decreases ps
  {
    if ps == [] {
      assert done + Ids(ps) == done;
    } else {
      assert t.rows[ps[0].id] == ps[0];
      IdsCons(ps);
      assert done + {ps[0].id} + Ids(ps[1..]) == done + Ids(ps);
      IndexTracks(t, ps[1..], Index(ix.byId[ps[0].id := ps[0].path], ix.byPath[ps[0].path := ps[0].id]), done + {ps[0].id});
    }
  }

  lemma StartTracks(t: Table, listing: seq<Project>)
    requires Keyed(t) && Listed(t, listing)
    ensures Tracks(IndexList(listing, EMPTY), t)
  {
    IndexTracks(t, listing, EMPTY, {});
    forall id | Active(t, id)
      ensures id in Ids(listing)
    {
      assert t.rows[id] in listing && t.rows[id].id == id;
    }
  }

  /** The store's lookup by path finds another project than the source's own. */
  predicate Elsewhere(t: Table, src: Project, env: Env) {
    var found := env.find(t.rows, src.path);
    found.Some? && found.value in t.rows && found.value != src.id
  }

  lemma RefusedIffElsewhere(ix: Index, t: Table, src: Project, env: Env)
    requires Tracks(ix, t) && Chosen(Judge(ix, t, src, env))
    ensures Refusal(t, src, env).Some? <==> Elsewhere(t, src, env)
    ensures src.id in t.rows ==> src.id in ix.byId && t.rows[src.id].path == src.path
    ensures src.id !in t.rows ==> Judge(ix, t, src, env) == Insert
    ensures Judge(ix, t, src, env) == Update ==>
            && src.id in ix.byId && ix.byId[src.id] == src.path
            && src.path in ix.byPath && ix.byPath[src.path] == src.id
  {
    if src.id in t.rows {
      assert Active(t, src.id) <==> !t.rows[src.id].archived;
    }
  }

  /** A dry run beside a real one: same indexes, same counts, and the same rows under
      every id the indexes leave to the store. */
  ghost predicate Shadows(d: Progress, r: Progress) {
    && d.ix == r.ix && d.ok == r.ok && !r.rep.dryRun && d.rep == r.rep.(dryRun := true)
    && forall id | id !in r.ix.byId :: SameAt(d.t, r.t, id)
  }

  lemma JudgedAlike(ix: Index, t: Table, t': Table, src: Project, env: Env)
    requires src.id in ix.byId || SameAt(t, t', src.id)
    ensures Judge(ix, t, src, env) == Judge(ix, t', src, env)
  {
  }

  lemma AppliedAlike(d: Progress, r: Progress, src: Project, o: Outcome, env: Env)
    requires Shadows(d, r)
    requires Chosen(o) && src.id !in r.ix.byId ==> o.Insert?
    ensures Shadows(Apply(d, src, o, env), Apply(r, src, o, env))
  {
    var r' := Apply(r, src, o, env);
    assert forall id | id != src.id :: SameAt(r.t, r'.t, id);
  }

  lemma UpsertTracks(ix: Index, t: Table, src: Project, env: Env)
    requires Tracks(ix, t) && !src.archived && Chosen(Judge(ix, t, src, env))
    ensures Tracks(Index(ix.byId[src.id := src.path], ix.byPath[src.path := src.id]), Upsert(t, src, env))
    ensures Judge(ix, t, src, env) == Update ==> Tracks(ix, Upsert(t, src, env))
  {
    RefusedIffElsewhere(ix, t, src, env);
    var t' := Upsert(t, src, env);
    assert forall id :: Active(t', id) <==> Active(t, id) || id == src.id;
  }

  /** The step the dry run takes is the one the real run takes, unless the real write is
      refused. */
  lemma ShadowStep(d: Progress, r: Progress, src: Project, env: Env)
    requires Shadows(d, r) && r.ok && Tracks(r.ix, r.t) && !src.archived
    requires Chosen(Judge(r.ix, r.t, src, env)) ==> Writable(r.t, src, env)
    ensures Shadows(Advance(d, src, env), Advance(r, src, env))
    ensures Tracks(Advance(r, src, env).ix, Advance(r, src, env).t)
  {
    var o := Judge(r.ix, r.t, src, env);
    JudgedAlike(r.ix, d.t, r.t, src, env);
    if Chosen(o) {
      RefusedIffElsewhere(r.ix, r.t, src, env);
      UpsertTracks(r.ix, r.t, src, env);
    }
    assert Advance(r, src, env) == Apply(r, src, o, env);
    AppliedAlike(d, r, src, o, env);
  }

  predicate Writable(t: Table, src: Project, env: Env) {
    !env.writeFails(src.id) && !Elsewhere(t, src, env)
  }

  /** Along a real run, no write errs, and the store never finds another project at the
      path of one the loop has chosen to write. */
  predicate Unopposed(s: Progress, srcs: seq<Project>, env: Env)
    decreases srcs
  {
    srcs == [] || !s.ok
    || ((Chosen(Judge(s.ix, s.t, srcs[0], env)) ==> Writable(s.t, srcs[0], env))
        && Unopposed(Advance(s, srcs[0], env), srcs[1..], env))
  }

  // ----- Once the reports part they stay apart

  /** Both indexes give this id and this path to each other. */
  predicate Holds(ix: Index, id: Id, path: Path) {
    id in ix.byId && ix.byId[id] == path && path in ix.byPath && ix.byPath[path] == id
  }

  /** A dry run that believes a project is in place never reports a conflict for it. */
  lemma HoldsOn(s: Progress, src: Project, id: Id, path: Path, env: Env)
    requires Holds(s.ix, id, path) && s.rep.dryRun
    ensures Holds(Advance(s, src, env).ix, id, path) && Advance(s, src, env).rep.dryRun
    ensures var cs, cs' := s.rep.conflicts, Advance(s, src, env).rep.conflicts;
      cs' == cs || (|cs'| == |cs| + 1 && cs'[..|cs|] == cs && !(cs'[|cs|].id == id && cs'[|cs|].path == path))
  {
  }

  lemma {:induction false} NeverReported(s: Progress, srcs: seq<Project>, id: Id, path: Path, env: Env)
    requires Holds(s.ix, id, path) && s.rep.dryRun
    ensures var cs, cs' := s.rep.conflicts, Import(s, srcs, env).rep.conflicts;
      cs <= cs' && forall k | |cs| <= k < |cs'| :: !(cs'[k].id == id && cs'[k].path == path)
    decreases srcs
  {
    if srcs != [] && s.ok {
      HoldsOn(s, srcs[0], id, path, env);
      NeverReported(Advance(s, srcs[0], env), srcs[1..], id, path, env);
    }
  }

  lemma {:induction false} ConflictsGrow(s: Progress, srcs: seq<Project>, env: Env)
    ensures s.rep.conflicts <= Import(s, srcs, env).rep.conflicts
    decreases srcs
  {
    if srcs != [] && s.ok {
      ConflictsGrow(Advance(s, srcs[0], env), srcs[1..], env);
    }
  }

  lemma RefusalParts(d: Progress, r: Progress, srcs: seq<Project>, env: Env)
    requires Shadows(d, r) && r.ok && Tracks(r.ix, r.t) && srcs != [] && !env.writeFails(srcs[0].id)
    requires Chosen(Judge(r.ix, r.t, srcs[0], env)) && Elsewhere(r.t, srcs[0], env)
    ensures Import(d, srcs, env).rep.conflicts != Import(r, srcs, env).rep.conflicts
  {
    var src, n := srcs[0], |r.rep.conflicts|;
    var o := Judge(r.ix, r.t, src, env);
    JudgedAlike(r.ix, d.t, r.t, src, env);
    RefusedIffElsewhere(r.ix, r.t, src, env);
    var c := Refusal(r.t, src, env).value;
    assert Advance(r, src, env).rep.conflicts == r.rep.conflicts + [c];
    assert Advance(d, src, env) == Apply(d, src, o, env);
    NeverReported(Advance(d, src, env), srcs[1..], src.id, src.path, env);
    ConflictsGrow(Advance(r, src, env), srcs[1..], env);
    assert Import(r, srcs, env).rep.conflicts[n] == c;
  }

  function Total(rep: Report): nat { rep.inserted + rep.updated + rep.skipped }

  lemma {:induction false} TotalsGrow(s: Progress, srcs: seq<Project>, env: Env)
    ensures Total(s.rep) <= Total(Import(s, srcs, env).rep)
    decreases srcs
  {
    if srcs != [] && s.ok {
      TotalsGrow(Advance(s, srcs[0], env), srcs[1..], env);
    }
  }

  lemma WriteErrorParts(d: Progress, r: Progress, srcs: seq<Project>, env: Env)
    requires Shadows(d, r) && r.ok && Tracks(r.ix, r.t) && srcs != []
    requires Chosen(Judge(r.ix, r.t, srcs[0], env)) && env.writeFails(srcs[0].id)
    ensures Total(Import(d, srcs, env).rep) > Total(Import(r, srcs, env).rep)
  {
    JudgedAlike(r.ix, d.t, r.t, srcs[0], env);
    FailedStays(Advance(r, srcs[0], env), srcs[1..], env);
    TotalsGrow(Advance(d, srcs[0], env), srcs[1..], env);
  }

  lemma {:induction false} ShadowRun(d: Progress, r: Progress, srcs: seq<Project>, env: Env)
    requires Shadows(d, r) && Tracks(r.ix, r.t)
    requires forall k | 0 <= k < |srcs| :: !srcs[k].archived
    ensures var dry, done := Import(d, srcs, env), Import(r, srcs, env);
      if Unopposed(r, srcs, env) then dry.ok == done.ok && dry.rep == done.rep.(dryRun := true)
      else dry.rep != done.rep.(dryRun := true)
    decreases srcs
  {
    if srcs != [] && r.ok {
      if !Chosen(Judge(r.ix, r.t, srcs[0], env)) || Writable(r.t, srcs[0], env) {
        ShadowStep(d, r, srcs[0], env);
        ShadowRun(Advance(d, srcs[0], env), Advance(r, srcs[0], env), srcs[1..], env);
      } else if env.writeFails(srcs[0].id) {
        WriteErrorParts(d, r, srcs, env);
      } else {
        RefusalParts(d, r, srcs, env);
      }
    }
  }

  /** A dry run writes nothing, and it reports exactly what the real run will if and only
      if no write errs and the store raises no conflict the indexes did not see: at
      every project the loop writes, its lookup by path finds nothing or that project. */
  lemma DryRunPredictsIff(t: Table, listing: seq<Project>, srcs: seq<Project>, env: Env)
    requires Keyed(t) && Listed(t, listing) && forall k | 0 <= k < |srcs| :: !srcs[k].archived
    ensures var dry, done := Import(Start(t, listing, true), srcs, env), Import(Start(t, listing, false), srcs, env);
      && dry.t == t
      && (dry.ok == done.ok && dry.rep == done.rep.(dryRun := true) <==> Unopposed(Start(t, listing, false), srcs, env))
  {
    StartTracks(t, listing);
    ShadowRun(Start(t, listing, true), Start(t, listing, false), srcs, env);
    ExistingProjectsStay(Start(t, listing, true), srcs, env);
  }

  lemma {:induction false} OrderlyIsUnopposed(s: Progress, srcs: seq<Project>, env: Env)
    requires InStep(s) && !s.rep.dryRun && Finder(env)
    requires forall k | 0 <= k < |srcs| :: !srcs[k].archived && !env.writeFails(srcs[k].id)
    ensures Unopposed(s, srcs, env)
    decreases srcs
  {
    if srcs != [] {
      assert Finds(env, s.t);
      AdvanceKeeps(s, srcs[0], env);
      if Chosen(Judge(s.ix, s.t, srcs[0], env)) {
        NoRefusal(s.ix, s.t, srcs[0], env);
        JudgedFree(s.ix, s.t, srcs[0], env);
      }
      if Advance(s, srcs[0], env).ok {
        OrderlyIsUnopposed(Advance(s, srcs[0], env), srcs[1..], env);
      }
    }
  }

  /** In particular it does on every target whose active paths are distinct. */
  lemma DryRunPredicts(t: Table, listing: seq<Project>, srcs: seq<Project>, env: Env)
    requires Orderly(t) && Listed(t, listing) && Finder(env)
    requires forall k | 0 <= k < |srcs| :: !srcs[k].archived && !env.writeFails(srcs[k].id)
    ensures var dry, done := Import(Start(t, listing, true), srcs, env), Import(Start(t, listing, false), srcs, env);
      dry.t == t && dry.ok == done.ok && dry.rep == done.rep.(dryRun := true)
  {
    StartMirrors(t, listing);
    OrderlyIsUnopposed(Start(t, listing, false), srcs, env);
    DryRunPredictsIff(t, listing, srcs, env);
  }

  /** Distinct active paths are needed: where two active projects share one, the dry
      run follows the index and the store its own lookup, and the reports part. */
  lemma SharedPathMisleads(t: Table, listing: seq<Project>, a: Id, b: Id, env: Env)
    requires Keyed(t) && Active(t, a) && Active(t, b) && a != b && t.rows[a].path == t.rows[b].path
    requires var ix := IndexList(listing, EMPTY); var p := t.rows[b].path;
      b in ix.byId && ix.byId[b] == p && p in ix.byPath && ix.byPath[p] == b
    requires env.find(t.rows, t.rows[b].path) == Some(a) && !env.reposFail(b) && !env.writeFails(b)
    ensures Import(Start(t, listing, true), [t.rows[b]], env).rep == Report(true, 0, 1, 0, [])
    ensures Import(Start(t, listing, false), [t.rows[b]], env).rep
      == Report(false, 0, 0, 1, [Existing(t.rows[b], SamePathDifferentId, t.rows[a])])
  {
    var src := t.rows[b];
    assert src.id == b;
    assert [src][1..] == [];
    var dry, done := Start(t, listing, true), Start(t, listing, false);
    assert Import(Advance(dry, src, env), [], env) == Advance(dry, src, env);
    assert Import(Advance(done, src, env), [], env) == Advance(done, src, env);
  }

  // ----- Importing again

  ghost predicate DistinctIds(ps: seq<Project>) {
    forall i, j | 0 <= i < j < |ps| :: ps[i].id != ps[j].id
  }

  ghost predicate Within(a: Index, b: Index) {
    && (forall id | id in a.byId :: id in b.byId && b.byId[id] == a.byId[id])
    && (forall p | p in a.byPath :: p in b.byPath && b.byPath[p] == a.byPath[p])
  }

  lemma AdvanceIndex(s: Progress, src: Project, env: Env)
    requires InStep(s)
    ensures Within(s.ix, Advance(s, src, env).ix)
    ensures forall id | id in Advance(s, src, env).ix.byId && id != src.id :: id in s.ix.byId
  {
    var o := Judge(s.ix, s.t, src, env);
    if Chosen(o) {
      JudgedFree(s.ix, s.t, src, env);
    }
  }

  lemma {:induction false} IndexGrows(s: Progress, srcs: seq<Project>, env: Env)
    requires InStep(s) && !s.rep.dryRun && Finder(env)
    requires forall k | 0 <= k < |srcs| :: !srcs[k].archived
    ensures Within(s.ix, Import(s, srcs, env).ix)
    ensures forall id | id in Import(s, srcs, env).ix.byId && id !in Ids(srcs) :: id in s.ix.byId
    decreases srcs
  {
    if srcs != [] {
      assert Finds(env, s.t);
      AdvanceIndex(s, srcs[0], env);
      AdvanceKeeps(s, srcs[0], env);
      IdsCons(srcs);
      if Advance(s, srcs[0], env).ok {
        IndexGrows(Advance(s, srcs[0], env), srcs[1..], env);
      }
    }
  }

  /** How the second run's report stands to the first one's at the same point. */
  predicate Tally(first: Report, second: Report) {
    && second.inserted == 0 && second.updated == first.inserted + first.updated
    && second.skipped == first.skipped && second.conflicts == first.conflicts
  }

  /** The source's child repos, each with its own contents, in the importing project's
      name. */
  predicate CopiedTo(children: seq<Repo>, originals: seq<Repo>, id: Id) {
    && |children| == |originals|
    && forall k | 0 <= k < |originals| :: children[k].body == originals[k].body && children[k].project == id
  }

  predicate StoredAs(t: Table, src: Project, env: Env) {
    && src.id in t.rows && t.rows[src.id] == src
    && src.id in t.repos && CopiedTo(t.repos[src.id], env.repos(src.id), src.id)
  }

  /** Where the first run inserted or updated, its end state already stores exactly
      that project, and both indexes agree on it. */
  lemma ChosenIsStored(s: Progress, srcs: seq<Project>, env: Env)
    requires InStep(s) && !s.rep.dryRun && Finder(env) && srcs != [] && DistinctIds(srcs)
    requires forall k | 0 <= k < |srcs| :: !srcs[k].archived
    requires Import(s, srcs, env).ok && Chosen(Judge(s.ix, s.t, srcs[0], env))
    ensures var e := Import(s, srcs, env);
      && StoredAs(e.t, srcs[0], env)
      && srcs[0].id in e.ix.byId && e.ix.byId[srcs[0].id] == srcs[0].path
      && srcs[0].path in e.ix.byPath && e.ix.byPath[srcs[0].path] == srcs[0].id
  {
    var src, s' := srcs[0], Advance(s, srcs[0], env);
    assert Finds(env, s.t);
    AdvanceKeeps(s, src, env);
    JudgedFree(s.ix, s.t, src, env);
    assert StoredAs(s'.t, src, env);
    assert src.id !in Ids(srcs[1..]);
    ExistingProjectsStay(s', srcs[1..], env);
    assert SameAt(s'.t, Import(s', srcs[1..], env).t, src.id);
    IndexGrows(s', srcs[1..], env);
  }

  /** Where the first run skipped, the second one skips for the same reason. */
  lemma SkippedAgain(s: Progress, srcs: seq<Project>, q: Progress, env: Env)
    requires InStep(s) && !s.rep.dryRun && Finder(env) && srcs != [] && DistinctIds(srcs)
    requires forall k | 0 <= k < |srcs| :: !srcs[k].archived
    requires var e := Import(s, srcs, env); e.ok && InStep(q) && q.ix == e.ix && q.t == e.t
    requires Judge(s.ix, s.t, srcs[0], env).Skip?
    ensures Judge(q.ix, q.t, srcs[0], env) == Judge(s.ix, s.t, srcs[0], env)
  {
    var src, s' := srcs[0], Advance(s, srcs[0], env);
    assert Finds(env, s.t);
    assert src.id !in Ids(srcs[1..]);
    assert s'.ix == s.ix && s'.t == s.t;
    ExistingProjectsStay(s', srcs[1..], env);
    assert SameAt(s.t, q.t, src.id);
    IndexGrows(s', srcs[1..], env);
    assert src.id in q.ix.byId <==> src.id in s.ix.byId;
  }

  ghost predicate Repeats(s: Progress, srcs: seq<Project>, q: Progress, env: Env) {
    var e := Import(s, srcs, env);
    e.ok && InStep(q) && !q.rep.dryRun && q.ix == e.ix && q.t == e.t && Tally(s.rep, q.rep)
  }

  lemma AgainChosen(s: Progress, srcs: seq<Project>, q: Progress, env: Env)
    requires InStep(s) && !s.rep.dryRun && Finder(env) && srcs != [] && DistinctIds(srcs)
    requires forall k | 0 <= k < |srcs| :: !srcs[k].archived
    requires Repeats(s, srcs, q, env) && Chosen(Judge(s.ix, s.t, srcs[0], env))
    requires !env.writeFails(srcs[0].id) && !env.reposFail(srcs[0].id)
    ensures Advance(q, srcs[0], env) == q.(rep := q.rep.(updated := q.rep.updated + 1))
  {
    var src := srcs[0];
    ChosenIsStored(s, srcs, env);
    assert Judge(q.ix, q.t, src, env) == Update;
    assert Finds(env, q.t);
    NoRefusal(q.ix, q.t, src, env);
    UpsertStored(q.t, src, env);
  }

  lemma UpsertStored(t: Table, src: Project, env: Env)
    requires StoredAs(t, src, env)
    ensures Upsert(t, src, env) == t
  {
    assert t.repos[src.id] == Relabel(env.repos(src.id), src.id);
    assert t.rows[src.id := src] == t.rows;
    assert t.repos[src.id := t.repos[src.id]] == t.repos;
  }

  lemma FailedStays(s: Progress, srcs: seq<Project>, env: Env)
    ensures !s.ok ==> Import(s, srcs, env) == s
  {
  }

  lemma StillOk(s: Progress, srcs: seq<Project>, env: Env)
    requires srcs != [] && s.ok && Import(s, srcs, env).ok
    ensures Advance(s, srcs[0], env).ok && Import(s, srcs, env) == Import(Advance(s, srcs[0], env), srcs[1..], env)
  {
    FailedStays(Advance(s, srcs[0], env), srcs[1..], env);
  }

  lemma AgainStep(s: Progress, srcs: seq<Project>, q: Progress, env: Env)
    requires InStep(s) && !s.rep.dryRun && Finder(env) && srcs != [] && DistinctIds(srcs)
    requires forall k | 0 <= k < |srcs| :: !srcs[k].archived
    requires Repeats(s, srcs, q, env)
    ensures InStep(Advance(s, srcs[0], env)) && !Advance(s, srcs[0], env).rep.dryRun
    ensures Repeats(Advance(s, srcs[0], env), srcs[1..], Advance(q, srcs[0], env), env)
  {
    var src := srcs[0];
    var o := Judge(s.ix, s.t, src, env);
    assert Finds(env, s.t);
    AdvanceKeeps(s, src, env);
    StillOk(s, srcs, env);
    if Chosen(o) {
      AgainChosen(s, srcs, q, env);
    } else {
      SkippedAgain(s, srcs, q, env);
    }
  }

  lemma {:induction false} AgainRun(s: Progress, srcs: seq<Project>, q: Progress, env: Env)
    requires InStep(s) && !s.rep.dryRun && Finder(env) && DistinctIds(srcs)
    requires forall k | 0 <= k < |srcs| :: !srcs[k].archived
    requires Repeats(s, srcs, q, env)
    ensures var e, f := Import(s, srcs, env), Import(q, srcs, env);
      f.ok && f.t == e.t && Tally(e.rep, f.rep) && !f.rep.dryRun
    decreases srcs
  {
    if srcs != [] {
      AgainStep(s, srcs, q, env);
      AgainRun(Advance(s, srcs[0], env), srcs[1..], Advance(q, srcs[0], env), env);
    }
  }

  lemma MirrorUnique(a: Index, b: Index, t: Table)
    requires Mirrors(a, t) && Mirrors(b, t)
    ensures a == b
  {
    assert a.byId.Keys == b.byId.Keys;
    assert a.byId == b.byId;
    assert forall p | p in a.byPath :: p in b.byPath && b.byPath[p] == a.byPath[p];
    assert forall p | p in b.byPath :: p in a.byPath;
    assert a.byPath == b.byPath;
  }

  lemma SecondRun(s: Progress, srcs: seq<Project>, again: seq<Project>, env: Env)
    requires s.rep == Blank(false) && InStep(s) && Finder(env) && DistinctIds(srcs)
    requires forall k | 0 <= k < |srcs| :: !srcs[k].archived
    requires var first := Import(s, srcs, env); InStep(first) && Listed(first.t, again)
    ensures var first := Import(s, srcs, env);
      var second := Import(Start(first.t, again, false), srcs, env);
      second.ok && second.t == first.t && Tally(first.rep, second.rep) && !second.rep.dryRun
  {
    var first := Import(s, srcs, env);
    var q := Start(first.t, again, false);
    StartMirrors(first.t, again);
    MirrorUnique(q.ix, first.ix, first.t);
    AgainRun(s, srcs, q, env);
  }

  /** What the second run's end says of the first one's. */
  predicate Repeated(first: Progress, second: Progress) {
    && second.ok && second.t == first.t
    && second.rep == Report(false, 0, first.rep.inserted + first.rep.updated, first.rep.skipped, first.rep.conflicts)
  }

  lemma TallyRepeats(first: Progress, second: Progress)
    requires second.ok && second.t == first.t && Tally(first.rep, second.rep) && !second.rep.dryRun
    ensures Repeated(first, second)
  {
  }

  lemma SecondRunOf(s: Progress, first: Progress, srcs: seq<Project>, again: seq<Project>, env: Env)
    requires s.rep == Blank(false) && InStep(s) && Finder(env) && DistinctIds(srcs)
    requires forall k | 0 <= k < |srcs| :: !srcs[k].archived
    requires first == Import(s, srcs, env) && first.ok && Listed(first.t, again)
    ensures Repeated(first, Import(Start(first.t, again, false), srcs, env))
  {
    ImportKeeps(s, srcs, env);
    SecondRun(s, srcs, again, env);
    TallyRepeats(first, Import(Start(first.t, again, false), srcs, env));
  }

  /** Running a successful import again inserts nothing, updates exactly what the first
      run inserted or updated, reports the same conflicts, and leaves the target as it
      was. */
  lemma ImportIsIdempotent(t: Table, listing: seq<Project>, again: seq<Project>, srcs: seq<Project>, env: Env)
    requires Orderly(t) && Listed(t, listing) && Finder(env) && DistinctIds(srcs)
    requires forall k | 0 <= k < |srcs| :: !srcs[k].archived
    requires var first := Import(Start(t, listing, false), srcs, env); first.ok && Listed(first.t, again)
    ensures var first := Import(Start(t, listing, false), srcs, env);
      Repeated(first, Import(Start(first.t, again, false), srcs, env))
  {
    StartMirrors(t, listing);
    SecondRunOf(Start(t, listing, false), Import(Start(t, listing, false), srcs, env), srcs, again, env);
  }
}
