/** What a real import leaves in the target, source by source: the project with its
    child repos, or a conflict that names what is in the way. */
module ImportContents {
  import opened Options
  import opened RegistryImport

  ghost predicate Reported(rep: Report, id: Id) {
    exists k | 0 <= k < |rep.conflicts| :: rep.conflicts[k].id == id
  }

  lemma Grown(rep: Report, rep': Report, id: Id)
    requires rep.conflicts <= rep'.conflicts && Reported(rep, id)
    ensures Reported(rep', id)
  {
    var k :| 0 <= k < |rep.conflicts| && rep.conflicts[k].id == id;
    assert rep'.conflicts[k] == rep.conflicts[k];
  }

  /** A step of a real run reports its source and leaves the target as it was, or
      reports nothing and stores the source with its repos. */
  lemma StepStoresOrReports(s: Progress, src: Project, env: Env)
    requires s.ok && !s.rep.dryRun && Advance(s, src, env).ok
    ensures var s' := Advance(s, src, env);
      && !s'.rep.dryRun
      && (if s'.rep.conflicts == s.rep.conflicts then StoredAs(s'.t, src, env)
          else s'.t == s.t && |s'.rep.conflicts| == |s.rep.conflicts| + 1 && s'.rep.conflicts[|s.rep.conflicts|].id == src.id)
      && s.rep.conflicts <= s'.rep.conflicts
  {
  }

  lemma OthersUnreported(s: Progress, src: Project, env: Env, id: Id)
    requires s.ok && !s.rep.dryRun && Advance(s, src, env).ok && id != src.id && !Reported(s.rep, id)
    ensures !Reported(Advance(s, src, env).rep, id)
  {
    StepStoresOrReports(s, src, env);
    var before, after := s.rep.conflicts, Advance(s, src, env).rep.conflicts;
    assert forall k | 0 <= k < |before| :: after[k] == before[k];
  }

  lemma {:induction false} UnnamedStaysUnreported(s: Progress, srcs: seq<Project>, env: Env, id: Id)
    requires s.ok && !s.rep.dryRun && Import(s, srcs, env).ok && id !in Ids(srcs) && !Reported(s.rep, id)
    ensures !Reported(Import(s, srcs, env).rep, id)
    decreases srcs
  {
    if srcs != [] {
      StillOk(s, srcs, env);
      IdsCons(srcs);
      StepStoresOrReports(s, srcs[0], env);
      OthersUnreported(s, srcs[0], env, id);
      UnnamedStaysUnreported(Advance(s, srcs[0], env), srcs[1..], env, id);
    }
  }

  lemma IdAt(srcs: seq<Project>, k: nat)
    requires DistinctIds(srcs) && k < |srcs|
    ensures srcs[k].id in Ids(srcs) && srcs[k].id !in Ids(srcs[..k])
    ensures k > 0 ==> srcs[k].id != srcs[0].id && DistinctIds(srcs[1..]) && srcs[k] == srcs[1..][k - 1]
    ensures k == 0 ==> srcs[k].id !in Ids(srcs[1..])
  {
  }

  lemma FirstSource(s: Progress, srcs: seq<Project>, env: Env)
    requires s.ok && !s.rep.dryRun && DistinctIds(srcs) && Import(s, srcs, env).ok && srcs != []
    requires forall i | 0 <= i < |srcs| :: !srcs[i].archived
    requires !Reported(s.rep, srcs[0].id)
    ensures var e, src := Import(s, srcs, env), srcs[0];
      if Reported(e.rep, src.id) then SameAt(s.t, e.t, src.id) else StoredAs(e.t, src, env)
    ensures Reported(Import(s, srcs, env).rep, srcs[0].id) <==> Reported(Advance(s, srcs[0], env).rep, srcs[0].id)
  {
    var src, s' := srcs[0], Advance(s, srcs[0], env);
    IdAt(srcs, 0);
    StillOk(s, srcs, env);
    StepStoresOrReports(s, src, env);
    ExistingProjectsStay(s', srcs[1..], env);
    if s'.rep.conflicts == s.rep.conflicts {
      UnnamedStaysUnreported(s', srcs[1..], env, src.id);
    } else {
      assert s'.rep.conflicts[|s.rep.conflicts|].id == src.id;
      ConflictsGrow(s', srcs[1..], env);
      Grown(s'.rep, Import(s, srcs, env).rep, src.id);
    }
  }

  /** After a real run that went through, every source project is either in the report of
      conflicts, and everything the target holds under its id is as it was, or it is
      stored, field by field, with exactly its child repos, in order and in its own
      name. */
  lemma {:induction false} SourcesAreStoredOrReported(s: Progress, srcs: seq<Project>, env: Env, k: nat)
    requires s.ok && !s.rep.dryRun && DistinctIds(srcs) && Import(s, srcs, env).ok && k < |srcs|
    requires forall i | 0 <= i < |srcs| :: !srcs[i].archived
    requires !Reported(s.rep, srcs[k].id)
    ensures var e, src := Import(s, srcs, env), srcs[k];
      if Reported(e.rep, src.id) then SameAt(s.t, e.t, src.id) else StoredAs(e.t, src, env)
    decreases srcs
  {
    if k == 0 {
      FirstSource(s, srcs, env);
    } else {
      var s' := Advance(s, srcs[0], env);
      IdAt(srcs, k);
      StillOk(s, srcs, env);
      StepStoresOrReports(s, srcs[0], env);
      OthersUnreported(s, srcs[0], env, srcs[k].id);
      AdvanceLeaves(s, srcs[0], env);
      assert SameAt(s.t, s'.t, srcs[k].id);
      SourcesAreStoredOrReported(s', srcs[1..], env, k - 1);
    }
  }

  /** The whole of it, from the target's own listing. */
  lemma ImportStoresOrReports(t: Table, listing: seq<Project>, srcs: seq<Project>, env: Env, k: nat)
    requires DistinctIds(srcs) && Import(Start(t, listing, false), srcs, env).ok && k < |srcs|
    requires forall i | 0 <= i < |srcs| :: !srcs[i].archived
    ensures var e, src := Import(Start(t, listing, false), srcs, env), srcs[k];
      if Reported(e.rep, src.id) then SameAt(t, e.t, src.id)
      else
        && src.id in e.t.rows && e.t.rows[src.id] == src && src.id in e.t.repos
        && |e.t.repos[src.id]| == |env.repos(src.id)|
        && forall i | 0 <= i < |env.repos(src.id)| :: e.t.repos[src.id][i] == Repo(src.id, env.repos(src.id)[i].body)
  {
    SourcesAreStoredOrReported(Start(t, listing, false), srcs, env, k);
  }

  // ----- Conflicts are true

  /** What a conflict says of the target holds of it. */
  predicate TrueOf(c: Conflict, t: Table) {
    && c.targetId in t.rows && t.rows[c.targetId].path == c.targetPath
    && match c.reason
       case SameIdArchived => c.targetId == c.id && t.rows[c.targetId].archived
       case SameIdDifferentPath => c.targetId == c.id && !t.rows[c.targetId].archived && c.targetPath != c.path
       case SamePathDifferentId => c.targetId != c.id && !t.rows[c.targetId].archived && c.targetPath == c.path
  }

  ghost predicate AllTrue(rep: Report, t: Table) {
    forall k | 0 <= k < |rep.conflicts| :: TrueOf(rep.conflicts[k], t)
  }

  /** What the path index favours the id index knows, at that path. */
  ghost predicate Paired(ix: Index) {
    forall p | p in ix.byPath :: ix.byPath[p] in ix.byId && ix.byId[ix.byPath[p]] == p
  }

  ghost predicate Reliable(ix: Index, t: Table) {
    Tracks(ix, t) && Paired(ix)
  }

  lemma InsertPaired(ix: Index, src: Project)
    requires Paired(ix) && (src.id in ix.byId ==> ix.byId[src.id] == src.path)
    ensures Paired(Index(ix.byId[src.id := src.path], ix.byPath[src.path := src.id]))
  {
  }

  lemma {:induction false} IndexPaired(t: Table, ps: seq<Project>, ix: Index)
    requires Paired(ix) && forall id | id in ix.byId :: id in t.rows && ix.byId[id] == t.rows[id].path
    requires forall k | 0 <= k < |ps| :: ps[k].id in t.rows && t.rows[ps[k].id] == ps[k]
    ensures Paired(IndexList(ps, ix))
    decreases ps
  {
    if ps != [] {
      assert t.rows[ps[0].id] == ps[0];
      InsertPaired(ix, ps[0]);
      IndexPaired(t, ps[1..], Index(ix.byId[ps[0].id := ps[0].path], ix.byPath[ps[0].path := ps[0].id]));
    }
  }

  lemma JudgedConflictIsTrue(ix: Index, t: Table, src: Project, env: Env)
    requires Reliable(ix, t)
    ensures var o := Judge(ix, t, src, env); o.Skip? ==> TrueOf(o.conflict, t)
  {
    if src.id in t.rows {
      assert Active(t, src.id) <==> !t.rows[src.id].archived;
    }
  }

  lemma RefusedConflictIsTrue(t: Table, src: Project, env: Env)
    requires Keyed(t) && Finds(env, t)
    ensures Refusal(t, src, env).Some? ==> TrueOf(Refusal(t, src, env).value, t)
  {
  }

  lemma StillTrue(rep: Report, t: Table, t': Table)
    requires AllTrue(rep, t) && Keeps(t, t')
    ensures AllTrue(rep, t')
  {
  }

  lemma StepKeepsTrue(s: Progress, src: Project, env: Env)
    requires s.ok && !s.rep.dryRun && !src.archived && Reliable(s.ix, s.t) && AllTrue(s.rep, s.t) && Finder(env)
    ensures var s' := Advance(s, src, env);
      !s'.rep.dryRun && AllTrue(s'.rep, s'.t) && Reliable(s'.ix, s'.t)
  {
    var o := Judge(s.ix, s.t, src, env);
    assert Finds(env, s.t);
    AdvanceLeaves(s, src, env);
    StillTrue(s.rep, s.t, Advance(s, src, env).t);
    JudgedConflictIsTrue(s.ix, s.t, src, env);
    RefusedConflictIsTrue(s.t, src, env);
    if Chosen(o) {
      RefusedIffElsewhere(s.ix, s.t, src, env);
      UpsertTracks(s.ix, s.t, src, env);
      InsertPaired(s.ix, src);
    }
  }

  lemma {:induction false} RunKeepsTrue(s: Progress, srcs: seq<Project>, env: Env)
    requires s.ok && !s.rep.dryRun && Reliable(s.ix, s.t) && AllTrue(s.rep, s.t) && Finder(env)
    requires forall i | 0 <= i < |srcs| :: !srcs[i].archived
    ensures AllTrue(Import(s, srcs, env).rep, Import(s, srcs, env).t)
    decreases srcs
  {
    if srcs != [] {
      StepKeepsTrue(s, srcs[0], env);
      if Advance(s, srcs[0], env).ok {
        RunKeepsTrue(Advance(s, srcs[0], env), srcs[1..], env);
      } else {
        FailedStays(Advance(s, srcs[0], env), srcs[1..], env);
      }
    }
  }

  /** Every conflict a real run reports, shared paths or not, names a project that is in
      the target at the end, at the path it names, and that stands in the way as it
      says: archived under the source's id, active under it elsewhere, or active at its
      path under another id. */
  lemma ConflictsAreTrue(t: Table, listing: seq<Project>, srcs: seq<Project>, env: Env)
    requires Keyed(t) && Listed(t, listing) && Finder(env)
    requires forall i | 0 <= i < |srcs| :: !srcs[i].archived
    ensures var e := Import(Start(t, listing, false), srcs, env); AllTrue(e.rep, e.t)
  {
    StartTracks(t, listing);
    IndexPaired(t, listing, EMPTY);
    RunKeepsTrue(Start(t, listing, false), srcs, env);
  }
}
