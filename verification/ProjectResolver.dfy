/** Which registered project the working directory belongs to: the deepest registered
    ancestor, found in one pass over the project list. */
module ProjectResolver {
  import opened Options
  import opened Text

  // ----- Paths

  /** One name on a clean absolute path. */
  type Name = s: string | s != "" && s != "." && s != ".." && '/' !in s witness "a"

  /** A clean absolute path, as the names from the root down. */
  type Path = seq<Name>

  /** The path as text. */
  function Render(p: Path): string {
    if p == [] then "/" else Down(p)
  }

  function Down(p: Path): string {
    if p == [] then "" else Down(p[..|p| - 1]) + "/" + p[|p| - 1]
  }

  /** Between its slashes the text holds the names, in order. */
  lemma {:induction false} RenderSplits(p: Path)
    ensures Split(Down(p), '/') == [""] + p
  {
    if p != [] {
      var q, name := p[..|p| - 1], p[|p| - 1];
      RenderSplits(q);
      SplitConcat(Down(q), '/', name);
      SplitWhole(name, '/');
      assert Down(p) == Down(q) + ['/'] + name && p == q + [name];
    }
  }

  function Common(a: Path, b: Path): (n: nat)
    ensures n <= |a| && n <= |b| && a[..n] == b[..n]
    ensures n < |a| && n < |b| ==> a[n] != b[n]
  {
    if a == [] || b == [] || a[0] != b[0] then 0
    else
      var n := 1 + Common(a[1..], b[1..]);
      assert a[..n] == [a[0]] + a[1..][..n - 1] && b[..n] == [b[0]] + b[1..][..n - 1];
      n
  }

  /** filepath.Rel of two clean absolute paths: up to the common ancestor, then down. */
  function Rel(root: Path, child: Path): string {
    var n := Common(root, child);
    var parts := seq(|root| - n, i => "..") + child[n..];
    if parts == [] then "." else Join(parts, '/')
  }

  predicate Contains(root: Path, child: Path) {
    root == child || (var rel := Rel(root, child); rel != "." && rel != ".." && !("../" <= rel))
  }

  lemma JoinHead(parts: seq<string>)
    requires parts != []
    ensures |parts| == 1 ==> Join(parts, '/') == parts[0]
    ensures |parts| > 1 ==> Join(parts, '/') == parts[0] + ['/'] + Join(parts[1..], '/')
  {
  }

  lemma DownwardIsInside(parts: seq<Name>)
    requires parts != []
    ensures var rel := Join(parts, '/'); rel != "." && rel != ".." && !("../" <= rel)
  {
    var rel, first := Join(parts, '/'), parts[0];
    JoinHead(parts);
    assert first <= rel;
    if |parts| > 1 {
      assert rel[|first|] == '/';
    }
    assert |first| >= 3 ==> rel[2] == first[2] && first[2] in first;
    assert |first| == 2 ==> rel[..2] == first;
    assert |first| == 1 && |parts| > 1 ==> rel[1] == '/';
  }

  lemma UpwardIsOutside(parts: seq<string>)
    requires parts != [] && parts[0] == ".."
    ensures var rel := Join(parts, '/'); rel == ".." || "../" <= rel
  {
    JoinHead(parts);
    assert ".." + ['/'] == "../";
  }

  /** The test on the relative path's text is containment of directories: a name like
      "..cache" is no way out. */
  lemma ContainsIsAncestry(root: Path, child: Path)
    ensures Contains(root, child) <==> root <= child
  {
    var n := Common(root, child);
    var ups := seq(|root| - n, i => "..");
    if n == |root| {
      assert ups + child[n..] == child[n..];
      if child[n..] != [] {
        DownwardIsInside(child[n..]);
      }
    } else {
      UpwardIsOutside(ups + child[n..]);
      assert (ups + child[n..])[0] == "..";
    }
  }

  lemma {:induction false} LongerIsDeeper(a: Path, b: Path)
    requires a <= b
    ensures |Render(a)| <= |Render(b)|
    ensures |Render(a)| == |Render(b)| ==> a == b
    decreases |b|
  {
    if a != b {
      LongerIsDeeper(a, b[..|b| - 1]);
      assert Down(b) == Down(b[..|b| - 1]) + "/" + b[|b| - 1];
    }
  }

  /** Two ancestors of one directory are nested, and string length tells which way. */
  lemma AncestorsByLength(a: Path, b: Path, child: Path)
    requires a <= child && b <= child
    ensures |Render(a)| <= |Render(b)| <==> a <= b
    ensures |Render(a)| == |Render(b)| <==> a == b
  {
    if |a| <= |b| {
      assert a == child[..|a|] == b[..|a|];
      LongerIsDeeper(a, b);
    } else {
      assert b == child[..|b|] == a[..|b|];
      LongerIsDeeper(b, a);
    }
  }

  // ----- Resolution

  datatype Project = Project(id: string, kind: string, path: string)

  datatype Answer = Found(project: Project) | NotFound | Ambiguous | Failed

  /** The daemon's answer for one project id, and path normalisation. */
  datatype World = World(fetch: string -> Option<Project>, normalize: string -> Option<Path>)

  function Detail(ids: seq<string>, w: World, k: nat): Option<Project>
    requires k < |ids|
  {
    w.fetch(ids[k])
  }

  /** The normalised path of a registered project that contains the directory. */
  function Ancestor(ids: seq<string>, w: World, cwd: Path, k: nat): Option<Path>
    requires k < |ids|
  {
    var project := Detail(ids, w, k);
    if project.None? || project.value.path == "" then None
    else
      var path := w.normalize(project.value.path);
      if path.Some? && path.value <= cwd then path else None
  }

  /** A registered project lies at or above the directory, at this path. */
  predicate Covers(p: Project, w: World, cwd: Path, path: Path) {
    p.path != "" && w.normalize(p.path) == Some(path) && |path| <= |cwd| && cwd[..|path|] == path
  }

  /** Entries are compared exactly by the fetched projects that cover the directory. */
  lemma AncestorIff(ids: seq<string>, w: World, cwd: Path, k: nat, path: Path)
    requires k < |ids|
    ensures Ancestor(ids, w, cwd, k) == Some(path) <==>
      w.fetch(ids[k]).Some? && Covers(w.fetch(ids[k]).value, w, cwd, path)
  {
  }

  ghost predicate AllFetched(ids: seq<string>, w: World) {
    forall k | 0 <= k < |ids| :: Detail(ids, w, k).Some?
  }

  /** Entry `k` contains the directory and lies on or below every other entry that
      does. */
  ghost predicate Deepest(ids: seq<string>, w: World, cwd: Path, k: nat)
    requires k < |ids|
  {
    && Ancestor(ids, w, cwd, k).Some?
    && forall j | 0 <= j < |ids| && Ancestor(ids, w, cwd, j).Some? ::
         Ancestor(ids, w, cwd, j).value <= Ancestor(ids, w, cwd, k).value
  }

  ghost predicate NoAncestor(ids: seq<string>, w: World, cwd: Path) {
    forall k | 0 <= k < |ids| :: Ancestor(ids, w, cwd, k).None?
  }

  predicate IsScratch(p: Project) {
    p.id == "scratch" && p.kind == "scratch"
  }

  method OnlyScratchProject(ids: seq<string>, details: map<string, Project>) returns (scratch: Option<Project>)
    requires forall id | id in ids :: id in details
    ensures scratch == if |ids| == 1 && IsScratch(details[ids[0]]) then Some(details[ids[0]]) else None
  {
    if |ids| != 1 || !IsScratch(details[ids[0]]) {
      return None;
    }
    return Some(details[ids[0]]);
  }

  /** How deep entry `k` lies above the directory, as text length; -1 when it does not
      contain it. */
  function Depth(ids: seq<string>, w: World, cwd: Path, k: nat): int
    requires k < |ids|
  {
    var path := Ancestor(ids, w, cwd, k);
    if path.None? then -1 else |Render(path.value)|
  }

  method MatchLength(ids: seq<string>, w: World, cwd: Path, k: nat, project: Project) returns (len: int)
    requires k < |ids| && Detail(ids, w, k) == Some(project)
    ensures len == Depth(ids, w, cwd, k)
  {
    if project.path == "" {
      return -1;
    }
    var path := w.normalize(project.path);
    if path.None? {
      return -1;
    }
    ContainsIsAncestry(path.value, cwd);
    if !Contains(path.value, cwd) {
      return -1;
    }
    return |Render(path.value)|;
  }

  /** Of the first `n` depths `at` has the greatest, and `ambiguous` says whether
      `other` has it too. */
  ghost predicate Best(depths: seq<int>, n: nat, bestLen: int, at: nat, ambiguous: bool, other: nat)
    requires n <= |depths|
  {
    && bestLen >= -1
    && (forall k | 0 <= k < n :: depths[k] <= bestLen)
    && (bestLen >= 0 ==> at < n && depths[at] == bestLen)
    && (ambiguous ==> bestLen >= 0 && other < n && other != at && depths[other] == bestLen)
    && (!ambiguous && bestLen >= 0 ==> forall k | 0 <= k < n && k != at :: depths[k] < bestLen)
  }

  lemma BestMore(depths: seq<int>, n: nat, bestLen: int, at: nat, ambiguous: bool, other: nat)
    requires n < |depths| && Best(depths, n, bestLen, at, ambiguous, other) && depths[n] >= -1
    ensures var len := depths[n];
      if len > bestLen then Best(depths, n + 1, len, n, false, other)
      else if len == bestLen && len >= 0 then Best(depths, n + 1, bestLen, at, true, n)
      else Best(depths, n + 1, bestLen, at, ambiguous, other)
  {
  }

  ghost function Depths(ids: seq<string>, w: World, cwd: Path): (r: seq<int>)
    ensures |r| == |ids|
  {
    seq(|ids|, k requires 0 <= k < |ids| => Depth(ids, w, cwd, k))
  }

  /** The one pass. `ids` are the listed projects in id order. */
  method Scan(ids: seq<string>, cwd: Path, w: World)
      returns (failed: bool, best: Option<Project>, bestLen: int, ambiguous: bool, details: map<string, Project>,
               ghost at: nat, ghost other: nat)
    ensures failed <==> !AllFetched(ids, w)
    ensures !failed ==> Best(Depths(ids, w, cwd), |ids|, bestLen, at, ambiguous, other)
    ensures !failed && bestLen >= 0 ==> best == Detail(ids, w, at)
    ensures !failed ==> forall k | 0 <= k < |ids| :: ids[k] in details && Some(details[ids[k]]) == Detail(ids, w, k)
  {
    failed, best, bestLen, ambiguous, details, at, other := false, None, -1, false, map[], 0, 0;
    ghost var depths := Depths(ids, w, cwd);
    var i := 0;
    while i < |ids|
      invariant i <= |ids|
      invariant forall k | 0 <= k < i :: ids[k] in details && Some(details[ids[k]]) == Detail(ids, w, k)
      invariant Best(depths, i, bestLen, at, ambiguous, other)
      invariant bestLen >= 0 ==> best == Detail(ids, w, at)
    {
      var project := Detail(ids, w, i);
      if project.None? {
        failed := true;
        return;
      }
      details := details[ids[i] := project.value];
      var len := MatchLength(ids, w, cwd, i, project.value);
      BestMore(depths, i, bestLen, at, ambiguous, other);
      if len > bestLen {
        best, bestLen, ambiguous, at := project, len, false, i;
      } else if len == bestLen && len >= 0 {
        ambiguous, other := true, i;
      }
      i := i + 1;
    }
  }

  /** Among ancestors of one directory, greatest length and greatest depth agree. */
  lemma LongestIsDeepest(ids: seq<string>, w: World, cwd: Path, at: nat)
    requires at < |ids| && Depth(ids, w, cwd, at) >= 0
    requires forall k | 0 <= k < |ids| :: Depth(ids, w, cwd, k) <= Depth(ids, w, cwd, at)
    ensures forall k | 0 <= k < |ids| :: Deepest(ids, w, cwd, k) <==> Depth(ids, w, cwd, k) == Depth(ids, w, cwd, at)
  {
    forall k | 0 <= k < |ids|
      ensures Deepest(ids, w, cwd, k) <==> Depth(ids, w, cwd, k) == Depth(ids, w, cwd, at)
    {
      forall j | 0 <= j < |ids| && Ancestor(ids, w, cwd, j).Some? && Ancestor(ids, w, cwd, k).Some?
        ensures Depth(ids, w, cwd, j) <= Depth(ids, w, cwd, k)
           <==> Ancestor(ids, w, cwd, j).value <= Ancestor(ids, w, cwd, k).value
      {
        AncestorsByLength(Ancestor(ids, w, cwd, j).value, Ancestor(ids, w, cwd, k).value, cwd);
      }
    }
  }

  lemma NoDepth(ids: seq<string>, w: World, cwd: Path)
    ensures NoAncestor(ids, w, cwd) <==> forall k | 0 <= k < |ids| :: Depth(ids, w, cwd, k) <= -1
  {
    assert forall k | 0 <= k < |ids| :: Ancestor(ids, w, cwd, k).None? <==> Depth(ids, w, cwd, k) <= -1;
  }

  method ResolveProject(ids: seq<string>, cwd: Path, w: World) returns (answer: Answer)
    ensures answer.Failed? <==> !AllFetched(ids, w)
    ensures answer.Ambiguous? <==>
            AllFetched(ids, w) && exists i, j | 0 <= i < j < |ids| :: Deepest(ids, w, cwd, i) && Deepest(ids, w, cwd, j)
    ensures answer.NotFound? ==> NoAncestor(ids, w, cwd)
    ensures answer.Found? && !NoAncestor(ids, w, cwd) ==>
            exists k | 0 <= k < |ids| ::
              && Deepest(ids, w, cwd, k) && Detail(ids, w, k) == Some(answer.project)
              && forall j | 0 <= j < |ids| && j != k :: !Deepest(ids, w, cwd, j)
    ensures AllFetched(ids, w) && NoAncestor(ids, w, cwd) ==>
            answer == if |ids| == 1 && Detail(ids, w, 0).value.id == "scratch" && Detail(ids, w, 0).value.kind == "scratch"
                      then Found(Detail(ids, w, 0).value) else NotFound
  {
    var failed, best, bestLen, ambiguous, details, at, other := Scan(ids, cwd, w);
    if failed {
      return Failed;
    }
    NoDepth(ids, w, cwd);
    assert forall k | 0 <= k < |ids| :: Depth(ids, w, cwd, k) == Depths(ids, w, cwd)[k];
    if bestLen == -1 {
      assert NoAncestor(ids, w, cwd);
      var scratch := OnlyScratchProject(ids, details);
      return if scratch.Some? then Found(scratch.value) else NotFound;
    }
    LongestIsDeepest(ids, w, cwd, at);
    assert Deepest(ids, w, cwd, at);
    if ambiguous {
      assert Deepest(ids, w, cwd, other);
      return Answer.Ambiguous;
    }
    return Found(best.value);
  }

  /** Two deepest entries share one normalised path. */
  lemma DeepestShareAPath(ids: seq<string>, w: World, cwd: Path, i: nat, j: nat)
    requires i < |ids| && j < |ids| && Deepest(ids, w, cwd, i) && Deepest(ids, w, cwd, j)
    ensures Ancestor(ids, w, cwd, i) == Ancestor(ids, w, cwd, j)
  {
    AncestorsByLength(Ancestor(ids, w, cwd, i).value, Ancestor(ids, w, cwd, j).value, cwd);
  }
}
