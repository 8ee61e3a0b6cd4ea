/** The backup manifest of the cold-start recovery: the printer, and the two verifiers
    that compare a directory tree with it. */
module BackupManifest {
  import opened Options
  import opened Text

  /** A file's contents; its length is a Go int. */
  type Bytes = s: string | |s| <= INT64_MAX

  /** A SHA-256 digest in hexadecimal. */
  type Hex = s: string | |s| == 64 && '\0' !in s && '\n' !in s
    witness seq(64, i => '0')

  type Hasher = Bytes -> Hex

  datatype Node = Regular(mode: nat, data: Bytes) | Symlink | Irregular

  /** What a walk of the backup root lists (everything but directories), and what
      looking up any other path answers: a directory, nothing, or whatever a symbolic
      link on the way leads to. */
  datatype Disk = Disk(inventory: map<string, Node>, beyond: string -> Option<Node>)

  const PRIVATE: nat := 0x180 // 0600

  const MANIFEST := "manifest.txt"

  function Lstat(d: Disk, path: string): Option<Node> {
    if path in d.inventory then Some(d.inventory[path]) else d.beyond(path)
  }

  // ----- Paths

  /** filepath.Clean on a relative path. */
  function Clean(path: string): string {
    var stack := Fold([], Split(path, '/'));
    if stack == [] then "." else Join(stack, '/')
  }

  function Fold(stack: seq<string>, parts: seq<string>): seq<string>
    decreases parts
  {
    if parts == [] then stack
    else
      Fold(if parts[0] == "" || parts[0] == "." then stack
           else if parts[0] == ".." && stack != [] && stack[|stack| - 1] != ".." then stack[..|stack| - 1]
           else stack + [parts[0]],
           parts[1..])
  }

  predicate Acceptable(path: string) {
    path != "" && path[0] != '/' && Clean(path) == path && !("../" <= path)
  }

  ghost predicate UpsFirst(stack: seq<string>) {
    forall i, j | 0 <= i < j < |stack| && stack[j] == ".." :: stack[i] == ".."
  }

  ghost predicate Segments(parts: seq<string>) {
    forall part | part in parts :: '/' !in part
  }

  lemma {:induction false} FoldKeepsShape(stack: seq<string>, parts: seq<string>)
    requires UpsFirst(stack) && Segments(stack) && Segments(parts)
    ensures UpsFirst(Fold(stack, parts)) && Segments(Fold(stack, parts))
    decreases parts
  {
    if parts != [] {
      assert parts[0] in parts && forall part | part in parts[1..] :: part in parts;
      var c := parts[0];
      if c == "" || c == "." {
        FoldKeepsShape(stack, parts[1..]);
      } else if c == ".." && stack != [] && stack[|stack| - 1] != ".." {
        FoldKeepsShape(stack[..|stack| - 1], parts[1..]);
      } else {
        FoldKeepsShape(stack + [c], parts[1..]);
      }
    }
  }

  lemma {:induction false} SplitJoin(parts: seq<string>)
    requires parts != [] && Segments(parts)
    ensures Split(Join(parts, '/'), '/') == parts
  {
    assert parts[0] in parts && forall part | part in parts[1..] :: part in parts;
    if |parts| == 1 {
      SplitWhole(parts[0], '/');
    } else {
      SplitJoin(parts[1..]);
      SplitAtSeparator(parts[0], '/', Join(parts[1..], '/'));
    }
  }

  /** A path the sealed verifier accepts never climbs: it is ".." itself, which no
      regular file is, or has no ".." anywhere. */
  lemma AcceptedPathsStayInside(path: string)
    requires Acceptable(path) && path != ".."
    ensures ".." !in Split(path, '/')
  {
    var stack := Fold([], Split(path, '/'));
    PartsLackSeparator(path, '/');
    FoldKeepsShape([], Split(path, '/'));
    if stack == [] {
      SplitWhole(".", '/');
    } else {
      SplitJoin(stack);
      assert |stack| > 1 ==> path == stack[0] + ['/'] + Join(stack[1..], '/');
      assert ".." + ['/'] == "../";
    }
  }

  /** A path component that is neither empty nor a step in place or up. */
  predicate Plain(part: string) {
    part != "" && part != "." && part != ".."
  }

  lemma {:induction false} FoldPlain(stack: seq<string>, parts: seq<string>)
    requires forall part | part in parts :: Plain(part)
    ensures Fold(stack, parts) == stack + parts
    decreases parts
  {
    if parts != [] {
      assert Plain(parts[0]) && forall part | part in parts[1..] :: part in parts;
      FoldPlain(stack + [parts[0]], parts[1..]);
      assert stack + [parts[0]] + parts[1..] == stack + parts;
    }
  }

  /** Nothing empty and no step in place is on the stack. */
  ghost predicate Trimmed(stack: seq<string>) {
    forall k | 0 <= k < |stack| :: stack[k] != "" && stack[k] != "."
  }

  lemma {:induction false} FoldTrims(stack: seq<string>, parts: seq<string>)
    requires Trimmed(stack)
    ensures Trimmed(Fold(stack, parts))
    decreases parts
  {
    if parts != [] {
      var c := parts[0];
      if c == "" || c == "." {
        FoldTrims(stack, parts[1..]);
      } else if c == ".." && stack != [] && stack[|stack| - 1] != ".." {
        FoldTrims(stack[..|stack| - 1], parts[1..]);
      } else {
        FoldTrims(stack + [c], parts[1..]);
      }
    }
  }

  lemma PlainIsAcceptable(path: string)
    requires forall part | part in Split(path, '/') :: Plain(part)
    ensures Acceptable(path)
  {
    FoldPlain([], Split(path, '/'));
    JoinSplit(path, '/');
    assert [] + Split(path, '/') == Split(path, '/');
    assert Plain(Split(path, '/')[0]);
    if "../" <= path {
      assert path == ".." + ['/'] + path[3..];
      SplitAtSeparator("..", '/', path[3..]);
    }
  }

  lemma DotsAreAcceptable()
    ensures Acceptable(".") && Acceptable("..")
  {
    SplitWhole(".", '/');
    SplitWhole("..", '/');
    assert Fold([], ["."]) == Fold([], []) && [".."][1..] == [];
    assert Fold([], [".."]) == Fold([".."], []) == [".."];
  }

  /** The sealed verifier lets a path through exactly if it is made of plain components,
      or is one of the two bare dots. */
  lemma AcceptableIff(path: string)
    ensures Acceptable(path) <==> path == "." || path == ".." || forall part | part in Split(path, '/') :: Plain(part)
  {
    DotsAreAcceptable();
    if Acceptable(path) && path != "." && path != ".." {
      AcceptedPathsStayInside(path);
      PartsLackSeparator(path, '/');
      FoldKeepsShape([], Split(path, '/'));
      FoldTrims([], Split(path, '/'));
      SplitJoin(Fold([], Split(path, '/')));
    }
    if forall part | part in Split(path, '/') :: Plain(part) {
      PlainIsAcceptable(path);
    }
  }

  // ----- Printing

  function Four(a: string, b: string, c: string, d: string): string {
    a + ['\0'] + (b + ['\0'] + (c + ['\0'] + d))
  }

  function Fields(path: string, data: Bytes, digest: Hasher): string {
    Four(path, "0600", Itoa(|data|), digest(data))
  }

  /** Indexing a map; a missing key reads as no bytes. */
  function Content(files: map<string, Bytes>, path: string): Bytes {
    if path in files then files[path] else []
  }

  function PrintedLine(path: string, files: map<string, Bytes>, digest: Hasher): string {
    Fields(path, Content(files, path), digest)
  }

  function Render(paths: seq<string>, files: map<string, Bytes>, digest: Hasher): string {
    if paths == [] then []
    else PrintedLine(paths[0], files, digest) + ['\n'] + Render(paths[1..], files, digest)
  }

  /** Some order in which ranging over a map of these keys may visit them. */
  ghost predicate Enumerates(order: seq<string>, keys: set<string>) {
    Distinct(order) && Elements(order) == keys
  }

  lemma EnumeratesMembers(order: seq<string>, keys: set<string>)
    requires Enumerates(order, keys)
    ensures forall p :: p in order <==> p in keys
  {
    assert forall p :: p in order <==> p in Elements(order);
  }

  lemma SortEnumerates(order: seq<string>, keys: set<string>)
    requires Enumerates(order, keys)
    ensures Enumerates(Sort(order), keys)
  {
    SortAscends(order);
    forall i, j | 0 <= i < j < |Sort(order)|
      ensures Sort(order)[i] != Sort(order)[j]
    {
      LessTotal(Sort(order)[i], Sort(order)[j]);
    }
  }

  lemma {:induction false} RenderSnoc(paths: seq<string>, path: string, files: map<string, Bytes>, digest: Hasher)
    ensures Render(paths + [path], files, digest) == Render(paths, files, digest) + (PrintedLine(path, files, digest) + ['\n'])
  {
    if paths == [] {
      assert paths + [path] == [path] && [path][1..] == [];
    } else {
      assert (paths + [path])[1..] == paths[1..] + [path];
      RenderSnoc(paths[1..], path, files, digest);
    }
  }

  method PrintManifest(files: map<string, Bytes>, order: seq<string>, digest: Hasher) returns (manifest: string)
    requires Enumerates(order, files.Keys)
    ensures manifest == Render(Sort(order), files, digest)
  {
    var paths := Sort(order);
    manifest := [];
    var i := 0;
    while i < |paths|
      invariant i <= |paths|
      invariant manifest == Render(paths[..i], files, digest)
    {
      RenderSnoc(paths[..i], paths[i], files, digest);
      assert paths[..i + 1] == paths[..i] + [paths[i]];
      manifest := manifest + (PrintedLine(paths[i], files, digest) + ['\n']);
      i := i + 1;
    }
    assert paths[..|paths|] == paths;
  }

  /** The manifest is a function of the file map: the order the map is ranged over
      leaves no trace. */
  lemma ManifestIsCanonical(files: map<string, Bytes>, a: seq<string>, b: seq<string>)
    requires Enumerates(a, files.Keys) && Enumerates(b, files.Keys)
    ensures Sort(a) == Sort(b)
  {
    SortAscends(a);
    SortAscends(b);
    AscendingUnique(Sort(a), Sort(b));
  }

  // ----- The sealed verifier

  datatype Entry = Entry(path: string, size: int, digest: string)

  function Parse(line: string): Option<Entry> {
    var fields := Split(line, '\0');
    if |fields| != 4 || fields[1] != "0600" || |fields[3]| != 64 then None
    else if !Acceptable(fields[0]) then None
    else
      var size := ParseInt(fields[2]);
      if size == None || size.value < 0 then None else Some(Entry(fields[0], size.value, fields[3]))
  }

  predicate Intact(d: Disk, e: Entry, digest: Hasher) {
    var node := Lstat(d, e.path);
    node.Some? && node.value.Regular? && |node.value.data| == e.size
    && digest(node.value.data) == e.digest && node.value.mode == PRIVATE
  }

  /** The paths the remaining lines add to those expected, or None when one fails. */
  function Scan(d: Disk, lines: seq<string>, expected: set<string>, digest: Hasher): Option<set<string>>
    decreases lines
  {
    if lines == [] then Some(expected)
    else if lines[0] == [] then Scan(d, lines[1..], expected, digest)
    else
      match Parse(lines[0])
      case None => None
      case Some(e) =>
        if !Intact(d, e, digest) || e.path in expected then None
        else Scan(d, lines[1..], expected + {e.path}, digest)
  }

  lemma {:induction false} ScanKeeps(d: Disk, lines: seq<string>, expected: set<string>, digest: Hasher)
    ensures var r := Scan(d, lines, expected, digest); r.Some? ==> expected <= r.value
    decreases lines
  {
    if lines != [] {
      ScanKeeps(d, lines[1..], expected, digest);
      var e := Parse(lines[0]);
      if e.Some? {
        ScanKeeps(d, lines[1..], expected + {e.value.path}, digest);
      }
    }
  }

  predicate HoldsExactly(d: Disk, expected: set<string>) {
    d.inventory.Keys == expected && forall p | p in d.inventory :: d.inventory[p].Regular?
  }

  predicate Sealed(d: Disk, manifest: string, digest: Hasher): (r: bool)
    ensures r ==> MANIFEST in d.inventory && d.inventory[MANIFEST].Regular?
  {
    ScanKeeps(d, Split(manifest, '\n'), {MANIFEST}, digest);
    var expected := Scan(d, Split(manifest, '\n'), {MANIFEST}, digest);
    expected.Some? && HoldsExactly(d, expected.value)
  }

  // ----- What the sealed verifier asks of any manifest at all

  /** The text of a size column that reads as this size. */
  predicate Sizes(text: string, size: int) {
    '\0' !in text && ParseInt(text) == Some(size) && size >= 0
  }

  /** A line is accepted exactly when it is four columns: an acceptable path, the one
      mode, a size and 64 characters. */
  lemma ParseAccepts(line: string, e: Entry)
    ensures Parse(line) == Some(e) <==>
            && Acceptable(e.path) && '\0' !in e.path && '\0' !in e.digest && |e.digest| == 64
            && exists size :: Sizes(size, e.size) && line == Four(e.path, "0600", size, e.digest)
  {
    if Parse(line) == Some(e) {
      var fields := Split(line, '\0');
      PartsLackSeparator(line, '\0');
      JoinSplit(line, '\0');
      JoinFour(fields);
      assert fields[0] in fields && fields[2] in fields && fields[3] in fields;
      assert Sizes(fields[2], e.size) && line == Four(e.path, "0600", fields[2], e.digest);
    }
    if size :| Sizes(size, e.size) && line == Four(e.path, "0600", size, e.digest) && '\0' !in e.path && '\0' !in e.digest {
      FourFields(e.path, "0600", size, e.digest);
    }
  }

  lemma JoinFour(fields: seq<string>)
    requires |fields| == 4
    ensures Join(fields, '\0') == Four(fields[0], fields[1], fields[2], fields[3])
  {
    assert fields[1..][1..] == fields[2..] && fields[2..][1..] == [fields[3]];
    assert Join(fields[2..], '\0') == fields[2] + ['\0'] + fields[3];
    assert Join(fields[1..], '\0') == fields[1] + ['\0'] + Join(fields[2..], '\0');
  }

  function Listed(lines: seq<string>): seq<Option<Entry>> {
    if lines == [] then []
    else (if lines[0] == [] then [] else [Parse(lines[0])]) + Listed(lines[1..])
  }

  /** Every entry parses, is intact on disk, and names a path of its own. */
  ghost predicate Sound(d: Disk, es: seq<Option<Entry>>, expected: set<string>, digest: Hasher) {
    && (forall i | 0 <= i < |es| :: es[i].Some? && Intact(d, es[i].value, digest) && es[i].value.path !in expected)
    && (forall i, j | 0 <= i < j < |es| :: es[i].value.path != es[j].value.path)
  }

  function Paths(es: seq<Option<Entry>>): set<string> {
    set e | e in es && e.Some? :: e.value.path
  }

  lemma SoundCons(d: Disk, es: seq<Option<Entry>>, expected: set<string>, digest: Hasher)
    requires es != [] && es[0].Some?
    ensures var e := es[0].value;
      && (Sound(d, es, expected, digest) <==>
            Intact(d, e, digest) && e.path !in expected && Sound(d, es[1..], expected + {e.path}, digest))
      && Paths(es) == {e.path} + Paths(es[1..])
  {
    var e, rest := es[0].value, es[1..];
    assert forall i | 0 <= i < |rest| :: rest[i] == es[i + 1];
    assert forall i | 0 < i < |es| :: es[i] == rest[i - 1];
    assert forall x | x in es :: x == es[0] || x in rest;
  }

  lemma {:induction false} ScanMeans(d: Disk, lines: seq<string>, expected: set<string>, digest: Hasher)
    ensures Scan(d, lines, expected, digest)
      == if Sound(d, Listed(lines), expected, digest) then Some(expected + Paths(Listed(lines))) else None
    decreases lines
  {
    var es := Listed(lines);
    if lines == [] {
      assert expected + Paths(es) == expected;
    } else if lines[0] == [] {
      assert es == Listed(lines[1..]);
      ScanMeans(d, lines[1..], expected, digest);
    } else if Parse(lines[0]).Some? {
      var e := Parse(lines[0]).value;
      assert es[0] == Some(e) && es[1..] == Listed(lines[1..]);
      SoundCons(d, es, expected, digest);
      ScanMeans(d, lines[1..], expected + {e.path}, digest);
      assert expected + {e.path} + Paths(es[1..]) == expected + Paths(es);
    } else {
      assert es[0].None?;
    }
  }

  /** On any manifest, printed here or not: every non-empty line must be an entry, with
      a path of its own and its file intact, and the tree must hold those paths, the
      manifest, and nothing else. */
  lemma SealedMeans(d: Disk, manifest: string, digest: Hasher)
    ensures var es := Listed(Split(manifest, '\n'));
      Sealed(d, manifest, digest) <==>
      Sound(d, es, {MANIFEST}, digest) && HoldsExactly(d, {MANIFEST} + Paths(es))
  {
    ScanMeans(d, Split(manifest, '\n'), {MANIFEST}, digest);
  }

  lemma FullSubset(a: set<string>, b: set<string>)
    requires a <= b
    ensures |a| == |b| <==> a == b
  {
    assert b == a + (b - a);
    assert |b| == |a| + |b - a|;
  }

  /** Walk the root: everything met must be an expected regular file, and nothing
      expected may be missing. */
  method WalkInventory(d: Disk, listing: seq<string>, expected: set<string>) returns (ok: bool)
    requires Enumerates(listing, d.inventory.Keys)
    ensures ok == HoldsExactly(d, expected)
  {
    EnumeratesMembers(listing, d.inventory.Keys);
    var seen: set<string> := {};
    var i := 0;
    while i < |listing|
      invariant i <= |listing|
      invariant forall k | 0 <= k < i :: listing[k] in seen
      invariant seen <= expected && seen <= d.inventory.Keys
      invariant forall p | p in seen :: d.inventory[p].Regular?
    {
      var path := listing[i];
      assert path in listing;
      if path !in expected || !d.inventory[path].Regular? {
        return false;
      }
      seen := seen + {path};
      i := i + 1;
    }
    assert seen == d.inventory.Keys;
    FullSubset(seen, expected);
    return |seen| == |expected|;
  }

  method VerifySealedBackup(d: Disk, manifest: string, listing: seq<string>, digest: Hasher) returns (ok: bool)
    requires Enumerates(listing, d.inventory.Keys)
    ensures ok == Sealed(d, manifest, digest)
  {
    var expected := {MANIFEST};
    var lines := Split(manifest, '\n');
    var i := 0;
    while i < |lines|
      invariant i <= |lines|
      invariant Scan(d, lines, {MANIFEST}, digest) == Scan(d, lines[i..], expected, digest)
    {
      var line := lines[i];
      assert lines[i..][0] == line && lines[i..][1..] == lines[i + 1..];
      i := i + 1;
      if |line| == 0 {
        continue;
      }
      var entry := Parse(line);
      if entry.None? {
        return false;
      }
      if !Intact(d, entry.value, digest) || entry.value.path in expected {
        return false;
      }
      expected := expected + {entry.value.path};
    }
    ok := WalkInventory(d, listing, expected);
  }

  // ----- The full verifier

  predicate Bytewise(d: Disk, files: map<string, Bytes>, manifest: string) {
    && HoldsExactly(d, files.Keys + {MANIFEST})
    && (forall p | p in files :: d.inventory[p] == Regular(PRIVATE, files[p]))
    && d.inventory[MANIFEST].data == manifest
  }

  /** `order` is how the file map happens to be ranged over. */
  method VerifyBackup(d: Disk, files: map<string, Bytes>, manifest: string, listing: seq<string>, order: seq<string>)
      returns (ok: bool)
    requires Enumerates(listing, d.inventory.Keys) && Enumerates(order, files.Keys)
    ensures ok == Bytewise(d, files, manifest)
  {
    EnumeratesMembers(order, files.Keys);
    var complete := WalkInventory(d, listing, files.Keys + {MANIFEST});
    if !complete {
      return false;
    }
    var i := 0;
    while i < |order|
      invariant i <= |order|
      invariant forall p | p in order[..i] :: d.inventory[p] == Regular(PRIVATE, files[p])
    {
      var node := Lstat(d, order[i]);
      if !(node.Some? && node.value.Regular? && node.value.mode == PRIVATE) {
        assert d.inventory[order[i]] != Regular(PRIVATE, files[order[i]]);
        return false;
      }
      if node.value.data != files[order[i]] {
        return false;
      }
      assert order[..i + 1] == order[..i] + [order[i]];
      i := i + 1;
    }
    assert order[..|order|] == order;
    var got := Lstat(d, MANIFEST);
    return got.Some? && got.value.Regular? && got.value.data == manifest;
  }

  // ----- Printer and verifiers agree

  predicate Printable(path: string) {
    Acceptable(path) && '\0' !in path && '\n' !in path && path != MANIFEST
  }

  function EntryOf(path: string, data: Bytes, digest: Hasher): Entry {
    Entry(path, |data|, digest(data))
  }

  lemma FourFields(a: string, b: string, c: string, d: string)
    requires '\0' !in a && '\0' !in b && '\0' !in c && '\0' !in d
    ensures Split(Four(a, b, c, d), '\0') == [a, b, c, d]
  {
    SplitAtSeparator(a, '\0', b + ['\0'] + (c + ['\0'] + d));
    SplitAtSeparator(b, '\0', c + ['\0'] + d);
    SplitAtSeparator(c, '\0', d);
    SplitWhole(d, '\0');
    assert [a] + ([b] + ([c] + [d])) == [a, b, c, d];
  }

  lemma FieldsSplit(path: string, data: Bytes, digest: Hasher)
    requires '\0' !in path
    ensures Split(Fields(path, data, digest), '\0') == [path, "0600", Itoa(|data|), digest(data)]
  {
    ItoaIsDigits(|data|, '\0');
    FourFields(path, "0600", Itoa(|data|), digest(data));
  }

  lemma ItoaIsDigits(n: nat, c: char)
    requires !IsDigit(c)
    ensures c !in Itoa(n)
  {
    ItoaDigits(n);
  }

  lemma LineIsOne(path: string, data: Bytes, digest: Hasher)
    requires Printable(path)
    ensures Fields(path, data, digest) != [] && '\n' !in Fields(path, data, digest)
  {
    ItoaIsDigits(|data|, '\n');
    assert '\n' !in "0600" + ['\0'] + (Itoa(|data|) + ['\0'] + digest(data));
  }

  /** A printed line reads back as the file it was printed from. */
  lemma LineRoundTrip(path: string, data: Bytes, digest: Hasher)
    requires Printable(path)
    ensures Parse(Fields(path, data, digest)) == Some(EntryOf(path, data, digest))
  {
    FieldsSplit(path, data, digest);
    ParseItoa(|data|);
  }

  function Wanted(path: string, files: map<string, Bytes>, digest: Hasher): Entry {
    EntryOf(path, Content(files, path), digest)
  }

  predicate AllIntact(d: Disk, paths: seq<string>, files: map<string, Bytes>, digest: Hasher) {
    paths == [] || (Intact(d, Wanted(paths[0], files, digest), digest) && AllIntact(d, paths[1..], files, digest))
  }

  lemma {:induction false} AllIntactMeans(d: Disk, paths: seq<string>, files: map<string, Bytes>, digest: Hasher)
    ensures AllIntact(d, paths, files, digest) <==>
            forall p | p in paths :: Intact(d, Wanted(p, files, digest), digest)
  {
    if paths != [] {
      AllIntactMeans(d, paths[1..], files, digest);
      assert forall p | p in paths :: p == paths[0] || p in paths[1..];
      assert forall p | p in paths[1..] :: p in paths;
    }
  }

  lemma ScanPrinted(d: Disk, path: string, data: Bytes, lines: seq<string>, expected: set<string>, digest: Hasher)
    requires Printable(path) && path !in expected
    ensures Scan(d, [Fields(path, data, digest)] + lines, expected, digest)
      == if Intact(d, EntryOf(path, data, digest), digest) then Scan(d, lines, expected + {path}, digest) else None
  {
    LineIsOne(path, data, digest);
    LineRoundTrip(path, data, digest);
    assert ([Fields(path, data, digest)] + lines)[1..] == lines;
  }

  lemma RenderedLines(paths: seq<string>, files: map<string, Bytes>, digest: Hasher)
    requires paths != [] && Printable(paths[0])
    ensures Split(Render(paths, files, digest), '\n')
      == [PrintedLine(paths[0], files, digest)] + Split(Render(paths[1..], files, digest), '\n')
  {
    LineIsOne(paths[0], Content(files, paths[0]), digest);
    SplitAtSeparator(PrintedLine(paths[0], files, digest), '\n', Render(paths[1..], files, digest));
  }

  predicate Scannable(paths: seq<string>, expected: set<string>)
    decreases paths
  {
    paths == []
    || (Printable(paths[0]) && paths[0] !in expected && Scannable(paths[1..], expected + {paths[0]}))
  }

  lemma {:induction false} DistinctScannable(paths: seq<string>, expected: set<string>)
    requires forall k | 0 <= k < |paths| :: Printable(paths[k]) && paths[k] !in expected
    requires Distinct(paths)
    ensures Scannable(paths, expected)
    decreases paths
  {
    if paths != [] {
      var rest := paths[1..];
      assert forall k | 0 <= k < |rest| :: rest[k] == paths[k + 1];
      DistinctScannable(rest, expected + {paths[0]});
    }
  }

  lemma {:induction false} ScanRendered(d: Disk, paths: seq<string>, files: map<string, Bytes>, expected: set<string>, digest: Hasher)
    requires Scannable(paths, expected)
    ensures Scan(d, Split(Render(paths, files, digest), '\n'), expected, digest)
      == if AllIntact(d, paths, files, digest) then Some(expected + Elements(paths)) else None
    decreases paths
  {
    if paths == [] {
      assert Scan(d, [[]], expected, digest) == Some(expected);
      assert expected + Elements(paths) == expected;
    } else {
      var path, rest := paths[0], paths[1..];
      RenderedLines(paths, files, digest);
      ScanPrinted(d, path, Content(files, path), Split(Render(rest, files, digest), '\n'), expected, digest);
      ScanRendered(d, rest, files, expected + {path}, digest);
      assert expected + {path} + Elements(rest) == expected + Elements(paths);
    }
  }

  /** Exactly the trees the sealed verifier accepts for a printed manifest: the listed
      files, regular, private, of the printed size and digest, a regular manifest
      file, and nothing else. */
  ghost predicate SealedTree(d: Disk, files: map<string, Bytes>, digest: Hasher) {
    && HoldsExactly(d, files.Keys + {MANIFEST})
    && (forall p | p in files ::
          && d.inventory[p].mode == PRIVATE
          && |d.inventory[p].data| == |files[p]| && digest(d.inventory[p].data) == digest(files[p]))
  }

  ghost predicate AllPrintable(files: map<string, Bytes>) {
    forall p | p in files :: Printable(p)
  }

  lemma SealedScans(d: Disk, files: map<string, Bytes>, order: seq<string>, digest: Hasher)
    requires Enumerates(order, files.Keys) && AllPrintable(files)
    ensures Sealed(d, Render(Sort(order), files, digest), digest) <==>
            HoldsExactly(d, files.Keys + {MANIFEST})
            && forall p | p in files :: Intact(d, Wanted(p, files, digest), digest)
  {
    var paths := Sort(order);
    SortEnumerates(order, files.Keys);
    EnumeratesMembers(paths, files.Keys);
    forall k | 0 <= k < |paths|
      ensures Printable(paths[k]) && paths[k] !in {MANIFEST}
    {
      assert paths[k] in paths;
      assert Printable(paths[k]);
    }
    DistinctScannable(paths, {MANIFEST});
    ScanRendered(d, paths, files, {MANIFEST}, digest);
    AllIntactMeans(d, paths, files, digest);
    assert {MANIFEST} + Elements(paths) == files.Keys + {MANIFEST};
  }

  lemma SealedAcceptsExactly(d: Disk, files: map<string, Bytes>, order: seq<string>, digest: Hasher)
    requires Enumerates(order, files.Keys) && AllPrintable(files)
    ensures Sealed(d, Render(Sort(order), files, digest), digest) <==> SealedTree(d, files, digest)
  {
    SealedScans(d, files, order, digest);
  }

  /** No stored file differs from the captured one under the same size and digest. */
  ghost predicate CollisionFree(d: Disk, files: map<string, Bytes>, digest: Hasher) {
    forall p | p in files && p in d.inventory && d.inventory[p].Regular? ::
      |d.inventory[p].data| == |files[p]| && digest(d.inventory[p].data) == digest(files[p]) ==>
        d.inventory[p].data == files[p]
  }

  /** Unless a digest collides on the files at hand, the full verifier accepts exactly
      what the sealed one does with the manifest's own bytes intact. */
  lemma VerifiersAgree(d: Disk, files: map<string, Bytes>, order: seq<string>, digest: Hasher)
    requires Enumerates(order, files.Keys) && AllPrintable(files)
    requires CollisionFree(d, files, digest)
    ensures var manifest := Render(Sort(order), files, digest);
      Bytewise(d, files, manifest) <==>
      Sealed(d, manifest, digest) && d.inventory[MANIFEST].data == manifest
  {
    SealedAcceptsExactly(d, files, order, digest);
  }

  /** Without any assumption on the digest one half remains. */
  lemma BytewiseIsSealed(d: Disk, files: map<string, Bytes>, order: seq<string>, digest: Hasher)
    requires Enumerates(order, files.Keys) && AllPrintable(files)
    ensures var manifest := Render(Sort(order), files, digest);
      Bytewise(d, files, manifest) ==> Sealed(d, manifest, digest)
  {
    SealedAcceptsExactly(d, files, order, digest);
  }

  /** Equal manifests mean the same paths with the same sizes and digests. */
  lemma ManifestDetermines(a: map<string, Bytes>, b: map<string, Bytes>, forA: seq<string>, forB: seq<string>, digest: Hasher)
    requires Enumerates(forA, a.Keys) && AllPrintable(a) && Enumerates(forB, b.Keys) && AllPrintable(b)
    requires Render(Sort(forA), a, digest) == Render(Sort(forB), b, digest)
    ensures a.Keys == b.Keys
    ensures forall p | p in a :: |a[p]| == |b[p]| && digest(a[p]) == digest(b[p])
  {
    var d := Disk(map p | p in a.Keys + {MANIFEST} :: Regular(PRIVATE, Content(a, p)), p => None);
    assert !Printable(MANIFEST);
    SealedAcceptsExactly(d, a, forA, digest);
    SealedAcceptsExactly(d, b, forB, digest);
    assert d.inventory.Keys == a.Keys + {MANIFEST};
    assert SealedTree(d, b, digest);
    assert MANIFEST !in a.Keys && MANIFEST !in b.Keys;
    assert a.Keys == d.inventory.Keys - {MANIFEST} == b.Keys;
  }

  /** The one path is a directory on the way to the other. */
  predicate Nests(outer: string, inner: string) {
    outer + "/" <= inner
  }

  /** In components: those of the outer path come first in the inner one, and more
      follow. */
  lemma NestsIff(outer: string, inner: string)
    ensures var a, b := Split(outer, '/'), Split(inner, '/');
      Nests(outer, inner) <==> |a| < |b| && b[..|a|] == a
  {
    var a, b := Split(outer, '/'), Split(inner, '/');
    if Nests(outer, inner) {
      var rest := inner[|outer| + 1..];
      assert inner == outer + ['/'] + rest;
      SplitConcat(outer, '/', rest);
    }
    if |a| < |b| && b[..|a|] == a {
      JoinSplit(outer, '/');
      JoinSplit(inner, '/');
      JoinConcat(a, '/', b[|a|..]);
      assert b == a + b[|a|..];
    }
  }

  /** No path is both a file and a directory of another. */
  ghost predicate Flat(paths: set<string>) {
    forall p, q | p in paths && q in paths :: !Nests(p, q)
  }

  ghost predicate NoFault(paths: set<string>, fault: string -> bool) {
    forall p | p in paths :: !fault(p)
  }

  /** Make the directories above a path and write the file: an error when a file stands
      where a directory is needed, when a directory stands at the path, or when the
      system says so (`fault`). */
  method WriteFile(inventory: map<string, Node>, path: string, data: Bytes, fault: string -> bool)
      returns (ok: bool, written: map<string, Node>)
    ensures ok <==> !fault(path) && forall q | q in inventory :: !Nests(q, path) && !Nests(path, q)
    ensures written == if ok then inventory[path := Regular(PRIVATE, data)] else inventory
  {
    ok, written := !fault(path) && forall q | q in inventory :: !Nests(q, path) && !Nests(path, q), inventory;
    if ok {
      written := inventory[path := Regular(PRIVATE, data)];
    }
  }

  method WriteFiles(files: map<string, Bytes>, order: seq<string>, fault: string -> bool)
      returns (ok: bool, inventory: map<string, Node>)
    requires Enumerates(order, files.Keys)
    ensures ok <==> Flat(files.Keys) && NoFault(files.Keys, fault)
    ensures ok ==> inventory.Keys == files.Keys
    ensures ok ==> forall p | p in files :: inventory[p] == Regular(PRIVATE, files[p])
  {
    EnumeratesMembers(order, files.Keys);
    ok, inventory := true, map[];
    var i := 0;
    while i < |order|
      invariant i <= |order|
      invariant inventory.Keys == Elements(order[..i]) <= files.Keys
      invariant Flat(inventory.Keys) && NoFault(inventory.Keys, fault)
      invariant forall p | p in inventory :: inventory[p] == Regular(PRIVATE, Content(files, p))
    {
      var path := order[i];
      assert path in order;
      ok, inventory := WriteFile(inventory, path, Content(files, path), fault);
      if !ok {
        return;
      }
      assert !Nests(path, path);
      assert order[..i + 1] == order[..i] + [path];
      i := i + 1;
    }
    assert order[..|order|] == order;
  }

  /** The files first, the manifest on top of them. */
  method WriteTree(files: map<string, Bytes>, order: seq<string>, manifest: Bytes, fault: string -> bool)
      returns (ok: bool, d: Disk)
    requires Enumerates(order, files.Keys) && AllPrintable(files)
    ensures ok <==> Flat(files.Keys + {MANIFEST}) && NoFault(files.Keys + {MANIFEST}, fault)
    ensures ok ==> Bytewise(d, files, manifest)
  {
    var below: map<string, Node>;
    ok, below := WriteFiles(files, order, fault);
    FlatWith(files.Keys, MANIFEST);
    d := Disk(below, p => None);
    if ok {
      var tree: map<string, Node>;
      ok, tree := WriteFile(below, MANIFEST, manifest, fault);
      d := Disk(tree, p => None);
      if ok {
        ManifestOnTop(below, files, manifest, d);
      }
    }
  }

  /** Print, write every file and the manifest into an empty directory. That succeeds
      exactly when no path is a directory of another and no write fails, and then what
      was written passes both verifiers. `names` and `order` are two traversals of the
      file map. */
  method PrepareBackup(files: map<string, Bytes>, names: seq<string>, order: seq<string>, digest: Hasher, fault: string -> bool)
      returns (ok: bool, manifest: string, d: Disk)
    requires Enumerates(names, files.Keys) && Enumerates(order, files.Keys) && AllPrintable(files)
    requires |Render(Sort(names), files, digest)| <= INT64_MAX
    ensures ok <==> Flat(files.Keys + {MANIFEST}) && NoFault(files.Keys + {MANIFEST}, fault)
    ensures ok ==> Bytewise(d, files, manifest) && Sealed(d, manifest, digest)
  {
    manifest := PrintManifest(files, names, digest);
    ok, d := WriteTree(files, order, manifest, fault);
    BytewiseIsSealed(d, files, names, digest);
  }

  lemma FlatWith(paths: set<string>, path: string)
    ensures Flat(paths + {path}) <==> Flat(paths) && forall q | q in paths :: !Nests(q, path) && !Nests(path, q)
  {
    assert !Nests(path, path);
  }

  lemma ManifestOnTop(inventory: map<string, Node>, files: map<string, Bytes>, manifest: Bytes, d: Disk)
    requires inventory.Keys == files.Keys && AllPrintable(files)
    requires forall p | p in files :: inventory[p] == Regular(PRIVATE, files[p])
    requires d.inventory == inventory[MANIFEST := Regular(PRIVATE, manifest)]
    ensures Bytewise(d, files, manifest)
  {
    assert MANIFEST !in files by {
      assert !Printable(MANIFEST);
    }
    assert d.inventory.Keys == files.Keys + {MANIFEST};
  }
}
