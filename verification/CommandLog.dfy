/** The fresh worker's command log: every command string in it is collected, in
    whatever order the maps happen to be ranged over, and exactly one guarded push
    must be among them. */
module CommandLog {
  import opened Options

  /** A parsed JSON value; an object is a map, so ranging over it has no fixed order. */
  datatype Value = Text(s: string) | Other | List(items: seq<Value>) | Fields(members: map<string, Value>)

  /** The library routines the check calls, left open: case folding, blankness after
      trimming, and decoding one line. */
  datatype Library = Library(lower: string -> string, blank: string -> bool, decode: string -> Option<Value>)

  datatype Recovery = Recovery(sourceBranch: string, oldHead: string)

  // ----- Which commands a value holds

  function Own(key: string, child: Value, lib: Library): multiset<string> {
    if key == "command" && child.Text? && !lib.blank(child.s) then multiset{child.s} else multiset{}
  }

  /** Every command string at any depth, with repetitions. */
  ghost function Commands(v: Value, lib: Library): multiset<string>
    decreases v, 2
  {
    match v
    case List(items) => OfItems(v, |items|, lib)
    case Fields(members) => OfMembers(v, members.Keys, lib)
    case _ => multiset{}
  }

  ghost function OfItems(v: Value, n: nat, lib: Library): multiset<string>
    requires v.List? && n <= |v.items|
    decreases v, 1, n
  {
    if n == 0 then multiset{} else OfItems(v, n - 1, lib) + Commands(v.items[n - 1], lib)
  }

  ghost function OfMember(v: Value, key: string, lib: Library): multiset<string>
    requires v.Fields? && key in v.members
    decreases v, 0
  {
    Own(key, v.members[key], lib) + Commands(v.members[key], lib)
  }

  ghost function OfMembers(v: Value, keys: set<string>, lib: Library): multiset<string>
    requires v.Fields? && keys <= v.members.Keys
    decreases v, 1, keys
  {
    if keys == {} then multiset{}
    else
      var key :| key in keys;
      OfMember(v, key, lib) + OfMembers(v, keys - {key}, lib)
  }

  /** The members may be taken out in any order. */
  lemma {:induction false} AnyMemberFirst(v: Value, keys: set<string>, key: string, lib: Library)
    requires v.Fields? && keys <= v.members.Keys && key in keys
    ensures OfMembers(v, keys, lib) == OfMember(v, key, lib) + OfMembers(v, keys - {key}, lib)
    decreases keys
  {
    var first :| first in keys && OfMembers(v, keys, lib) == OfMember(v, first, lib) + OfMembers(v, keys - {first}, lib);
    if first != key {
      AnyMemberFirst(v, keys - {first}, key, lib);
      AnyMemberFirst(v, keys - {key}, first, lib);
      assert keys - {first} - {key} == keys - {key} - {first};
    }
  }

  /** The command sits somewhere in the value: as the non-blank text under a `command`
      key, at any depth. */
  ghost predicate Holds(v: Value, c: string, lib: Library)
    decreases v
  {
    match v
    case List(items) => exists k | 0 <= k < |items| :: Holds(items[k], c, lib)
    case Fields(members) =>
      || ("command" in members && members["command"] == Text(c) && !lib.blank(c))
      || exists key | key in members :: Holds(members[key], c, lib)
    case _ => false
  }

  lemma {:induction false} ItemsHold(v: Value, n: nat, c: string, lib: Library)
    requires v.List? && n <= |v.items|
    ensures c in OfItems(v, n, lib) <==> exists k | 0 <= k < n :: Holds(v.items[k], c, lib)
    decreases v, 0, n
  {
    if n > 0 {
      ItemsHold(v, n - 1, c, lib);
      CommandsAre(v.items[n - 1], c, lib);
    }
  }

  ghost predicate MemberHolds(v: Value, key: string, c: string, lib: Library)
    requires v.Fields? && key in v.members
  {
    (key == "command" && v.members[key] == Text(c) && !lib.blank(c)) || Holds(v.members[key], c, lib)
  }

  lemma {:induction false} MembersHold(v: Value, keys: set<string>, c: string, lib: Library)
    requires v.Fields? && keys <= v.members.Keys
    ensures c in OfMembers(v, keys, lib) <==> exists key | key in keys :: MemberHolds(v, key, c, lib)
    decreases v, 0, keys
  {
    if keys != {} {
      var first :| first in keys && OfMembers(v, keys, lib) == OfMember(v, first, lib) + OfMembers(v, keys - {first}, lib);
      MembersHold(v, keys - {first}, c, lib);
      CommandsAre(v.members[first], c, lib);
      assert c in OfMember(v, first, lib) <==> MemberHolds(v, first, c, lib);
      if key :| key in keys && MemberHolds(v, key, c, lib) {
        assert key == first || key in keys - {first};
      }
    }
  }

  /** What is collected is what sits somewhere in the value. */
  lemma {:induction false} CommandsAre(v: Value, c: string, lib: Library)
    ensures c in Commands(v, lib) <==> Holds(v, c, lib)
    decreases v, 1
  {
    match v
    case List(items) => ItemsHold(v, |items|, c, lib);
    case Fields(members) =>
      MembersHold(v, members.Keys, c, lib);
      if Holds(v, c, lib) && exists key | key in members :: Holds(members[key], c, lib) {
        var key :| key in members && Holds(members[key], c, lib);
        assert MemberHolds(v, key, c, lib);
      }
      assert "command" in members ==> (MemberHolds(v, "command", c, lib) <==>
        (members["command"] == Text(c) && !lib.blank(c)) || Holds(members["command"], c, lib));
    case _ =>
  }

  /** And each as often as it sits there: one member, one command. */
  lemma LoneCommand(c: string, lib: Library)
    ensures Commands(Fields(map["command" := Text(c)]), lib) == if lib.blank(c) then multiset{} else multiset{c}
  {
    var v := Fields(map["command" := Text(c)]);
    assert v.members.Keys == {"command"};
    AnyMemberFirst(v, {"command"}, "command", lib);
    assert {"command"} - {"command"} == {};
  }

  method Collect(v: Value, commands: seq<string>, lib: Library) returns (all: seq<string>)
    ensures multiset(all) == multiset(commands) + Commands(v, lib)
    decreases v, 2
  {
    match v {
      case Fields(_) => all := CollectFields(v, commands, lib);
      case List(_) => all := CollectItems(v, commands, lib);
      case _ => all := commands;
    }
  }

  method CollectFields(v: Value, commands: seq<string>, lib: Library) returns (all: seq<string>)
    requires v.Fields?
    ensures multiset(all) == multiset(commands) + OfMembers(v, v.members.Keys, lib)
    decreases v, 1
  {
    all := commands;
    var left := v.members.Keys;
    while left != {}
      invariant left <= v.members.Keys
      invariant multiset(all) + OfMembers(v, left, lib) == multiset(commands) + OfMembers(v, v.members.Keys, lib)
      decreases left
    {
      var key :| key in left;
      AnyMemberFirst(v, left, key, lib);
      all := CollectMember(v, key, all, lib);
      left := left - {key};
    }
  }

  method CollectMember(v: Value, key: string, commands: seq<string>, lib: Library) returns (all: seq<string>)
    requires v.Fields? && key in v.members
    ensures multiset(all) == multiset(commands) + OfMember(v, key, lib)
    decreases v, 0
  {
    all := commands;
    var child := v.members[key];
    if key == "command" && child.Text? && !lib.blank(child.s) {
      all := all + [child.s];
    }
    all := Collect(child, all, lib);
  }

  method CollectItems(v: Value, commands: seq<string>, lib: Library) returns (all: seq<string>)
    requires v.List?
    ensures multiset(all) == multiset(commands) + OfItems(v, |v.items|, lib)
    decreases v, 0
  {
    all := commands;
    var i := 0;
    while i < |v.items|
      invariant i <= |v.items|
      invariant multiset(all) == multiset(commands) + OfItems(v, i, lib)
    {
      all := Collect(v.items[i], all, lib);
      i := i + 1;
    }
  }

  ghost function LineCommands(line: string, lib: Library): multiset<string> {
    var value := lib.decode(line);
    if value.Some? then Commands(value.value, lib) else multiset{}
  }

  ghost function LogCommands(lines: seq<string>, lib: Library): multiset<string> {
    if lines == [] then multiset{}
    else LogCommands(lines[..|lines| - 1], lib) + LineCommands(lines[|lines| - 1], lib)
  }

  // ----- The verdict

  predicate Contains(s: string, part: string) {
    part <= s || (s != [] && Contains(s[1..], part))
  }

  /** strings.Count: occurrences that do not overlap. */
  function Occurrences(s: string, part: string): nat
    requires part != []
  {
    if s == [] then 0
    else if part <= s then 1 + Occurrences(s[|part|..], part)
    else Occurrences(s[1..], part)
  }

  predicate OccursAt(s: string, part: string, i: nat) {
    i + |part| <= |s| && s[i..i + |part|] == part
  }

  lemma Shifted(s: string, part: string, n: nat, i: nat)
    requires n <= |s|
    ensures OccursAt(s[n..], part, i) <==> OccursAt(s, part, n + i)
  {
    if n + i + |part| <= |s| {
      assert s[n..][i..i + |part|] == s[n + i..n + i + |part|];
    }
  }

  lemma {:induction false} FoundAt(s: string, part: string) returns (i: nat)
    requires Contains(s, part)
    ensures OccursAt(s, part, i)
  {
    if part <= s {
      i := 0;
    } else {
      var k := FoundAt(s[1..], part);
      Shifted(s, part, 1, k);
      i := k + 1;
    }
  }

  lemma {:induction false} FindsIt(s: string, part: string, i: nat)
    requires OccursAt(s, part, i)
    ensures Contains(s, part)
  {
    if i > 0 && !(part <= s) {
      Shifted(s, part, 1, i - 1);
      FindsIt(s[1..], part, i - 1);
    }
  }

  lemma {:induction false} CountedOnce(s: string, part: string)
    requires part != []
    ensures Occurrences(s, part) > 0 <==> Contains(s, part)
  {
    if s != [] && !(part <= s) {
      CountedOnce(s[1..], part);
    }
  }

  lemma {:induction false} FoundTwice(s: string, part: string) returns (i: nat, j: nat)
    requires part != [] && Occurrences(s, part) > 1
    ensures i + |part| <= j && OccursAt(s, part, i) && OccursAt(s, part, j)
  {
    if part <= s {
      CountedOnce(s[|part|..], part);
      var k := FoundAt(s[|part|..], part);
      Shifted(s, part, |part|, k);
      i, j := 0, |part| + k;
    } else {
      i, j := FoundTwice(s[1..], part);
      Shifted(s, part, 1, i);
      Shifted(s, part, 1, j);
      i, j := i + 1, j + 1;
    }
  }

  lemma {:induction false} FindsBoth(s: string, part: string, i: nat, j: nat)
    requires part != [] && i + |part| <= j && OccursAt(s, part, i) && OccursAt(s, part, j)
    ensures Occurrences(s, part) > 1
  {
    if part <= s {
      Shifted(s, part, |part|, j - |part|);
      FindsIt(s[|part|..], part, j - |part|);
      CountedOnce(s[|part|..], part);
    } else if i > 0 {
      Shifted(s, part, 1, i - 1);
      Shifted(s, part, 1, j - 1);
      FindsBoth(s[1..], part, i - 1, j - 1);
    }
  }

  /** Containment is occurrence somewhere, and more than one count is two occurrences
      apart from each other, wherever a scan from the left would meet them. */
  lemma CountsMean(s: string, part: string)
    requires part != []
    ensures Contains(s, part) <==> exists i: nat :: OccursAt(s, part, i)
    ensures Occurrences(s, part) > 1 <==>
            exists i: nat, j: nat :: i + |part| <= j && OccursAt(s, part, i) && OccursAt(s, part, j)
  {
    if Contains(s, part) {
      var i := FoundAt(s, part);
    }
    if i: nat :| OccursAt(s, part, i) {
      FindsIt(s, part, i);
    }
    if Occurrences(s, part) > 1 {
      var i, j := FoundTwice(s, part);
    }
    if i: nat, j: nat :| i + |part| <= j && OccursAt(s, part, i) && OccursAt(s, part, j) {
      FindsBoth(s, part, i, j);
    }
  }

  const FORBIDDEN := ["gh pr create", "git worktree add", "git checkout -b", "git switch -c"]

  predicate IsPush(command: string, lib: Library) {
    var lower := lib.lower(command);
    Contains(lower, "git push") || (Contains(lower, "git -c") && Contains(lower, " push "))
  }

  predicate IsMultiPush(command: string, lib: Library) {
    IsPush(command, lib) && Occurrences(lib.lower(command), " push ") > 1
  }

  predicate IsForbidden(command: string, lib: Library) {
    exists k | 0 <= k < |FORBIDDEN| :: Contains(lib.lower(command), FORBIDDEN[k])
  }

  predicate IsGuarded(command: string, r: Recovery) {
    && Contains(command, "--force-with-lease=refs/heads/" + r.sourceBranch + ":" + r.oldHead)
    && Contains(command, " origin ")
    && Contains(command, "HEAD:refs/heads/" + r.sourceBranch)
  }

  ghost predicate SolePush(push: string, commands: multiset<string>, r: Recovery, lib: Library) {
    IsPush(push, lib) && IsGuarded(push, r) && forall c | c in commands && IsPush(c, lib) :: c == push
  }

  /** What a log must hold, as a collection without order: nothing forbidden, no
      multiple push, and one push in all, which is the guarded one. */
  ghost predicate ProvesPush(commands: multiset<string>, r: Recovery, lib: Library) {
    && (forall c | c in commands :: !IsForbidden(c, lib) && !IsMultiPush(c, lib))
    && (exists push :: commands[push] == 1 && SolePush(push, commands, r, lib))
  }

  function Pushes(commands: seq<string>, lib: Library): seq<string> {
    if commands == [] then []
    else
      var last := commands[|commands| - 1];
      Pushes(commands[..|commands| - 1], lib) + if IsPush(last, lib) then [last] else []
  }

  lemma {:induction false} PushesCount(commands: seq<string>, lib: Library, c: string)
    ensures multiset(Pushes(commands, lib))[c] == if IsPush(c, lib) then multiset(commands)[c] else 0
  {
    if commands != [] {
      assert commands == commands[..|commands| - 1] + [commands[|commands| - 1]];
      PushesCount(commands[..|commands| - 1], lib, c);
    }
  }

  lemma OnePush(commands: seq<string>, r: Recovery, lib: Library)
    ensures var pushes := Pushes(commands, lib);
      |pushes| == 1 && IsGuarded(pushes[0], r) <==>
      exists push :: multiset(commands)[push] == 1 && SolePush(push, multiset(commands), r, lib)
  {
    var pushes := Pushes(commands, lib);
    forall c: string
      ensures multiset(pushes)[c] == if IsPush(c, lib) then multiset(commands)[c] else 0
    {
      PushesCount(commands, lib, c);
    }
    if |pushes| == 1 {
      assert pushes == [pushes[0]];
      assert multiset(pushes) == multiset{pushes[0]};
      assert multiset(commands)[pushes[0]] == 1;
    }
    if push :| multiset(commands)[push] == 1 && SolePush(push, multiset(commands), r, lib) {
      assert multiset(pushes) == multiset{push};
      assert |pushes| == |multiset(pushes)| == 1;
      assert pushes[0] in multiset(pushes);
    }
  }

  /** The verdict over the collected commands. */
  method Judge(commands: seq<string>, r: Recovery, lib: Library) returns (ok: bool)
    ensures ok == ProvesPush(multiset(commands), r, lib)
  {
    var pushes: seq<string> := [];
    var i := 0;
    while i < |commands|
      invariant i <= |commands|
      invariant pushes == Pushes(commands[..i], lib)
      invariant forall k | 0 <= k < i :: !IsForbidden(commands[k], lib) && !IsMultiPush(commands[k], lib)
    {
      var command := commands[i];
      assert command in multiset(commands);
      assert commands[..i + 1] == commands[..i] + [command];
      if IsPush(command, lib) {
        if Occurrences(lib.lower(command), " push ") > 1 {
          return false;
        }
        pushes := pushes + [command];
      }
      var f := 0;
      while f < |FORBIDDEN|
        invariant f <= |FORBIDDEN|
        invariant forall k | 0 <= k < f :: !Contains(lib.lower(command), FORBIDDEN[k])
      {
        if Contains(lib.lower(command), FORBIDDEN[f]) {
          return false;
        }
        f := f + 1;
      }
      i := i + 1;
    }
    assert commands[..|commands|] == commands;
    OnePush(commands, r, lib);
    return |pushes| == 1 && IsGuarded(pushes[0], r);
  }

  /** The whole check. Its verdict depends only on which commands the parsed lines
      hold and how often, never on the order in which maps were ranged over. */
  method ValidateCommandLog(lines: seq<string>, r: Recovery, lib: Library) returns (ok: bool)
    ensures ok == ProvesPush(LogCommands(lines, lib), r, lib)
  {
    var commands: seq<string> := [];
    var i := 0;
    while i < |lines|
      invariant i <= |lines|
      invariant multiset(commands) == LogCommands(lines[..i], lib)
    {
      assert lines[..i + 1][..i] == lines[..i];
      var value := lib.decode(lines[i]);
      if value.Some? {
        commands := Collect(value.value, commands, lib);
      }
      i := i + 1;
    }
    assert lines[..|lines|] == lines;
    ok := Judge(commands, r, lib);
  }

  // ----- What the tests look for

  /** The text occurs somewhere in the command. */
  ghost predicate Mentions(s: string, part: string) {
    exists i: nat :: OccursAt(s, part, i)
  }

  /** Twice, and apart. */
  ghost predicate MentionsTwice(s: string, part: string) {
    exists i: nat, j: nat :: i + |part| <= j && OccursAt(s, part, i) && OccursAt(s, part, j)
  }

  /** A push is a folded command that says so outright, or through `git -c`. */
  lemma PushIff(command: string, lib: Library)
    ensures var lower := lib.lower(command);
      && (IsPush(command, lib) <==> Mentions(lower, "git push") || (Mentions(lower, "git -c") && Mentions(lower, " push ")))
      && (IsMultiPush(command, lib) <==> IsPush(command, lib) && MentionsTwice(lower, " push "))
  {
    var lower := lib.lower(command);
    CountsMean(lower, "git push");
    CountsMean(lower, "git -c");
    CountsMean(lower, " push ");
  }

  /** Forbidden are opening pull requests, adding worktrees and making branches. */
  lemma ForbiddenIff(command: string, lib: Library)
    ensures var lower := lib.lower(command);
      IsForbidden(command, lib) <==>
        || Mentions(lower, "gh pr create") || Mentions(lower, "git worktree add")
        || Mentions(lower, "git checkout -b") || Mentions(lower, "git switch -c")
  {
    var lower := lib.lower(command);
    CountsMean(lower, "gh pr create");
    CountsMean(lower, "git worktree add");
    CountsMean(lower, "git checkout -b");
    CountsMean(lower, "git switch -c");
    assert FORBIDDEN[0] == "gh pr create" && FORBIDDEN[1] == "git worktree add";
    assert FORBIDDEN[2] == "git checkout -b" && FORBIDDEN[3] == "git switch -c";
  }

  /** A push is guarded by a lease on the old head of the recovery's branch, to origin,
      onto that branch; as it was typed, not folded. */
  lemma GuardedIff(command: string, r: Recovery)
    ensures IsGuarded(command, r) <==>
      && Mentions(command, "--force-with-lease=refs/heads/" + r.sourceBranch + ":" + r.oldHead)
      && Mentions(command, " origin ") && Mentions(command, "HEAD:refs/heads/" + r.sourceBranch)
  {
    CountsMean(command, "--force-with-lease=refs/heads/" + r.sourceBranch + ":" + r.oldHead);
    CountsMean(command, " origin ");
    CountsMean(command, "HEAD:refs/heads/" + r.sourceBranch);
  }

  // ----- Consequences

  lemma {:induction false} LogAppend(a: seq<string>, b: seq<string>, lib: Library)
    ensures LogCommands(a + b, lib) == LogCommands(a, lib) + LogCommands(b, lib)
    decreases b
  {
    if b == [] {
      assert a + b == a;
    } else {
      assert (a + b)[..|a + b| - 1] == a + b[..|b| - 1];
      LogAppend(a, b[..|b| - 1], lib);
    }
  }

  lemma LogAround(before: seq<string>, line: string, after: seq<string>, lib: Library)
    ensures LogCommands(before + [line] + after, lib) == LogCommands(before + after, lib) + LineCommands(line, lib)
  {
    LogAppend(before + [line], after, lib);
    LogAppend(before, [line], lib);
    LogAppend(before, after, lib);
    assert [line][..0] == [];
    assert LogCommands([line], lib) == LineCommands(line, lib);
  }

  lemma SoleAmong(others: multiset<string>, more: multiset<string>, c: string, r: Recovery, lib: Library)
    requires c in more && IsPush(c, lib) && ProvesPush(others + more, r, lib)
    ensures IsGuarded(c, r) && forall p | p in others :: !IsPush(p, lib)
  {
    var all := others + more;
    assert c in all && all[c] == others[c] + more[c];
    assert others[c] == 0;
    assert forall p | p in others :: p in all;
  }

  /** One forbidden command anywhere in a parsed line sinks the log, whatever else it
      holds; and a second push, even the same one logged again, does so too. */
  lemma NothingHides(before: seq<string>, line: string, after: seq<string>, c: string, r: Recovery, lib: Library)
    requires c in LineCommands(line, lib)
    ensures IsForbidden(c, lib) || IsMultiPush(c, lib) ==> !ProvesPush(LogCommands(before + [line] + after, lib), r, lib)
    ensures IsPush(c, lib) && ProvesPush(LogCommands(before + [line] + after, lib), r, lib) ==>
      IsGuarded(c, r) && forall p | p in LogCommands(before + after, lib) :: !IsPush(p, lib)
  {
    LogAround(before, line, after, lib);
    if IsPush(c, lib) && ProvesPush(LogCommands(before + [line] + after, lib), r, lib) {
      SoleAmong(LogCommands(before + after, lib), LineCommands(line, lib), c, r, lib);
    }
  }
}
