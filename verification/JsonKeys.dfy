/** The duplicate-key check on model output: a recursive reader over a JSON token
    stream, and the trees those tokens print. */
module JsonKeys {
  import opened Options

  datatype Token = OpenObject | CloseObject | OpenArray | CloseArray | Text(s: string) | Scalar(n: int)

  /** JSON values as written: members keep their order and their repetitions. */
  datatype Value = Leaf(token: Token) | Array(items: Items) | Object(members: Members)
  datatype Items = NoItems | Item(value: Value, rest: Items)
  datatype Members = NoMembers | Member(key: string, value: Value, rest: Members)

  predicate Proper(v: Value) {
    match v
    case Leaf(token) => token.Text? || token.Scalar?
    case Array(items) => ProperItems(items)
    case Object(members) => ProperMembers(members)
  }

  predicate ProperItems(items: Items) {
    items.NoItems? || (Proper(items.value) && ProperItems(items.rest))
  }

  predicate ProperMembers(members: Members) {
    members.NoMembers? || (Proper(members.value) && ProperMembers(members.rest))
  }

  function Print(v: Value): seq<Token> {
    match v
    case Leaf(token) => [token]
    case Array(items) => [OpenArray] + PrintItems(items) + [CloseArray]
    case Object(members) => [OpenObject] + PrintMembers(members) + [CloseObject]
  }

  function PrintItems(items: Items): seq<Token> {
    if items.NoItems? then [] else Print(items.value) + PrintItems(items.rest)
  }

  function PrintMembers(members: Members): seq<Token> {
    if members.NoMembers? then []
    else [Text(members.key)] + Print(members.value) + PrintMembers(members.rest)
  }

  function Keys(members: Members): seq<string> {
    if members.NoMembers? then [] else [members.key] + Keys(members.rest)
  }

  ghost predicate NoRepeats(keys: seq<string>) {
    forall i, j | 0 <= i < j < |keys| :: keys[i] != keys[j]
  }

  /** No object at any depth repeats a key. */
  ghost predicate KeysUnique(v: Value) {
    match v
    case Leaf(_) => true
    case Array(items) => ItemsUnique(items)
    case Object(members) => NoRepeats(Keys(members)) && MembersUnique(members)
  }

  ghost predicate ItemsUnique(items: Items) {
    items.NoItems? || (KeysUnique(items.value) && ItemsUnique(items.rest))
  }

  /** What the members hold, whatever their own keys. */
  ghost predicate MembersUnique(members: Members) {
    members.NoMembers? || (KeysUnique(members.value) && MembersUnique(members.rest))
  }

  // ----- The reader as a function: the tokens left over, or None

  function Scan(ts: seq<Token>): (r: Option<seq<Token>>)
    ensures r.Some? ==> |r.value| < |ts|
    decreases |ts|, 0
  {
    if ts == [] then None
    else
      match ts[0]
      case OpenObject => ScanMembers(ts[1..], {})
      case OpenArray => ScanItems(ts[1..])
      case Text(_) | Scalar(_) => Some(ts[1..])
      case _ => None
  }

  function ScanItems(ts: seq<Token>): (r: Option<seq<Token>>)
    ensures r.Some? ==> |r.value| < |ts|
    decreases |ts|, 1
  {
    if ts == [] || ts[0] == CloseObject then None
    else if ts[0] == CloseArray then Some(ts[1..])
    else
      var rest := Scan(ts);
      if rest.None? then None else ScanItems(rest.value)
  }

  function ScanMembers(ts: seq<Token>, seen: set<string>): (r: Option<seq<Token>>)
    ensures r.Some? ==> |r.value| < |ts|
    decreases |ts|, 1
  {
    if ts == [] || ts[0] == CloseArray then None
    else if ts[0] == CloseObject then Some(ts[1..])
    else if !ts[0].Text? || ts[0].s in seen then None
    else
      var rest := Scan(ts[1..]);
      if rest.None? then None else ScanMembers(rest.value, seen + {ts[0].s})
  }

  predicate Check(ts: seq<Token>) {
    Scan(ts) == Some([])
  }

  // ----- The reader as it runs

  class Decoder {
    const tokens: seq<Token>
    var pos: nat

    ghost predicate Valid()
      reads this
    {
      pos <= |tokens|
    }

    function Rest(): seq<Token>
      requires Valid()
      reads this
    {
      tokens[pos..]
    }

    constructor (tokens: seq<Token>)
      ensures Valid() && Rest() == tokens
    {
      this.tokens, pos := tokens, 0;
    }

    method More() returns (more: bool)
      requires Valid()
      ensures more == (Rest() != [] && !Rest()[0].CloseArray? && !Rest()[0].CloseObject?)
    {
      more := pos < |tokens| && !tokens[pos].CloseArray? && !tokens[pos].CloseObject?;
    }

    /** None stands for io.EOF. */
    method Next() returns (token: Option<Token>)
      requires Valid()
      modifies this
      ensures Valid()
      ensures if old(Rest()) == [] then token == None && Rest() == []
              else token == Some(old(Rest()[0])) && Rest() == old(Rest()[1..])
    {
      if pos == |tokens| {
        return None;
      }
      token, pos := Some(tokens[pos]), pos + 1;
    }

    method ReadValue() returns (ok: bool)
      requires Valid()
      modifies this
      ensures Valid()
      ensures ok == Scan(old(Rest())).Some?
      ensures ok ==> Rest() == Scan(old(Rest())).value
      decreases |Rest()|, 0
    {
      var token := Next();
      if token.None? {
        return false;
      }
      match token.value {
        case OpenObject => ok := ReadMembers();
        case OpenArray => ok := ReadItems();
        case Text(_) | Scalar(_) => ok := true;
        case _ => ok := false;
      }
    }

    method ReadMembers() returns (ok: bool)
      requires Valid()
      modifies this
      ensures Valid()
      ensures ok == ScanMembers(old(Rest()), {}).Some?
      ensures ok ==> Rest() == ScanMembers(old(Rest()), {}).value
      decreases |Rest()|, 1
    {
      ghost var start := Rest();
      var seen: set<string> := {};
      var more := More();
      while more
        invariant Valid() && |Rest()| <= |start|
        invariant more == (Rest() != [] && !Rest()[0].CloseArray? && !Rest()[0].CloseObject?)
        invariant ScanMembers(start, {}) == ScanMembers(Rest(), seen)
        decreases |Rest()|
      {
        var key := Next();
        if !key.value.Text? || key.value.s in seen {
          return false;
        }
        seen := seen + {key.value.s};
        var read := ReadValue();
        if !read {
          return false;
        }
        more := More();
      }
      var end := Next();
      ok := end == Some(CloseObject);
    }

    method ReadItems() returns (ok: bool)
      requires Valid()
      modifies this
      ensures Valid()
      ensures ok == ScanItems(old(Rest())).Some?
      ensures ok ==> Rest() == ScanItems(old(Rest())).value
      decreases |Rest()|, 1
    {
      ghost var start := Rest();
      var more := More();
      while more
        invariant Valid() && |Rest()| <= |start|
        invariant more == (Rest() != [] && !Rest()[0].CloseArray? && !Rest()[0].CloseObject?)
        invariant ScanItems(start) == ScanItems(Rest())
        decreases |Rest()|
      {
        var read := ReadValue();
        if !read {
          return false;
        }
        more := More();
      }
      var end := Next();
      ok := end == Some(CloseArray);
    }
  }

  /** The check decides, for every token stream, whether it prints one value in which
      no object repeats a key. */
  method RejectDuplicateKeys(ts: seq<Token>) returns (ok: bool)
    ensures ok == Check(ts)
    ensures ok <==> exists v :: Proper(v) && KeysUnique(v) && Print(v) == ts
  {
    var decoder := new Decoder(ts);
    ok := decoder.ReadValue();
    if ok {
      var end := decoder.Next();
      ok := end == None;
    }
    CheckDecides(ts);
  }

  // ----- The reader against the printer

  ghost predicate Fresh(keys: seq<string>, seen: set<string>) {
    NoRepeats(keys) && forall k | k in keys :: k !in seen
  }

  lemma FreshCons(members: Members, seen: set<string>)
    requires members.Member?
    ensures Fresh(Keys(members), seen) <==>
            members.key !in seen && Fresh(Keys(members.rest), seen + {members.key})
  {
    var keys, rest := Keys(members), Keys(members.rest);
    assert keys == [members.key] + rest;
    assert forall i | 0 < i < |keys| :: keys[i] == rest[i - 1];
    assert forall k | k in keys :: k == members.key || k in rest;
    assert forall i | 0 <= i < |rest| :: rest[i] == keys[i + 1];
    if Fresh(keys, seen) {
      assert keys[0] == members.key && members.key in keys;
      assert forall k | k in rest :: k in keys && k != members.key;
    }
  }

  /** Reading a printed value consumes exactly it, or fails on a repeated key,
      whatever follows. */
  lemma {:induction false} ScanPrinted(v: Value, rest: seq<Token>)
    requires Proper(v)
    ensures Scan(Print(v) + rest) == if KeysUnique(v) then Some(rest) else None
    decreases v
  {
    var ts := Print(v) + rest;
    match v {
      case Leaf(token) =>
        assert ts[1..] == rest;
      case Array(items) =>
        ScanPrintedItems(items, rest);
        assert ts[1..] == PrintItems(items) + ([CloseArray] + rest);
      case Object(members) =>
        ScanPrintedMembers(members, {}, rest);
        assert ts[1..] == PrintMembers(members) + ([CloseObject] + rest);
    }
  }

  lemma {:induction false} ScanPrintedItems(items: Items, rest: seq<Token>)
    requires ProperItems(items)
    ensures ScanItems(PrintItems(items) + ([CloseArray] + rest)) == if ItemsUnique(items) then Some(rest) else None
    decreases items
  {
    var close := [CloseArray] + rest;
    if items.NoItems? {
      assert PrintItems(items) + close == close && close[1..] == rest;
    } else {
      var tail := PrintItems(items.rest) + close;
      assert PrintItems(items) + close == Print(items.value) + tail;
      assert Print(items.value)[0] != CloseArray && Print(items.value)[0] != CloseObject;
      ScanPrinted(items.value, tail);
      ScanPrintedItems(items.rest, rest);
    }
  }

  lemma ScanMember(key: string, ts: seq<Token>, seen: set<string>)
    ensures ScanMembers([Text(key)] + ts, seen)
      == if key in seen || Scan(ts).None? then None else ScanMembers(Scan(ts).value, seen + {key})
  {
    assert ([Text(key)] + ts)[1..] == ts;
  }

  /** The first member split off a printed object. */
  lemma PrintedMember(members: Members, close: seq<Token>)
    requires members.Member?
    ensures PrintMembers(members) + close
         == [Text(members.key)] + (Print(members.value) + (PrintMembers(members.rest) + close))
  {
  }

  lemma {:induction false} ScanPrintedMembers(members: Members, seen: set<string>, rest: seq<Token>)
    requires ProperMembers(members)
    ensures ScanMembers(PrintMembers(members) + ([CloseObject] + rest), seen)
      == if Fresh(Keys(members), seen) && MembersUnique(members) then Some(rest) else None
    decreases members
  {
    var close := [CloseObject] + rest;
    if members.NoMembers? {
      assert PrintMembers(members) + close == close && close[1..] == rest;
    } else {
      var tail := PrintMembers(members.rest) + close;
      PrintedMember(members, close);
      ScanMember(members.key, Print(members.value) + tail, seen);
      FreshCons(members, seen);
      ScanPrinted(members.value, tail);
      ScanPrintedMembers(members.rest, seen + {members.key}, rest);
    }
  }

  /** Whatever the reader consumes is one printed value without repeated keys. */
  lemma {:induction false} ScannedIsPrinted(ts: seq<Token>) returns (v: Value)
    requires Scan(ts).Some?
    ensures Proper(v) && KeysUnique(v) && Print(v) + Scan(ts).value == ts
    decreases |ts|, 0
  {
    assert ts == [ts[0]] + ts[1..];
    if ts[0] == OpenObject {
      var members := ScannedMembers(ts[1..], {});
      v := Object(members);
    } else if ts[0] == OpenArray {
      var items := ScannedItems(ts[1..]);
      v := Array(items);
    } else {
      v := Leaf(ts[0]);
    }
  }

  lemma {:induction false} ScannedItems(ts: seq<Token>) returns (items: Items)
    requires ScanItems(ts).Some?
    ensures ProperItems(items) && ItemsUnique(items)
    ensures PrintItems(items) + ([CloseArray] + ScanItems(ts).value) == ts
    decreases |ts|, 1
  {
    if ts[0] == CloseArray {
      items := NoItems;
    } else {
      var value := ScannedIsPrinted(ts);
      var rest := ScannedItems(Scan(ts).value);
      items := Item(value, rest);
    }
  }

  lemma {:induction false} ScannedMembers(ts: seq<Token>, seen: set<string>) returns (members: Members)
    requires ScanMembers(ts, seen).Some?
    ensures ProperMembers(members) && MembersUnique(members) && Fresh(Keys(members), seen)
    ensures PrintMembers(members) + ([CloseObject] + ScanMembers(ts, seen).value) == ts
    decreases |ts|, 1
  {
    if ts[0] == CloseObject {
      members := NoMembers;
    } else {
      var value := ScannedIsPrinted(ts[1..]);
      var rest := ScannedMembers(Scan(ts[1..]).value, seen + {ts[0].s});
      members := Member(ts[0].s, value, rest);
      FreshCons(members, seen);
      assert ts == [ts[0]] + ts[1..];
    }
  }

  lemma CheckDecides(ts: seq<Token>)
    ensures Check(ts) <==> exists v :: Proper(v) && KeysUnique(v) && Print(v) == ts
  {
    if Check(ts) {
      var v := ScannedIsPrinted(ts);
      assert Print(v) + [] == Print(v);
    }
    forall v | Proper(v) && Print(v) == ts
      ensures Check(ts) <==> KeysUnique(v)
    {
      ScanPrinted(v, []);
      assert Print(v) + [] == ts;
    }
  }

  /** Of every printed value the check asks exactly that no object repeats a key, and
      anything after the value is refused. */
  lemma PrintedValuesAreDecided(v: Value, trailing: seq<Token>)
    requires Proper(v)
    ensures Check(Print(v) + trailing) <==> KeysUnique(v) && trailing == []
  {
    ScanPrinted(v, trailing);
  }
}
