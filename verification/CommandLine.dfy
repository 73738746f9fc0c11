/** The `asset create-revision` command line: the option automaton, the graph built from its options,
    and the hex the options are written in. */
module CommandLine {
  import opened Bytes
  import opened Encoding
  import opened Options
  import opened Requests

  const COLON: Byte := 58

  // Hex

  predicate HexDigit(b: Byte) {
    48 <= b <= 57 || 97 <= b <= 102
  }

  function Nibble(b: Byte): (n: nat)
    requires HexDigit(b)
    ensures n < 16
  {
    if b <= 57 then b - 48 else b - 97 + 10
  }

  function Digit(n: nat): (b: Byte)
    requires n < 16
    ensures HexDigit(b) && Nibble(b) == n
  {
    if n < 10 then 48 + n else 97 + n - 10
  }

  predicate HexText(v: Octets) {
    |v| % 2 == 0 && forall i :: 0 <= i < |v| ==> HexDigit(v[i])
  }

  function LowerHex(b: Octets): (v: Octets)
    ensures |v| == 2 * |b| && HexText(v)
  {
    if b == [] then [] else [Digit(b[0] / 16), Digit(b[0] % 16)] + LowerHex(b[1..])
  }

  function Unhex(v: Octets): (b: Octets)
    requires HexText(v)
    ensures |b| == |v| / 2
  {
    if v == [] then [] else [16 * Nibble(v[0]) + Nibble(v[1])] + Unhex(v[2..])
  }

  lemma LowerHexCons(x: Byte, b: Octets)
    ensures LowerHex([x] + b) == [Digit(x / 16), Digit(x % 16)] + LowerHex(b)
  {
    assert ([x] + b)[1..] == b;
  }

  lemma FirstPair(v: Octets)
    requires |v| >= 2
    ensures v == [v[0], v[1]] + v[2..]
  {
  }

  lemma {:induction false} HexForth(v: Octets)
    requires HexText(v)
    ensures LowerHex(Unhex(v)) == v
  {
    if v != [] {
      HexForth(v[2..]);
      NibblesForth(v[0], v[1]);
      LowerHexCons(16 * Nibble(v[0]) + Nibble(v[1]), Unhex(v[2..]));
      FirstPair(v);
    }
  }

  lemma NibblesForth(x: Byte, y: Byte)
    requires HexDigit(x) && HexDigit(y)
    ensures var b := 16 * Nibble(x) + Nibble(y); Digit(b / 16) == x && Digit(b % 16) == y
  {
  }

  lemma HexCons(x: Byte, y: Byte, v: Octets)
    requires HexDigit(x) && HexDigit(y) && HexText(v)
    ensures HexText([x, y] + v)
  {
  }

  lemma UnhexCons(x: Byte, y: Byte, v: Octets)
    requires HexDigit(x) && HexDigit(y) && HexText(v)
    ensures HexText([x, y] + v) && Unhex([x, y] + v) == [16 * Nibble(x) + Nibble(y)] + Unhex(v)
  {
    HexCons(x, y, v);
    assert ([x, y] + v)[2..] == v;
  }

  lemma FirstByte(b: Octets)
    requires b != []
    ensures b == [b[0]] + b[1..]
  {
  }

  lemma {:induction false} HexBack(b: Octets)
    ensures Unhex(LowerHex(b)) == b
  {
    if b != [] {
      HexBack(b[1..]);
      UnhexCons(Digit(b[0] / 16), Digit(b[0] % 16), LowerHex(b[1..]));
      FirstByte(b);
    }
  }

  /** `parse_hex` and `parse_hex_exact`: `exact` asks for just `n` bytes, otherwise at most `n`. */
  function ParseHex(v: Octets, n: nat, exact: bool): Option<Octets> {
    if !HexText(v) || (if exact then |v| != 2 * n else |v| > 2 * n) then None else Some(Unhex(v))
  }

  /** What is accepted is exactly the lowercase hex of what it is read as. */
  lemma HexExact(v: Octets, n: nat, exact: bool, b: Octets)
    ensures ParseHex(v, n, exact) == Some(b) <==> v == LowerHex(b) && (if exact then |b| == n else |b| <= n)
  {
    if HexText(v) {
      HexForth(v);
    }
    HexBack(b);
  }

  lemma {:induction false} LowerHexAppends(b: Octets, x: Byte)
    ensures LowerHex(b + [x]) == LowerHex(b) + [Digit(x / 16), Digit(x % 16)]
  {
    if b == [] {
      assert [x][1..] == [];
    } else {
      LowerHexAppends(b[1..], x);
      assert (b + [x])[1..] == b[1..] + [x];
    }
  }

  /** `lowercase_hex`. */
  method LowercaseHex(b: Octets) returns (v: Octets)
    ensures v == LowerHex(b)
  {
    v := [];
    for i := 0 to |b|
      invariant v == LowerHex(b[..i])
    {
      LowerHexAppends(b[..i], b[i]);
      assert b[..i + 1] == b[..i] + [b[i]];
      v := v + [Digit(b[i] / 16), Digit(b[i] % 16)];
    }
    assert b[..|b|] == b;
  }

  lemma HexTail(v: Octets, i: nat)
    requires HexText(v) && 2 * i <= |v|
    ensures HexText(v[2 * i..])
  {
  }

  lemma PairAt(v: Octets, at: nat)
    requires at + 1 < |v|
    ensures v[at..] == [v[at], v[at + 1]] + v[at + 2..]
  {
  }

  lemma UnhexNext(v: Octets, i: nat)
    requires HexText(v) && 2 * i + 1 < |v|
    ensures HexText(v[2 * i..]) && HexText(v[2 * i + 2..])
    ensures Unhex(v[2 * i..]) == [16 * Nibble(v[2 * i]) + Nibble(v[2 * i + 1])] + Unhex(v[2 * i + 2..])
  {
    var x, y, rest := v[2 * i], v[2 * i + 1], v[2 * i + 2..];
    HexTail(v, i + 1);
    UnhexCons(x, y, rest);
    PairAt(v, 2 * i);
  }

  /** What is read so far, and what the rest will give. */
  ghost predicate Unhexed(v: Octets, i: nat, output: Octets, whole: Octets) {
    2 * i <= |v| && HexText(v[2 * i..]) && whole == output + Unhex(v[2 * i..])
  }

  lemma UnhexedNext(v: Octets, i: nat, was: Octets, next: nat, output: Octets, whole: Octets)
    requires HexText(v) && 2 * i + 1 < |v| && Unhexed(v, i, was, whole)
    requires next == i + 1 && output == was + [16 * Nibble(v[2 * i]) + Nibble(v[2 * i + 1])]
    ensures Unhexed(v, next, output, whole)
  {
    UnhexNext(v, i);
  }

  method UnhexPairs(v: Octets) returns (output: Octets)
    requires HexText(v)
    ensures output == Unhex(v)
  {
    ghost var whole := Unhex(v);
    output := [];
    assert v[0..] == v;
    var i := 0;
    while 2 * i < |v|
      invariant Unhexed(v, i, output, whole)
    {
      ghost var was := output;
      output := output + [16 * Nibble(v[2 * i]) + Nibble(v[2 * i + 1])];
      i := i + 1;
      UnhexedNext(v, i - 1, was, i, output, whole);
    }
  }

  /** `parse_hex_exact`. */
  method ParseHexExact(v: Octets, n: nat) returns (r: Option<Octets>)
    ensures r == ParseHex(v, n, true)
    ensures forall b :: r == Some(b) <==> |b| == n && v == LowerHex(b)
  {
    forall b ensures ParseHex(v, n, true) == Some(b) <==> |b| == n && v == LowerHex(b) {
      HexExact(v, n, true, b);
    }
    if |v| != 2 * n || exists i :: 0 <= i < |v| && !HexDigit(v[i]) {
      return None;
    }
    var output := UnhexPairs(v);
    r := Some(output);
  }

  // Options

  /** The semantic options of the command; the others only fill slots. */
  datatype Word =
    | CommandId | AssetId | ExpectedRevision | ParentRevision | ContentKind
    | RepresentationWord | ResourceWord | MemberWord
    | SlotWord(slot: nat)
    | Unknown

  /** An argument, as the option it would be and as the value it would be. */
  datatype Argument = Argument(word: Word, bytes: Octets)

  datatype Entry = Entry(option: Word, raw: Octets)

  predicate Repeatable(w: Word) {
    w == ParentRevision || w == RepresentationWord || w == ResourceWord || w == MemberWord
  }

  predicate Seen(entries: seq<Entry>, w: Word) {
    exists i :: 0 <= i < |entries| && entries[i].option == w
  }

  datatype Parser = Parser(entries: seq<Entry>, slots: map<nat, Octets>, hasRepresentation: bool, hasResource: bool)

  const START := Parser([], map[], false, false)

  /** One option and its value. */
  function Take(p: Parser, option: Word, raw: Octets): Option<Parser> {
    match option
    case SlotWord(slot) => if slot in p.slots then None else Some(p.(slots := p.slots[slot := raw]))
    case Unknown => None
    case _ =>
      if option == ResourceWord && !p.hasRepresentation then None
      else if option == MemberWord && !p.hasResource then None
      else if !Repeatable(option) && Seen(p.entries, option) then None
      else
        Some(Parser(p.entries + [Entry(option, raw)], p.slots,
                    p.hasRepresentation || option == RepresentationWord,
                    (p.hasResource || option == ResourceWord) && option != RepresentationWord))
  }

  function TakeAll(p: Parser, args: seq<Argument>): Option<Parser>
    decreases |args|
  {
    if args == [] then Some(p)
    else if |args| == 1 then None
    else
      match Take(p, args[0].word, args[1].bytes)
      case None => None
      case Some(q) => TakeAll(q, args[2..])
  }

  /** What a command line comes to: the semantic options in order, and the slots. */
  datatype Parsed = Parsed(entries: seq<Entry>, slots: map<nat, Octets>)

  /** The loop of `parse_task_009_command`. */
  method ParseOptions(args: seq<Argument>) returns (r: Option<Parsed>)
    ensures r == match TakeAll(START, args) case None => None case Some(p) => Some(Parsed(p.entries, p.slots))
    ensures r == if Acceptable(args) then Some(Parsed(Entries(args, |args| / 2), Slots(args, |args| / 2))) else None
  {
    AcceptsExactly(args);
    var entries: seq<Entry>, slots: map<nat, Octets> := [], map[];
    var hasRepresentation, hasResource := false, false;
    var index := 0;
    while index < |args|
      invariant index <= |args|
      invariant TakeAll(START, args) == TakeAll(Parser(entries, slots, hasRepresentation, hasResource), args[index..])
    {
      assert |args[index..]| >= 2 ==> args[index..][2..] == args[index + 2..];
      var option := args[index].word;
      if index + 1 == |args| {
        return None;
      }
      var value := args[index + 1].bytes;
      if option.SlotWord? {
        if option.slot in slots {
          return None;
        }
        slots := slots[option.slot := value];
      } else {
        if option == Unknown {
          return None;
        }
        if option == RepresentationWord {
          hasRepresentation := true;
          hasResource := false;
        } else if option == ResourceWord {
          if !hasRepresentation {
            return None;
          }
          hasResource := true;
        } else if option == MemberWord && !hasResource {
          return None;
        }
        if !Repeatable(option) && Seen(entries, option) {
          return None;
        }
        entries := entries + [Entry(option, value)];
      }
      index := index + 2;
    }
    r := Some(Parsed(entries, slots));
  }

  // Which command lines are accepted, and what they say

  /** The option at place `i` of the pairs, and its value. */
  function WordAt(args: seq<Argument>, i: nat): Word
    requires 2 * i < |args|
  {
    args[2 * i].word
  }

  function ValueAt(args: seq<Argument>, i: nat): Octets
    requires 2 * i + 1 < |args|
  {
    args[2 * i + 1].bytes
  }

  ghost predicate Occurs(args: seq<Argument>, n: nat, w: Word)
    requires 2 * n <= |args|
  {
    exists i :: 0 <= i < n && WordAt(args, i) == w
  }

  /** A resource occurs among the first `n` options, and no representation after it. */
  ghost predicate ResourceOpen(args: seq<Argument>, n: nat)
    requires 2 * n <= |args|
  {
    exists i :: 0 <= i < n && WordAt(args, i) == ResourceWord
                && forall j :: i < j < n ==> WordAt(args, j) != RepresentationWord
  }

  /** The option at place `j` is known, is not given twice unless it may be, and has its parent. */
  ghost predicate Placed(args: seq<Argument>, j: nat)
    requires 2 * j < |args|
  {
    var w := WordAt(args, j);
    && w != Unknown
    && (!Repeatable(w) ==> !Occurs(args, j, w))
    && (w == ResourceWord ==> Occurs(args, j, RepresentationWord))
    && (w == MemberWord ==> ResourceOpen(args, j))
  }

  ghost predicate AllPlaced(args: seq<Argument>, n: nat)
    requires 2 * n <= |args|
  {
    forall j :: 0 <= j < n ==> Placed(args, j)
  }

  ghost predicate Acceptable(args: seq<Argument>) {
    |args| % 2 == 0 && AllPlaced(args, |args| / 2)
  }

  /** The pairs that are not slots, in order. */
  function Entries(args: seq<Argument>, n: nat): seq<Entry>
    requires 2 * n <= |args|
  {
    if n == 0 then []
    else if WordAt(args, n - 1).SlotWord? then Entries(args, n - 1)
    else Entries(args, n - 1) + [Entry(WordAt(args, n - 1), ValueAt(args, n - 1))]
  }

  /** The slots that are set. */
  function Slots(args: seq<Argument>, n: nat): map<nat, Octets>
    requires 2 * n <= |args|
  {
    if n == 0 then map[]
    else if WordAt(args, n - 1).SlotWord? then Slots(args, n - 1)[WordAt(args, n - 1).slot := ValueAt(args, n - 1)]
    else Slots(args, n - 1)
  }

  ghost function StateAt(args: seq<Argument>, n: nat): Parser
    requires 2 * n <= |args|
  {
    Parser(Entries(args, n), Slots(args, n), Occurs(args, n, RepresentationWord), ResourceOpen(args, n))
  }

  lemma OccursNext(args: seq<Argument>, n: nat, w: Word)
    requires 2 * n + 2 <= |args|
    ensures Occurs(args, n + 1, w) <==> Occurs(args, n, w) || WordAt(args, n) == w
  {
    if Occurs(args, n, w) {
      var i :| 0 <= i < n && WordAt(args, i) == w;
      assert WordAt(args, i) == w;
    }
  }

  lemma ResourceOpenNext(args: seq<Argument>, n: nat)
    requires 2 * n + 2 <= |args|
    ensures ResourceOpen(args, n + 1) <==>
              WordAt(args, n) == ResourceWord || (ResourceOpen(args, n) && WordAt(args, n) != RepresentationWord)
  {
    if ResourceOpen(args, n) && WordAt(args, n) != RepresentationWord {
      var i :| 0 <= i < n && WordAt(args, i) == ResourceWord && forall j :: i < j < n ==> WordAt(args, j) != RepresentationWord;
      assert forall j :: i < j < n + 1 ==> WordAt(args, j) != RepresentationWord;
    }
    if ResourceOpen(args, n + 1) {
      var i :| 0 <= i < n + 1 && WordAt(args, i) == ResourceWord && forall j :: i < j < n + 1 ==> WordAt(args, j) != RepresentationWord;
      if i < n {
        assert WordAt(args, n) != RepresentationWord;
        assert forall j :: i < j < n ==> WordAt(args, j) != RepresentationWord;
      }
    }
  }

  lemma SeenSnoc(entries: seq<Entry>, e: Entry, w: Word)
    ensures Seen(entries + [e], w) <==> Seen(entries, w) || e.option == w
  {
    if e.option == w {
      assert (entries + [e])[|entries|] == e;
    }
    if Seen(entries, w) {
      var i :| 0 <= i < |entries| && entries[i].option == w;
      assert (entries + [e])[i] == entries[i];
    }
  }

  lemma {:induction false} SeenExactly(args: seq<Argument>, n: nat, w: Word)
    requires 2 * n <= |args| && !w.SlotWord?
    ensures Seen(Entries(args, n), w) <==> Occurs(args, n, w)
  {
    if n > 0 {
      SeenExactly(args, n - 1, w);
      OccursNext(args, n - 1, w);
      SeenSnoc(Entries(args, n - 1), Entry(WordAt(args, n - 1), ValueAt(args, n - 1)), w);
    }
  }

  lemma {:induction false} SlotExactly(args: seq<Argument>, n: nat, slot: nat)
    requires 2 * n <= |args|
    ensures slot in Slots(args, n) <==> Occurs(args, n, SlotWord(slot))
  {
    if n > 0 {
      SlotExactly(args, n - 1, slot);
      OccursNext(args, n - 1, SlotWord(slot));
    }
  }

  lemma TakesNext(args: seq<Argument>, n: nat)
    requires 2 * n + 2 <= |args|
    ensures Take(StateAt(args, n), WordAt(args, n), ValueAt(args, n))
         == if Placed(args, n) then Some(StateAt(args, n + 1)) else None
  {
    var w := WordAt(args, n);
    OccursNext(args, n, RepresentationWord);
    ResourceOpenNext(args, n);
    if w.SlotWord? {
      SlotExactly(args, n, w.slot);
    } else {
      SeenExactly(args, n, w);
    }
  }

  lemma {:induction false} TakesFrom(args: seq<Argument>, n: nat)
    requires 2 * n <= |args| && AllPlaced(args, n)
    ensures TakeAll(StateAt(args, n), args[2 * n..]) == if Acceptable(args) then Some(StateAt(args, |args| / 2)) else None
    decreases |args| - 2 * n
  {
    var rest := args[2 * n..];
    if |rest| > 1 {
      TakesNext(args, n);
      assert rest[0] == args[2 * n] && rest[1] == args[2 * n + 1] && rest[2..] == args[2 * (n + 1)..];
      if Placed(args, n) {
        TakesFrom(args, n + 1);
      } else {
        assert n < |args| / 2;
      }
    }
  }

  /** A command line is accepted if and only if its arguments come in pairs, each option is known, is not
      given twice unless it may be, and stands behind its parent. */
  lemma AcceptsExactly(args: seq<Argument>)
    ensures TakeAll(START, args) == if Acceptable(args) then Some(StateAt(args, |args| / 2)) else None
  {
    assert args[2 * 0..] == args;
    TakesFrom(args, 0);
  }

  // The graph

  /** Every way to fail is one public error; the model keeps a missing parent apart. */
  datatype Fault = MissingParent | Malformed

  datatype Built<T> = Ok(value: T) | Err(fault: Fault)

  type Graph = seq<Representation>

  predicate GraphWord(w: Word) {
    w == RepresentationWord || w == ResourceWord || w == MemberWord
  }

  /** `name:digest`, both in hex, and nothing else with a colon. */
  function ParseMember(utf8: Octets -> bool, raw: Octets): Option<Member> {
    var i := IndexOf(raw, COLON);
    if i == |raw| || COLON in raw[i + 1..] then None
    else
      var name, digest := ParseHex(raw[..i], 255, false), ParseHex(raw[i + 1..], 32, true);
      if name.None? || !utf8(name.value) || digest.None? then None else Some(Member(name.value, digest.value))
  }

  function PrintMember(m: Member): Octets {
    LowerHex(m.name) + [COLON] + LowerHex(m.digest)
  }

  function Last<T>(s: seq<T>): T
    requires s != []
  {
    s[|s| - 1]
  }

  function Front<T>(s: seq<T>): seq<T>
    requires s != []
  {
    s[..|s| - 1]
  }

  lemma Snoc<T>(s: seq<T>, x: T)
    ensures Front(s + [x]) == s && Last(s + [x]) == x
  {
  }

  /** One option of the list pushed into the nested vectors. */
  function Push(utf8: Octets -> bool, g: Graph, e: Entry): Built<Graph> {
    match e.option
    case RepresentationWord => if utf8(e.raw) then Ok(g + [Representation(e.raw, [])]) else Err(Malformed)
    case ResourceWord =>
      if g == [] then Err(MissingParent)
      else if !utf8(e.raw) then Err(Malformed)
      else Ok(Front(g) + [Representation(Last(g).purpose, Last(g).resources + [Resource(e.raw, [])])])
    case MemberWord =>
      var m := ParseMember(utf8, e.raw);
      if m.None? then Err(Malformed)
      else if g == [] || Last(g).resources == [] then Err(MissingParent)
      else
        var r := Last(Last(g).resources);
        Ok(Front(g) + [Representation(Last(g).purpose, Front(Last(g).resources) + [Resource(r.kind, r.members + [m.value])])])
    case _ => Ok(g)
  }

  function BuildAll(utf8: Octets -> bool, entries: seq<Entry>): Built<Graph> {
    if entries == [] then Ok([])
    else
      match BuildAll(utf8, Front(entries))
      case Err(f) => Err(f)
      case Ok(g) => Push(utf8, g, Last(entries))
  }

  predicate Sized(g: Graph) {
    && 1 <= |g| <= 64
    && (forall i :: 0 <= i < |g| ==> 1 <= |g[i].resources| <= 64)
    && (forall i, j :: 0 <= i < |g| && 0 <= j < |g[i].resources| ==> 1 <= |g[i].resources[j].members| <= 4096)
  }

  function BuildGraph(utf8: Octets -> bool, entries: seq<Entry>): Built<Graph> {
    match BuildAll(utf8, entries)
    case Err(f) => Err(f)
    case Ok(g) => if Sized(g) then Ok(g) else Err(Malformed)
  }

  /** `asset_revision_graph`. */
  method AssetRevisionGraph(utf8: Octets -> bool, entries: seq<Entry>) returns (r: Built<Graph>)
    ensures r == BuildGraph(utf8, entries)
  {
    var g: Graph := [];
    for i := 0 to |entries|
      invariant BuildAll(utf8, entries[..i]) == Ok(g)
    {
      assert Front(entries[..i + 1]) == entries[..i] && Last(entries[..i + 1]) == entries[i];
      var pushed := Push(utf8, g, entries[i]);
      if pushed.Err? {
        BuildStops(utf8, entries, i + 1);
        return Err(pushed.fault);
      }
      g := pushed.value;
    }
    assert entries[..|entries|] == entries;
    r := if Sized(g) then Ok(g) else Err(Malformed);
  }

  lemma {:induction false} BuildStops(utf8: Octets -> bool, entries: seq<Entry>, i: nat)
    requires i <= |entries| && BuildAll(utf8, entries[..i]).Err?
    ensures BuildAll(utf8, entries) == BuildAll(utf8, entries[..i])
    decreases |entries|
  {
    if i < |entries| {
      assert Front(entries)[..i] == entries[..i];
      BuildStops(utf8, Front(entries), i);
    } else {
      assert entries[..i] == entries;
    }
  }

  // What the automaton guarantees

  /** A representation was opened; since then, a resource was. */
  function Flags(entries: seq<Entry>): (bool, bool) {
    if entries == [] then (false, false)
    else
      var f := Flags(Front(entries));
      match Last(entries).option
      case RepresentationWord => (true, false)
      case ResourceWord => (f.0, true)
      case _ => f
  }

  /** Every resource stands under a representation, every member under a resource. */
  predicate Legal(entries: seq<Entry>) {
    entries == []
    || (&& Legal(Front(entries))
        && (Last(entries).option == ResourceWord ==> Flags(Front(entries)).0)
        && (Last(entries).option == MemberWord ==> Flags(Front(entries)).1))
  }

  predicate Tracks(p: Parser) {
    Legal(p.entries) && Flags(p.entries) == (p.hasRepresentation, p.hasResource)
  }

  lemma FlagsSnoc(entries: seq<Entry>, e: Entry)
    ensures Flags(entries + [e])
         == (Flags(entries).0 || e.option == RepresentationWord,
             e.option != RepresentationWord && (Flags(entries).1 || e.option == ResourceWord))
    ensures Legal(entries + [e]) <==>
              && Legal(entries)
              && (e.option == ResourceWord ==> Flags(entries).0)
              && (e.option == MemberWord ==> Flags(entries).1)
  {
    Snoc(entries, e);
  }

  lemma TakeTracks(p: Parser, option: Word, raw: Octets)
    requires Tracks(p)
    ensures Take(p, option, raw).Some? ==> Tracks(Take(p, option, raw).value)
  {
    FlagsSnoc(p.entries, Entry(option, raw));
  }

  lemma {:induction false} ParsedTracks(p: Parser, args: seq<Argument>)
    requires Tracks(p)
    ensures TakeAll(p, args).Some? ==> Tracks(TakeAll(p, args).value)
    decreases |args|
  {
    if |args| > 1 {
      TakeTracks(p, args[0].word, args[1].bytes);
      var q := Take(p, args[0].word, args[1].bytes);
      if q.Some? {
        ParsedTracks(q.value, args[2..]);
      }
    }
  }

  /** No option but the repeatable ones occurs twice. */
  predicate Once(entries: seq<Entry>) {
    forall i, j :: 0 <= i < j < |entries| && entries[i].option == entries[j].option ==> Repeatable(entries[i].option)
  }

  lemma {:induction false} ParsedOnce(p: Parser, args: seq<Argument>)
    requires Once(p.entries)
    ensures TakeAll(p, args).Some? ==> Once(TakeAll(p, args).value.entries)
    decreases |args|
  {
    if |args| > 1 {
      var q := Take(p, args[0].word, args[1].bytes);
      if q.Some? {
        TakeOnce(p, args[0].word, args[1].bytes);
        ParsedOnce(q.value, args[2..]);
      }
    }
  }

  lemma TakeOnce(p: Parser, option: Word, raw: Octets)
    requires Once(p.entries)
    ensures Take(p, option, raw).Some? ==> Once(Take(p, option, raw).value.entries)
  {
  }

  /** The flags say what the graph has open. */
  ghost predicate Open(g: Graph, flags: (bool, bool)) {
    (flags.0 <==> g != []) && (flags.1 <==> g != [] && Last(g).resources != [])
  }

  /** The value of a graph option can be read. */
  predicate Readable(utf8: Octets -> bool, e: Entry) {
    match e.option
    case RepresentationWord => utf8(e.raw)
    case ResourceWord => utf8(e.raw)
    case MemberWord => ParseMember(utf8, e.raw).Some?
    case _ => true
  }

  predicate AllReadable(utf8: Octets -> bool, entries: seq<Entry>) {
    forall i :: 0 <= i < |entries| ==> Readable(utf8, entries[i])
  }

  lemma ReadableSnoc(utf8: Octets -> bool, entries: seq<Entry>)
    requires entries != []
    ensures AllReadable(utf8, entries) <==> AllReadable(utf8, Front(entries)) && Readable(utf8, Last(entries))
  {
    assert forall i :: 0 <= i < |entries| ==> entries[i] == if i < |entries| - 1 then Front(entries)[i] else Last(entries);
  }

  lemma PushExactly(utf8: Octets -> bool, g: Graph, e: Entry, flags: (bool, bool))
    requires Open(g, flags)
    ensures Push(utf8, g, e).Ok? <==>
              Readable(utf8, e) && (e.option == ResourceWord ==> flags.0) && (e.option == MemberWord ==> flags.1)
    ensures Push(utf8, g, e) == Err(MissingParent) ==> (e.option == ResourceWord && !flags.0) || (e.option == MemberWord && !flags.1)
    ensures Push(utf8, g, e).Ok? ==>
              Open(Push(utf8, g, e).value,
                   (flags.0 || e.option == RepresentationWord,
                    e.option != RepresentationWord && (flags.1 || e.option == ResourceWord)))
  {
  }

  /** The builder accepts a list of options if and only if each has its parent and can be read. */
  lemma {:induction false} BuildsExactly(utf8: Octets -> bool, entries: seq<Entry>)
    ensures BuildAll(utf8, entries).Ok? <==> Legal(entries) && AllReadable(utf8, entries)
    ensures Legal(entries) ==> BuildAll(utf8, entries) != Err(MissingParent)
    ensures BuildAll(utf8, entries).Ok? ==> Open(BuildAll(utf8, entries).value, Flags(entries))
  {
    if entries != [] {
      BuildsExactly(utf8, Front(entries));
      ReadableSnoc(utf8, entries);
      if BuildAll(utf8, Front(entries)).Ok? {
        PushExactly(utf8, BuildAll(utf8, Front(entries)).value, Last(entries), Flags(Front(entries)));
      }
    }
  }

  /** The graph of a command line: its options, each with its parent and readable, in 1 to 64 representations of
      1 to 64 resources of 1 to 4096 members. */
  lemma GraphExactly(utf8: Octets -> bool, entries: seq<Entry>, g: Graph)
    ensures BuildGraph(utf8, entries) == Ok(g) <==>
              && Legal(entries) && AllReadable(utf8, entries) && BuildAll(utf8, entries) == Ok(g)
              && 1 <= |g| <= 64
              && (forall r :: r in g ==> 1 <= |r.resources| <= 64 && forall s :: s in r.resources ==> 1 <= |s.members| <= 4096)
  {
    BuildsExactly(utf8, entries);
    forall r | r in g ensures Sized(g) ==> 1 <= |r.resources| <= 64 && forall s :: s in r.resources ==> 1 <= |s.members| <= 4096 {
      var i :| 0 <= i < |g| && g[i] == r;
      forall s | s in r.resources ensures Sized(g) ==> 1 <= |s.members| <= 4096 {
        var j :| 0 <= j < |r.resources| && r.resources[j] == s;
      }
    }
    if 1 <= |g| <= 64 && forall r :: r in g ==> 1 <= |r.resources| <= 64 && forall s :: s in r.resources ==> 1 <= |s.members| <= 4096 {
      SizedFrom(g);
    }
  }

  lemma SizedFrom(g: Graph)
    requires 1 <= |g| <= 64
    requires forall r :: r in g ==> 1 <= |r.resources| <= 64 && forall s :: s in r.resources ==> 1 <= |s.members| <= 4096
    ensures Sized(g)
  {
    forall i | 0 <= i < |g| ensures 1 <= |g[i].resources| <= 64 {
      assert g[i] in g;
    }
    forall i, j | 0 <= i < |g| && 0 <= j < |g[i].resources| ensures 1 <= |g[i].resources[j].members| <= 4096 {
      assert g[i] in g && g[i].resources[j] in g[i].resources;
    }
  }

  /** No command line that gets past the option parser meets a missing parent in the builder. */
  lemma ParentsAreNeverMissing(utf8: Octets -> bool, args: seq<Argument>)
    ensures TakeAll(START, args).Some? ==> BuildGraph(utf8, TakeAll(START, args).value.entries) != Err(MissingParent)
  {
    ParsedTracks(START, args);
    if TakeAll(START, args).Some? {
      BuildsExactly(utf8, TakeAll(START, args).value.entries);
    }
  }

  // Flattening

  function FlatMembers(ms: seq<Member>): seq<Entry> {
    if ms == [] then [] else FlatMembers(Front(ms)) + [Entry(MemberWord, PrintMember(Last(ms)))]
  }

  function FlatResource(r: Resource): seq<Entry> {
    [Entry(ResourceWord, r.kind)] + FlatMembers(r.members)
  }

  function FlatResources(rs: seq<Resource>): seq<Entry> {
    if rs == [] then [] else FlatResources(Front(rs)) + FlatResource(Last(rs))
  }

  function FlatRepresentation(r: Representation): seq<Entry> {
    [Entry(RepresentationWord, r.purpose)] + FlatResources(r.resources)
  }

  function Flatten(g: Graph): seq<Entry> {
    if g == [] then [] else Flatten(Front(g)) + FlatRepresentation(Last(g))
  }

  /** The options of the list that belong to the graph, in order. */
  function GraphEntries(entries: seq<Entry>): seq<Entry> {
    if entries == [] then []
    else GraphEntries(Front(entries)) + if GraphWord(Last(entries).option) then [Last(entries)] else []
  }

  lemma Around(raw: Octets, i: nat)
    requires i < |raw|
    ensures raw == raw[..i] + [raw[i]] + raw[i + 1..]
  {
  }

  lemma HexHasNoColon(b: Octets)
    ensures COLON !in LowerHex(b)
  {
    assert HexText(LowerHex(b));
  }

  /** A member is accepted exactly as it is printed. */
  lemma MemberExact(utf8: Octets -> bool, raw: Octets, m: Member)
    ensures ParseMember(utf8, raw) == Some(m)
       <==> raw == PrintMember(m) && utf8(m.name) && |m.name| <= 255 && |m.digest| == 32
  {
    var i := IndexOf(raw, COLON);
    if ParseMember(utf8, raw) == Some(m) {
      HexExact(raw[..i], 255, false, m.name);
      HexExact(raw[i + 1..], 32, true, m.digest);
      Around(raw, i);
    }
    if raw == PrintMember(m) && utf8(m.name) && |m.name| <= 255 && |m.digest| == 32 {
      MemberAccepted(utf8, raw, m);
    }
  }

  lemma MemberAccepted(utf8: Octets -> bool, raw: Octets, m: Member)
    requires raw == PrintMember(m) && utf8(m.name) && |m.name| <= 255 && |m.digest| == 32
    ensures ParseMember(utf8, raw) == Some(m)
  {
    var name, digest := LowerHex(m.name), LowerHex(m.digest);
    HexHasNoColon(m.name);
    HexHasNoColon(m.digest);
    IndexBehind(name, COLON, digest);
    assert raw[..|name|] == name && raw[|name| + 1..] == digest;
    HexExact(name, 255, false, m.name);
    HexExact(digest, 32, true, m.digest);
  }

  lemma FlattenSnoc(g: Graph, r: Representation)
    ensures Flatten(g + [r]) == Flatten(g) + FlatRepresentation(r)
  {
    Snoc(g, r);
  }

  lemma FlatResourcesSnoc(rs: seq<Resource>, r: Resource)
    ensures FlatResources(rs + [r]) == FlatResources(rs) + FlatResource(r)
  {
    Snoc(rs, r);
  }

  lemma FlatMembersSnoc(ms: seq<Member>, m: Member)
    ensures FlatMembers(ms + [m]) == FlatMembers(ms) + [Entry(MemberWord, PrintMember(m))]
  {
    Snoc(ms, m);
  }

  // One more entry at the end of a part is one more at the end of the whole

  lemma ResourceGains(s: Resource, s': Resource, m: Member, e: Entry)
    requires s' == Resource(s.kind, s.members + [m]) && e == Entry(MemberWord, PrintMember(m))
    ensures FlatResource(s') == FlatResource(s) + [e]
  {
    FlatMembersSnoc(s.members, m);
  }

  lemma ResourcesGain(rs: seq<Resource>, s: Resource, s': Resource, e: Entry)
    requires FlatResource(s') == FlatResource(s) + [e]
    ensures FlatResources(rs + [s']) == FlatResources(rs + [s]) + [e]
  {
    FlatResourcesSnoc(rs, s);
    FlatResourcesSnoc(rs, s');
  }

  lemma RepresentationGains(r: Representation, r': Representation, e: Entry)
    requires r'.purpose == r.purpose && FlatResources(r'.resources) == FlatResources(r.resources) + [e]
    ensures FlatRepresentation(r') == FlatRepresentation(r) + [e]
  {
  }

  lemma GraphGains(f: Graph, r: Representation, r': Representation, e: Entry)
    requires FlatRepresentation(r') == FlatRepresentation(r) + [e]
    ensures Flatten(f + [r']) == Flatten(f + [r]) + [e]
  {
    FlattenSnoc(f, r);
    FlattenSnoc(f, r');
  }

  lemma PushResource(f: Graph, r: Representation, kind: Octets, r': Representation, e: Entry)
    requires r' == Representation(r.purpose, r.resources + [Resource(kind, [])]) && e == Entry(ResourceWord, kind)
    ensures Flatten(f + [r']) == Flatten(f + [r]) + [e]
  {
    FlatResourcesSnoc(r.resources, Resource(kind, []));
    RepresentationGains(r, r', e);
    GraphGains(f, r, r', e);
  }

  lemma PushMember(f: Graph, r: Representation, rs: seq<Resource>, s: Resource, m: Member, r': Representation, e: Entry)
    requires r.resources == rs + [s] && r' == Representation(r.purpose, rs + [Resource(s.kind, s.members + [m])])
    requires e == Entry(MemberWord, PrintMember(m))
    ensures Flatten(f + [r']) == Flatten(f + [r]) + [e]
  {
    var s' := Resource(s.kind, s.members + [m]);
    ResourceGains(s, s', m, e);
    ResourcesGain(rs, s, s', e);
    RepresentationGains(r, r', e);
    GraphGains(f, r, r', e);
  }

  lemma PushFlattens(utf8: Octets -> bool, g: Graph, e: Entry)
    requires Push(utf8, g, e).Ok?
    ensures Flatten(Push(utf8, g, e).value) == Flatten(g) + if GraphWord(e.option) then [e] else []
  {
    match e.option
    case RepresentationWord => FlattenSnoc(g, Representation(e.raw, []));
    case ResourceWord =>
      assert g == Front(g) + [Last(g)];
      PushResource(Front(g), Last(g), e.raw, Last(Push(utf8, g, e).value), e);
    case MemberWord =>
      var m := ParseMember(utf8, e.raw).value;
      MemberExact(utf8, e.raw, m);
      var rs := Last(g).resources;
      assert g == Front(g) + [Last(g)] && rs == Front(rs) + [Last(rs)];
      PushMember(Front(g), Last(g), Front(rs), Last(rs), m, Last(Push(utf8, g, e).value), e);
    case _ =>
  }

  /** Flattening an accepted graph, with members printed in lowercase hex, gives back the graph's
      options in order. */
  lemma {:induction false} FlattenUndoesBuild(utf8: Octets -> bool, entries: seq<Entry>)
    requires BuildAll(utf8, entries).Ok?
    ensures Flatten(BuildAll(utf8, entries).value) == GraphEntries(entries)
  {
    if entries != [] {
      FlattenUndoesBuild(utf8, Front(entries));
      PushFlattens(utf8, BuildAll(utf8, Front(entries)).value, Last(entries));
    }
  }
}
