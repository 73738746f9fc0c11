/** The library configuration document: a header and one `KEY=value` line per set key, keys in
    increasing byte order. */
module Config {
  import opened Bytes
  import opened Encoding
  import opened Options

  const NEWLINE: Byte := 10
  const EQUALS: Byte := 61
  const HEADER: Octets := Ascii("MENGXIA_LIBRARY_CONFIG_V1") + [NEWLINE]

  // Byte order

  /** Lexicographic order, a proper prefix being less. */
  predicate Less(a: Octets, b: Octets) {
    if b == [] then false
    else if a == [] then true
    else if a[0] != b[0] then a[0] < b[0]
    else Less(a[1..], b[1..])
  }

  lemma {:induction false} LessIsStrict(a: Octets, b: Octets)
    requires Less(a, b)
    ensures a != b && !Less(b, a)
  {
    if a != [] && a[0] == b[0] {
      LessIsStrict(a[1..], b[1..]);
    }
  }

  lemma {:induction false} LessChains(a: Octets, b: Octets, c: Octets)
    requires Less(a, b) && Less(b, c)
    ensures Less(a, c)
  {
    if a != [] && a[0] == b[0] && b[0] == c[0] {
      LessChains(a[1..], b[1..], c[1..]);
    }
  }

  // Lines

  predicate Plain(line: Octets) {
    NEWLINE !in line
  }

  /** Splitting at newlines; never empty. */
  function Split(b: Octets): (lines: seq<Octets>)
    ensures |lines| > 0
  {
    if b == [] then [[]]
    else
      var rest := Split(b[1..]);
      if b[0] == NEWLINE then [[]] + rest else [[b[0]] + rest[0]] + rest[1..]
  }

  function Join(lines: seq<Octets>): Octets
    requires lines != []
  {
    if |lines| == 1 then lines[0] else lines[0] + [NEWLINE] + Join(lines[1..])
  }

  lemma {:induction false} SplitPlain(b: Octets)
    ensures forall i :: 0 <= i < |Split(b)| ==> Plain(Split(b)[i])
  {
    if b != [] {
      SplitPlain(b[1..]);
    }
  }

  lemma JoinEmptyLine(rest: seq<Octets>)
    requires rest != []
    ensures Join([[]] + rest) == [NEWLINE] + Join(rest)
  {
    assert ([[]] + rest)[1..] == rest;
  }

  lemma JoinLonger(x: Byte, rest: seq<Octets>, lines: seq<Octets>)
    requires rest != [] && lines == [[x] + rest[0]] + rest[1..]
    ensures Join(lines) == [x] + Join(rest)
  {
    assert lines[1..] == rest[1..];
    if |rest| > 1 {
      Prepended(x, rest[0], [NEWLINE], Join(rest[1..]));
    }
  }

  lemma Prepended(x: Byte, a: Octets, b: Octets, c: Octets)
    ensures [x] + a + b + c == [x] + (a + b + c)
  {
  }

  lemma HeadFirst(b: Octets)
    requires b != []
    ensures b == [b[0]] + b[1..]
  {
  }

  lemma {:induction false} JoinSplit(b: Octets)
    ensures Join(Split(b)) == b
  {
    if b != [] {
      var rest := Split(b[1..]);
      JoinSplit(b[1..]);
      HeadFirst(b);
      if b[0] == NEWLINE {
        JoinEmptyLine(rest);
      } else {
        JoinLonger(b[0], rest, Split(b));
      }
    }
  }

  lemma {:induction false} SplitPrepends(line: Octets, b: Octets)
    requires Plain(line)
    ensures Split(line + [NEWLINE] + b) == [line] + Split(b)
    ensures Split(line) == [line]
  {
    if line == [] {
      assert [] + [NEWLINE] + b == [NEWLINE] + b;
      assert ([NEWLINE] + b)[1..] == b;
    } else {
      assert forall i :: 0 <= i < |line[1..]| ==> line[1..][i] == line[i + 1];
      SplitPrepends(line[1..], b);
      assert (line + [NEWLINE] + b)[1..] == line[1..] + [NEWLINE] + b;
      assert [line[0]] + line[1..] == line;
    }
  }

  lemma {:induction false} SplitJoin(lines: seq<Octets>)
    requires lines != [] && forall i :: 0 <= i < |lines| ==> Plain(lines[i])
    ensures Split(Join(lines)) == lines
  {
    if |lines| == 1 {
      SplitPrepends(lines[0], []);
      assert lines == [lines[0]];
    } else {
      SplitJoin(lines[1..]);
      SplitPrepends(lines[0], Join(lines[1..]));
      assert lines == [lines[0]] + lines[1..];
    }
  }

  // One line

  predicate Printable(b: Octets) {
    forall i :: 0 <= i < |b| ==> b[i] >= 0x20 && b[i] != 0x7f
  }

  datatype Pair = Pair(key: Octets, value: Octets)

  function Line(p: Pair): Octets {
    p.key + [EQUALS] + p.value
  }

  function ParseLine(line: Octets): Option<Pair> {
    if !(3 <= |line| <= 2048) || !Printable(line) then None
    else
      var i := IndexOf(line, EQUALS);
      if i == |line| then None else Some(Pair(line[..i], line[i + 1..]))
  }

  /** Reading a line and writing a pair are inverse, within the length and character rules. */
  lemma LineExact(line: Octets, p: Pair)
    ensures ParseLine(line) == Some(p)
       <==> line == Line(p) && EQUALS !in p.key && 3 <= |line| <= 2048 && Printable(line)
  {
    if ParseLine(line) == Some(p) {
      var i := IndexOf(line, EQUALS);
      assert line == line[..i] + [line[i]] + line[i + 1..];
    }
    if line == Line(p) && EQUALS !in p.key {
      IndexBehind(p.key, EQUALS, p.value);
      assert line[..|p.key|] == p.key && line[|p.key| + 1..] == p.value;
    }
  }

  // The document, over any table of keys

  type Values = seq<Option<Octets>>

  predicate GoodKey(key: Octets) {
    key != [] && EQUALS !in key && Printable(key)
  }

  predicate KeyAt(keys: seq<Octets>, i: nat)
    requires i < |keys|
  {
    GoodKey(keys[i])
  }

  predicate InOrder(keys: seq<Octets>, i: nat, j: nat)
    requires i < j < |keys|
  {
    Less(keys[i], keys[j])
  }

  predicate GoodKeys(keys: seq<Octets>) {
    && |keys| <= 64
    && (forall i :: 0 <= i < |keys| ==> KeyAt(keys, i))
    && (forall i, j :: 0 <= i < j < |keys| ==> InOrder(keys, i, j))
  }

  lemma KeysDiffer(keys: seq<Octets>, i: nat, j: nat)
    requires GoodKeys(keys) && i < j < |keys|
    ensures Less(keys[i], keys[j]) && keys[i] != keys[j] && !Less(keys[j], keys[i])
  {
    assert InOrder(keys, i, j);
    LessIsStrict(keys[i], keys[j]);
  }

  predicate GoodValue(key: Octets, value: Octets) {
    value != [] && Printable(value) && |key| + 1 + |value| <= 2048
  }

  predicate GoodFrom(keys: seq<Octets>, values: Values, low: nat) {
    |values| == |keys| && forall i :: low <= i < |keys| && values[i].Some? ==> GoodValue(keys[i], values[i].value)
  }

  function Lookup(keys: seq<Octets>, key: Octets): Option<nat> {
    if keys == [] then None
    else if keys[0] == key then Some(0)
    else
      match Lookup(keys[1..], key)
      case None => None
      case Some(i) => Some(i + 1)
  }

  lemma {:induction false} LookupExact(keys: seq<Octets>, key: Octets)
    ensures Lookup(keys, key).Some? ==> Lookup(keys, key).value < |keys| && keys[Lookup(keys, key).value] == key
    ensures Lookup(keys, key).None? ==> key !in keys
  {
    if keys != [] && keys[0] != key {
      LookupExact(keys[1..], key);
    }
  }

  lemma LookupOwn(keys: seq<Octets>, i: nat)
    requires GoodKeys(keys) && i < |keys|
    ensures Lookup(keys, keys[i]) == Some(i)
  {
    LookupExact(keys, keys[i]);
    var j := Lookup(keys, keys[i]).value;
    if j < i {
      KeysDiffer(keys, j, i);
    } else if i < j {
      KeysDiffer(keys, i, j);
    }
  }

  /** The key a line sets, after `previous` and `count` turns of the parser's loop. */
  function Place(keys: seq<Octets>, line: Octets, previous: Option<Octets>, count: nat): (r: Option<nat>)
    ensures r.Some? ==> r.value < |keys| && ParseLine(line).Some? && keys[r.value] == ParseLine(line).value.key
  {
    if count + 1 > 64 then None
    else
      match ParseLine(line)
      case None => None
      case Some(p) =>
        if p.value == [] || (previous.Some? && !Less(previous.value, p.key)) then None
        else
          LookupExact(keys, p.key);
          Lookup(keys, p.key)
  }

  /** One turn of the loop: a key that is set already is a duplicate. */
  function Turn(keys: seq<Octets>, line: Octets, values: Values, previous: Option<Octets>, count: nat): (r: Option<nat>)
    requires |values| == |keys|
    ensures r.Some? ==> r == Place(keys, line, previous, count) && values[r.value].None?
  {
    match Place(keys, line, previous, count)
    case None => None
    case Some(i) => if values[i].Some? then None else Some(i)
  }

  function Fold(keys: seq<Octets>, lines: seq<Octets>, values: Values, previous: Option<Octets>, count: nat): Option<Values>
    requires |values| == |keys|
    decreases |lines|
  {
    if lines == [] then Some(values)
    else
      match Turn(keys, lines[0], values, previous, count)
      case None => None
      case Some(i) =>
        var p := ParseLine(lines[0]).value;
        Fold(keys, lines[1..], values[i := Some(p.value)], Some(p.key), count + 1)
  }

  /** The lines of the keys that are set, from key `low` on. */
  function PrintFrom(keys: seq<Octets>, values: Values, low: nat): seq<Octets>
    requires |values| == |keys| && low <= |keys|
    decreases |keys| - low
  {
    if low == |keys| then []
    else if values[low].None? then PrintFrom(keys, values, low + 1)
    else [Line(Pair(keys[low], values[low].value))] + PrintFrom(keys, values, low + 1)
  }

  /** The first key from `low` on that is set, or the number of keys. */
  function NextSet(values: Values, low: nat): (i: nat)
    requires low <= |values|
    ensures low <= i <= |values| && (i < |values| ==> values[i].Some?)
    ensures forall j :: low <= j < i ==> values[j].None?
    decreases |values| - low
  {
    if low == |values| || values[low].Some? then low else NextSet(values, low + 1)
  }

  lemma {:induction false} PrintSkips(keys: seq<Octets>, values: Values, low: nat, i: nat)
    requires |values| == |keys| && low <= i <= |keys| && forall j :: low <= j < i ==> values[j].None?
    ensures PrintFrom(keys, values, low) == PrintFrom(keys, values, i)
    decreases i - low
  {
    if low < i {
      PrintSkips(keys, values, low + 1, i);
    }
  }

  /** The loop's state after the key before `low`. */
  ghost predicate Reached(keys: seq<Octets>, values: Values, previous: Option<Octets>, count: nat, low: nat) {
    && |values| == |keys| && count <= low <= |keys|
    && previous == (if low == 0 then None else Some(keys[low - 1]))
    && forall j :: low <= j < |keys| ==> values[j].None?
  }

  lemma NotLess(a: Octets)
    ensures !Less(a, a)
  {
    if Less(a, a) {
      LessIsStrict(a, a);
    }
  }

  lemma PlaceIsUnset(keys: seq<Octets>, line: Octets, values: Values, previous: Option<Octets>, count: nat, low: nat)
    requires GoodKeys(keys) && Reached(keys, values, previous, count, low) && Place(keys, line, previous, count).Some?
    ensures low <= Place(keys, line, previous, count).value
  {
    var i := Place(keys, line, previous, count).value;
    if i < low {
      if i < low - 1 {
        KeysDiffer(keys, i, low - 1);
      } else {
        NotLess(keys[i]);
      }
    }
  }

  /** What a pair's value is, when its line is well formed. */
  lemma ValueOfLine(line: Octets, p: Pair)
    requires line == Line(p) && |line| <= 2048 && Printable(line) && p.value != []
    ensures GoodValue(p.key, p.value)
  {
    forall k | 0 <= k < |p.value| ensures p.value[k] >= 0x20 && p.value[k] != 0x7f {
      assert line[|p.key| + 1 + k] == p.value[k];
    }
  }

  lemma PlacedLine(keys: seq<Octets>, line: Octets, previous: Option<Octets>, count: nat, i: nat, p: Pair)
    requires Place(keys, line, previous, count) == Some(i) && ParseLine(line) == Some(p)
    ensures i < |keys| && keys[i] == p.key && line == Line(p) && GoodValue(p.key, p.value)
  {
    LineExact(line, p);
    ValueOfLine(line, p);
  }

  lemma LinePlaced(keys: seq<Octets>, line: Octets, values: Values, previous: Option<Octets>, count: nat, low: nat, i: nat, p: Pair)
    requires GoodKeys(keys) && Reached(keys, values, previous, count, low) && low <= i < |keys|
    requires ParseLine(line) == Some(p) && p.key == keys[i] && p.value != []
    ensures Turn(keys, line, values, previous, count) == Some(i)
  {
    LookupOwn(keys, i);
    if low > 0 {
      KeysDiffer(keys, low - 1, i);
    }
  }

  /** The key of a line is the bytes before its first equals sign. */
  lemma SameKey(line: Octets, p: Pair, key: Octets)
    requires ParseLine(line) == Some(p) && line == Line(Pair(key, p.value))
    ensures p.key == key
  {
    LineExact(line, p);
    assert line[..|line| - |p.value| - 1] == key && line[..|line| - |p.value| - 1] == p.key;
  }

  /** A turn takes a line exactly when it is that of a later key with a good value. */
  lemma TurnExact(keys: seq<Octets>, line: Octets, values: Values, previous: Option<Octets>, count: nat, low: nat, i: nat)
    requires GoodKeys(keys) && Reached(keys, values, previous, count, low) && i < |keys|
    ensures Turn(keys, line, values, previous, count) == Some(i)
       <==> && low <= i && ParseLine(line).Some? && line == Line(Pair(keys[i], ParseLine(line).value.value))
            && GoodValue(keys[i], ParseLine(line).value.value)
  {
    if ParseLine(line).Some? {
      var p := ParseLine(line).value;
      if Turn(keys, line, values, previous, count) == Some(i) {
        PlacedLine(keys, line, previous, count, i, p);
        PlaceIsUnset(keys, line, values, previous, count, low);
      }
      if low <= i && line == Line(Pair(keys[i], p.value)) && GoodValue(keys[i], p.value) {
        SameKey(line, p, keys[i]);
        LinePlaced(keys, line, values, previous, count, low, i, p);
      }
    }
  }

  lemma ReachedNext(keys: seq<Octets>, values: Values, previous: Option<Octets>, count: nat, low: nat, i: nat, value: Octets)
    requires Reached(keys, values, previous, count, low) && low <= i < |keys|
    ensures Reached(keys, values[i := Some(value)], Some(keys[i]), count + 1, i + 1)
  {
  }

  lemma GoodLine(key: Octets, value: Octets)
    requires GoodKey(key) && GoodValue(key, value)
    ensures ParseLine(Line(Pair(key, value))) == Some(Pair(key, value))
  {
    LineExact(Line(Pair(key, value)), Pair(key, value));
  }

  lemma TurnTaken(keys: seq<Octets>, line: Octets, values: Values, previous: Option<Octets>, count: nat, low: nat, i: nat, p: Pair)
    requires GoodKeys(keys) && Reached(keys, values, previous, count, low)
    requires Turn(keys, line, values, previous, count) == Some(i) && ParseLine(line) == Some(p)
    ensures low <= i < |keys| && p.key == keys[i] && line == Line(Pair(keys[i], p.value)) && GoodValue(keys[i], p.value)
    ensures Reached(keys, values[i := Some(p.value)], Some(p.key), count + 1, i + 1)
  {
    TurnExact(keys, line, values, previous, count, low, i);
    ReachedNext(keys, values, previous, count, low, i, p.value);
  }

  lemma HeadTail(lines: seq<Octets>, head: Octets, tail: seq<Octets>)
    requires lines != [] && lines[0] == head && lines[1..] == tail
    ensures lines == [head] + tail
  {
  }

  /** The two agree on the keys below `low`. */
  ghost predicate Agree(values: Values, out: Values, low: nat) {
    low <= |out| == |values| && out[..low] == values[..low]
  }

  /** What the keys up to `i` hold, when only `i` was set since `low`. */
  lemma SetSince(values: Values, out: Values, low: nat, i: nat, value: Octets)
    requires low <= i < |values| && Agree(values[i := Some(value)], out, i + 1)
    ensures Agree(values, out, low) && out[i] == Some(value)
    ensures forall j :: low <= j < i ==> out[j] == values[j]
  {
    assert forall j :: 0 <= j <= i ==> out[j] == out[..i + 1][j];
  }

  lemma PrintNext(keys: seq<Octets>, out: Values, low: nat, i: nat, value: Octets)
    requires |out| == |keys| && low <= i < |keys| && out[i] == Some(value) && forall j :: low <= j < i ==> out[j].None?
    ensures PrintFrom(keys, out, low) == [Line(Pair(keys[i], value))] + PrintFrom(keys, out, i + 1)
    ensures GoodFrom(keys, out, i + 1) && GoodValue(keys[i], value) ==> GoodFrom(keys, out, low)
  {
    PrintSkips(keys, out, low, i);
  }

  lemma {:induction false} FoldPrints(keys: seq<Octets>, lines: seq<Octets>, values: Values, previous: Option<Octets>, count: nat,
                                      low: nat, out: Values)
    requires GoodKeys(keys) && Reached(keys, values, previous, count, low) && Fold(keys, lines, values, previous, count) == Some(out)
    ensures Agree(values, out, low) && GoodFrom(keys, out, low) && lines == PrintFrom(keys, out, low)
    decreases |lines|
  {
    if lines == [] {
      PrintSkips(keys, out, low, |keys|);
    } else {
      var i := Turn(keys, lines[0], values, previous, count).value;
      var p := ParseLine(lines[0]).value;
      TurnTaken(keys, lines[0], values, previous, count, low, i, p);
      FoldPrints(keys, lines[1..], values[i := Some(p.value)], Some(p.key), count + 1, i + 1, out);
      SetSince(values, out, low, i, p.value);
      PrintNext(keys, out, low, i, p.value);
      HeadTail(lines, lines[0], lines[1..]);
    }
  }

  lemma SameValues(values: Values, out: Values, low: nat)
    requires Agree(values, out, low)
    requires forall j :: low <= j < |out| ==> out[j].None? && values[j].None?
    ensures out == values
  {
    assert forall j :: 0 <= j < low ==> out[j] == out[..low][j] && values[j] == values[..low][j];
  }

  lemma SameUpTo(values: Values, out: Values, low: nat, i: nat, value: Octets)
    requires Agree(values, out, low) && low <= i < |out| && out[i] == Some(value)
    requires forall j :: low <= j < i ==> out[j].None? && values[j].None?
    ensures Agree(values[i := Some(value)], out, i + 1)
  {
    assert forall j :: 0 <= j < low ==> out[j] == out[..low][j] && values[j] == values[..low][j];
  }

  /** What the loop has reached behind the next key that is set. */
  lemma ReachedSet(keys: seq<Octets>, values: Values, previous: Option<Octets>, count: nat, low: nat, out: Values, i: nat,
                   value: Octets, values': Values)
    requires Reached(keys, values, previous, count, low) && low <= i < |keys| && GoodFrom(keys, out, low)
    requires Agree(values, out, low) && out[i] == Some(value) && forall j :: low <= j < i ==> out[j].None?
    requires values' == values[i := Some(value)]
    ensures Reached(keys, values', Some(keys[i]), count + 1, i + 1)
    ensures Agree(values', out, i + 1) && GoodFrom(keys, out, i + 1) && GoodValue(keys[i], value)
  {
    ReachedNext(keys, values, previous, count, low, i, value);
    SameUpTo(values, out, low, i, value);
  }

  lemma FoldNext(keys: seq<Octets>, line: Octets, rest: seq<Octets>, lines: seq<Octets>, values: Values, previous: Option<Octets>,
                 count: nat, i: nat, value: Octets, values': Values)
    requires |values| == |keys| && Turn(keys, line, values, previous, count) == Some(i)
    requires ParseLine(line) == Some(Pair(keys[i], value)) && values' == values[i := Some(value)] && lines == [line] + rest
    ensures Fold(keys, lines, values, previous, count) == Fold(keys, rest, values', Some(keys[i]), count + 1)
  {
    assert lines[1..] == rest;
  }

  /** The line of the next key that is set is taken by one turn. */
  lemma FoldSet(keys: seq<Octets>, values: Values, previous: Option<Octets>, count: nat, low: nat, out: Values, i: nat,
                value: Octets, values': Values, rest: seq<Octets>, lines: seq<Octets>)
    requires GoodKeys(keys) && Reached(keys, values, previous, count, low) && low <= i < |keys| && GoodValue(keys[i], value)
    requires values' == values[i := Some(value)] && lines == [Line(Pair(keys[i], value))] + rest
    ensures Fold(keys, lines, values, previous, count) == Fold(keys, rest, values', Some(keys[i]), count + 1)
  {
    var line := Line(Pair(keys[i], value));
    assert KeyAt(keys, i);
    GoodLine(keys[i], value);
    TurnExact(keys, line, values, previous, count, low, i);
    FoldNext(keys, line, rest, lines, values, previous, count, i, value, values');
  }

  lemma NoneSetFolds(keys: seq<Octets>, values: Values, previous: Option<Octets>, count: nat, low: nat, out: Values, lines: seq<Octets>)
    requires Reached(keys, values, previous, count, low) && Agree(values, out, low)
    requires forall j :: low <= j < |keys| ==> out[j].None?
    requires lines == PrintFrom(keys, out, low)
    ensures Fold(keys, lines, values, previous, count) == Some(out)
  {
    PrintSkips(keys, out, low, |keys|);
    SameValues(values, out, low);
  }

  lemma {:induction false} PrintFolds(keys: seq<Octets>, values: Values, previous: Option<Octets>, count: nat, low: nat, out: Values,
                                      lines: seq<Octets>)
    requires GoodKeys(keys) && Reached(keys, values, previous, count, low)
    requires Agree(values, out, low) && GoodFrom(keys, out, low)
    requires lines == PrintFrom(keys, out, low)
    ensures Fold(keys, lines, values, previous, count) == Some(out)
    decreases |keys| - low
  {
    var i := NextSet(out, low);
    if i == |keys| {
      NoneSetFolds(keys, values, previous, count, low, out, lines);
    } else {
      var value := out[i].value;
      var values', rest := values[i := Some(value)], PrintFrom(keys, out, i + 1);
      ReachedSet(keys, values, previous, count, low, out, i, value, values');
      PrintNext(keys, out, low, i, value);
      FoldSet(keys, values, previous, count, low, out, i, value, values', rest, lines);
      PrintFolds(keys, values', Some(keys[i]), count + 1, i + 1, out, rest);
    }
  }

  function Body(lines: seq<Octets>): Octets {
    if lines == [] then [] else Join(lines) + [NEWLINE]
  }

  function Print(keys: seq<Octets>, values: Values): Octets
    requires |values| == |keys|
  {
    HEADER + Body(PrintFrom(keys, values, 0))
  }

  function Unset(n: nat): (values: Values)
    ensures |values| == n
  {
    seq(n, _ => None)
  }

  /** `LibraryConfigDocument::parse`. */
  function Parse(keys: seq<Octets>, bytes: Octets): Option<Values> {
    if |bytes| > 16_384 || !(HEADER <= bytes) || bytes[|bytes| - 1] != NEWLINE || 0 in bytes || 13 in bytes then None
    else
      var body := bytes[|HEADER|..];
      if body == [] then Some(Unset(|keys|))
      else if body[..|body| - 1] == [] then None
      else Fold(keys, Split(body[..|body| - 1]), Unset(|keys|), None, 0)
  }

  predicate GoodLines(lines: seq<Octets>) {
    forall i :: 0 <= i < |lines| ==> |lines[i]| >= 3 && Printable(lines[i])
  }

  lemma {:induction false} PrintedLines(keys: seq<Octets>, values: Values, low: nat)
    requires GoodKeys(keys) && low <= |keys| && GoodFrom(keys, values, low)
    ensures GoodLines(PrintFrom(keys, values, low))
    decreases |keys| - low
  {
    if low < |keys| {
      PrintedLines(keys, values, low + 1);
      assert KeyAt(keys, low);
    }
  }

  lemma {:induction false} JoinClean(lines: seq<Octets>, x: Byte)
    requires lines != [] && GoodLines(lines) && x < 0x20 && x != NEWLINE
    ensures x !in Join(lines) && |Join(lines)| >= 3
  {
    if |lines| > 1 {
      JoinClean(lines[1..], x);
    }
  }

  predicate Visible(s: string) {
    forall i :: 0 <= i < |s| ==> ' ' < s[i] <= '~'
  }

  lemma VisibleAscii(s: string, x: Byte)
    requires Visible(s) && x <= 0x20
    ensures x !in Ascii(s)
  {
  }

  lemma HeaderClean()
    ensures 0 !in HEADER && 13 !in HEADER && |HEADER| > 0 && HEADER[|HEADER| - 1] == NEWLINE
  {
    assert Visible("MENGXIA_LIBRARY_CONFIG_V1");
    VisibleAscii("MENGXIA_LIBRARY_CONFIG_V1", 0);
    VisibleAscii("MENGXIA_LIBRARY_CONFIG_V1", 13);
  }

  lemma BodyPrints(keys: seq<Octets>, inner: Octets, lines: seq<Octets>, out: Values)
    requires GoodKeys(keys) && lines == Split(inner) && Fold(keys, lines, Unset(|keys|), None, 0) == Some(out)
    ensures GoodFrom(keys, out, 0) && inner + [NEWLINE] == Body(PrintFrom(keys, out, 0))
  {
    FoldPrints(keys, lines, Unset(|keys|), None, 0, 0, out);
    JoinSplit(inner);
  }

  lemma LastApart(body: Octets, last: Byte)
    requires body != [] && body[|body| - 1] == last
    ensures body == body[..|body| - 1] + [last]
  {
  }

  lemma ParsePrints(keys: seq<Octets>, bytes: Octets, body: Octets, out: Values)
    requires GoodKeys(keys) && Parse(keys, bytes) == Some(out) && body == bytes[|HEADER|..]
    ensures GoodFrom(keys, out, 0) && body == Body(PrintFrom(keys, out, 0))
  {
    if body == [] {
      PrintSkips(keys, out, 0, |keys|);
    } else {
      assert body[|body| - 1] == bytes[|bytes| - 1];
      LastApart(body, NEWLINE);
      BodyPrints(keys, body[..|body| - 1], Split(body[..|body| - 1]), out);
    }
  }

  lemma PrintParses(keys: seq<Octets>, out: Values)
    requires GoodKeys(keys) && GoodFrom(keys, out, 0) && |Print(keys, out)| <= 16_384
    ensures Parse(keys, Print(keys, out)) == Some(out)
  {
    var lines, bytes := PrintFrom(keys, out, 0), Print(keys, out);
    var body := bytes[|HEADER|..];
    assert body == Body(lines) && HEADER <= bytes;
    HeaderClean();
    PrintedLines(keys, out, 0);
    PrintFolds(keys, Unset(|keys|), None, 0, 0, out, lines);
    if lines == [] {
      assert bytes == HEADER;
    } else {
      JoinClean(lines, 0);
      JoinClean(lines, 13);
      SplitJoin(lines);
      assert body[..|body| - 1] == Join(lines);
    }
  }

  /** The accepted documents are exactly the printed ones: parsing undoes printing, and printing what
      was parsed gives back every byte. */
  lemma DocumentsAreCanonical(keys: seq<Octets>, bytes: Octets, out: Values)
    requires GoodKeys(keys)
    ensures Parse(keys, bytes) == Some(out) <==> GoodFrom(keys, out, 0) && bytes == Print(keys, out) && |bytes| <= 16_384
  {
    if Parse(keys, bytes) == Some(out) {
      ParsePrints(keys, bytes, bytes[|HEADER|..], out);
      assert bytes == HEADER + bytes[|HEADER|..];
    }
    if GoodFrom(keys, out, 0) && bytes == Print(keys, out) && |bytes| <= 16_384 {
      PrintParses(keys, out);
    }
  }

  // The test for duplicates

  /** The loop without its test for duplicates. */
  function LooseFold(keys: seq<Octets>, lines: seq<Octets>, values: Values, previous: Option<Octets>, count: nat): Option<Values>
    requires |values| == |keys|
    decreases |lines|
  {
    if lines == [] then Some(values)
    else
      match Place(keys, lines[0], previous, count)
      case None => None
      case Some(i) =>
        var p := ParseLine(lines[0]).value;
        LooseFold(keys, lines[1..], values[i := Some(p.value)], Some(p.key), count + 1)
  }

  lemma {:induction false} FoldIsLoose(keys: seq<Octets>, lines: seq<Octets>, values: Values, previous: Option<Octets>, count: nat,
                                       low: nat)
    requires GoodKeys(keys) && Reached(keys, values, previous, count, low)
    ensures Fold(keys, lines, values, previous, count) == LooseFold(keys, lines, values, previous, count)
    decreases |lines|
  {
    if lines != [] && Place(keys, lines[0], previous, count).Some? {
      var i, p := Place(keys, lines[0], previous, count).value, ParseLine(lines[0]).value;
      PlaceIsUnset(keys, lines[0], values, previous, count, low);
      ReachedNext(keys, values, previous, count, low, i, p.value);
      FoldIsLoose(keys, lines[1..], values[i := Some(p.value)], Some(p.key), count + 1, i + 1);
    }
  }

  /** On every document the parser answers as it would without its test for duplicates: the order of
      the keys already rules them out. */
  lemma NoDuplicate(keys: seq<Octets>, lines: seq<Octets>)
    requires GoodKeys(keys)
    ensures Fold(keys, lines, Unset(|keys|), None, 0) == LooseFold(keys, lines, Unset(|keys|), None, 0)
  {
    FoldIsLoose(keys, lines, Unset(|keys|), None, 0, 0);
  }

  /** The parser's loop over its value array. */
  method ParseDocument(keys: seq<Octets>, bytes: Octets) returns (r: Option<Values>)
    ensures r == Parse(keys, bytes)
  {
    if |bytes| > 16_384 || !(HEADER <= bytes) || bytes[|bytes| - 1] != NEWLINE || 0 in bytes || 13 in bytes {
      return None;
    }
    var body := bytes[|HEADER|..];
    if body == [] {
      return Some(Unset(|keys|));
    }
    var inner := body[..|body| - 1];
    if inner == [] {
      return None;
    }
    var lines := Split(inner);
    var values := new Option<Octets>[|keys|](_ => None);
    assert values[..] == Unset(|keys|);
    var previous: Option<Octets>, count := None, 0;
    for i := 0 to |lines|
      invariant count == i
      invariant Fold(keys, lines, Unset(|keys|), None, 0) == Fold(keys, lines[i..], values[..], previous, count)
    {
      ghost var before := values[..];
      var line := lines[i];
      assert lines[i..][0] == line && lines[i..][1..] == lines[i + 1..];
      var k := Turn(keys, line, values[..], previous, count);
      if k.None? {
        return None;
      }
      var p := ParseLine(line).value;
      count := count + 1;
      values[k.value] := Some(p.value);
      assert values[..] == before[k.value := Some(p.value)];
      previous := Some(p.key);
    }
    r := Some(values[..]);
  }
}

/** The 26 keys the daemon knows, in runs short enough to compare at a glance. */
module ConfigKeys {
  import opened Bytes
  import opened Config
  import opened Encoding
  import opened Options

  function Key(name: string): Octets {
    Ascii("MENGXIA_") + Ascii(name)
  }

  function Two(a: string, b: string): seq<Octets> {
    [Key(a), Key(b)]
  }

  function Three(a: string, b: string, c: string): seq<Octets> {
    [Key(a), Key(b), Key(c)]
  }

  const LOCATION := Two("BLOB_ROOT", "CLIENT_ENDPOINT")
  const TIMEOUT := Two("CLIENT_HANDSHAKE_TIMEOUT_MS", "CLIENT_OPERATION_TIMEOUT_MS")
  const DATABASE := Three("DB_BUSY_TIMEOUT_MS", "DB_READ_CONNECTIONS", "DB_WRITE_QUEUE")
  const INGEST := Two("HASH_CONCURRENCY", "INGEST_SHUTDOWN_TIMEOUT_MS")
  const ROOT := Two("LIBRARY_ROOT", "LOG_LEVEL")
  const MAX_COUNT := Two("MAX_CLIENT_SESSIONS", "MAX_CONCURRENT_INGESTS")
  const MAX_FRAME := Two("MAX_DECODE_DEPTH", "MAX_FRAME_BYTES")
  const MAX_INGEST := Two("MAX_INGEST_BYTES", "MAX_INGEST_OPERATION_TIMEOUT_MS")
  const MAX_OPERATION := Two("MAX_MATERIALIZE_OPERATION_TIMEOUT_MS", "MAX_METADATA_OPERATION_TIMEOUT_MS")
  const MAX_REST := Three("MAX_PENDING_HANDSHAKES", "MAX_STAGING_BYTES", "MAX_VERIFY_OPERATION_TIMEOUT_MS")
  const MIN_FREE := Two("MIN_FREE_BYTES", "MIN_FREE_PERCENT")
  const STREAM := Two("STORAGE_IO_CONCURRENCY", "STREAM_BUFFER_BYTES")

  const KEYS: seq<Octets> :=
    LOCATION + TIMEOUT + DATABASE + INGEST + ROOT + MAX_COUNT
    + MAX_FRAME + MAX_INGEST + MAX_OPERATION + MAX_REST + MIN_FREE + STREAM

  predicate Upper(s: string) {
    forall i :: 0 <= i < |s| ==> 'A' <= s[i] <= 'Z' || s[i] == '_'
  }

  lemma UpperIsGood(name: string)
    requires Upper(name)
    ensures GoodKey(Key(name))
  {
    assert Upper("MENGXIA_");
    assert forall i :: 0 <= i < |Ascii("MENGXIA_")| ==> Ascii("MENGXIA_")[i] == "MENGXIA_"[i] as int;
    assert forall i :: 0 <= i < |Ascii(name)| ==> Ascii(name)[i] == name[i] as int;
  }

  /** Equal up to `d`, and less there. */
  lemma {:induction false} LessAt(a: Octets, b: Octets, d: nat)
    requires d < |a| && d < |b| && a[..d] == b[..d] && a[d] < b[d]
    ensures Less(a, b)
  {
    if d > 0 {
      assert a[0] == a[..d][0] && b[0] == b[..d][0];
      assert a[1..][..d - 1] == a[..d][1..] && b[1..][..d - 1] == b[..d][1..];
      LessAt(a[1..], b[1..], d - 1);
    }
  }

  lemma NameLess(a: string, b: string, d: nat)
    requires d < |a| && d < |b| && a[..d] == b[..d] && a[d] < b[d] <= '_'
    ensures Less(Key(a), Key(b))
  {
    var x, y := Key(a), Key(b);
    assert forall i :: 0 <= i < d ==> a[..d][i] == a[i] && b[..d][i] == b[i];
    assert x[..8 + d] == y[..8 + d];
    assert x[8 + d] == a[d] as int && y[8 + d] == b[d] as int;
    LessAt(x, y, 8 + d);
  }

  lemma GoodPair(a: string, b: string, d: nat)
    requires Upper(a) && Upper(b) && d < |a| && d < |b| && a[..d] == b[..d] && a[d] < b[d]
    ensures GoodKeys(Two(a, b))
  {
    UpperIsGood(a);
    UpperIsGood(b);
    NameLess(a, b, d);
  }

  lemma GoodTriple(a: string, b: string, c: string, d: nat, e: nat)
    requires Upper(a) && Upper(b) && d < |a| && d < |b| && a[..d] == b[..d] && a[d] < b[d]
    requires Upper(c) && e < |b| && e < |c| && b[..e] == c[..e] && b[e] < c[e]
    ensures GoodKeys(Three(a, b, c))
  {
    UpperIsGood(a);
    UpperIsGood(b);
    UpperIsGood(c);
    NameLess(a, b, d);
    NameLess(b, c, e);
    LessChains(Key(a), Key(b), Key(c));
  }

  lemma LessAcross(xs: seq<Octets>, ys: seq<Octets>, i: nat, j: nat)
    requires GoodKeys(xs) && GoodKeys(ys) && i < |xs| && j < |ys| && Less(xs[|xs| - 1], ys[0])
    ensures Less(xs[i], ys[j])
  {
    if i < |xs| - 1 {
      KeysDiffer(xs, i, |xs| - 1);
      LessChains(xs[i], xs[|xs| - 1], ys[0]);
    }
    if j > 0 {
      KeysDiffer(ys, 0, j);
      LessChains(xs[i], ys[0], ys[j]);
    }
  }

  /** A run followed by a later run is a run. */
  lemma GoodConcat(xs: seq<Octets>, ys: seq<Octets>)
    requires GoodKeys(xs) && GoodKeys(ys) && xs != [] && ys != [] && |xs| + |ys| <= 64
    requires Less(xs[|xs| - 1], ys[0])
    ensures GoodKeys(xs + ys)
  {
    forall i | 0 <= i < |xs + ys| ensures KeyAt(xs + ys, i) {
      assert if i < |xs| then KeyAt(xs, i) else KeyAt(ys, i - |xs|);
    }
    forall i, j | 0 <= i < j < |xs + ys| ensures InOrder(xs + ys, i, j) {
      if j < |xs| {
        assert InOrder(xs, i, j);
      } else if |xs| <= i {
        assert InOrder(ys, i - |xs|, j - |xs|);
      } else {
        LessAcross(xs, ys, i, j - |xs|);
      }
    }
  }

  lemma GoodLocation()
    ensures GoodKeys(LOCATION)
  {
    GoodPair("BLOB_ROOT", "CLIENT_ENDPOINT", 0);
  }

  lemma GoodTimeout()
    ensures GoodKeys(TIMEOUT)
  {
    GoodPair("CLIENT_HANDSHAKE_TIMEOUT_MS", "CLIENT_OPERATION_TIMEOUT_MS", 7);
  }

  lemma GoodDatabase()
    ensures GoodKeys(DATABASE)
  {
    GoodTriple("DB_BUSY_TIMEOUT_MS", "DB_READ_CONNECTIONS", "DB_WRITE_QUEUE", 3, 3);
  }

  lemma GoodIngest()
    ensures GoodKeys(INGEST)
  {
    GoodPair("HASH_CONCURRENCY", "INGEST_SHUTDOWN_TIMEOUT_MS", 0);
  }

  lemma GoodRoot()
    ensures GoodKeys(ROOT)
  {
    GoodPair("LIBRARY_ROOT", "LOG_LEVEL", 1);
  }

  lemma GoodMaxCount()
    ensures GoodKeys(MAX_COUNT)
  {
    GoodPair("MAX_CLIENT_SESSIONS", "MAX_CONCURRENT_INGESTS", 5);
  }

  lemma GoodMaxFrame()
    ensures GoodKeys(MAX_FRAME)
  {
    GoodPair("MAX_DECODE_DEPTH", "MAX_FRAME_BYTES", 4);
  }

  lemma GoodMaxIngest()
    ensures GoodKeys(MAX_INGEST)
  {
    GoodPair("MAX_INGEST_BYTES", "MAX_INGEST_OPERATION_TIMEOUT_MS", 11);
  }

  lemma UpperMaterialize()
    ensures Upper("MAX_MATERIALIZE_OPERATION_TIMEOUT_MS")
  {
  }

  lemma UpperMetadata()
    ensures Upper("MAX_METADATA_OPERATION_TIMEOUT_MS")
  {
  }

  lemma GoodMaxOperation()
    ensures GoodKeys(MAX_OPERATION)
  {
    UpperMaterialize();
    UpperMetadata();
    GoodPair("MAX_MATERIALIZE_OPERATION_TIMEOUT_MS", "MAX_METADATA_OPERATION_TIMEOUT_MS", 5);
  }

  lemma GoodMaxRest()
    ensures GoodKeys(MAX_REST)
  {
    GoodTriple("MAX_PENDING_HANDSHAKES", "MAX_STAGING_BYTES", "MAX_VERIFY_OPERATION_TIMEOUT_MS", 4, 4);
  }

  lemma GoodMinFree()
    ensures GoodKeys(MIN_FREE)
  {
    GoodPair("MIN_FREE_BYTES", "MIN_FREE_PERCENT", 9);
  }

  lemma GoodStream()
    ensures GoodKeys(STREAM)
  {
    GoodPair("STORAGE_IO_CONCURRENCY", "STREAM_BUFFER_BYTES", 2);
  }

  lemma RunsOrdered0()
    ensures Less(LOCATION[1], TIMEOUT[0])
    ensures Less(TIMEOUT[1], DATABASE[0])
    ensures Less(DATABASE[2], INGEST[0])
  {
    NameLess("CLIENT_ENDPOINT", "CLIENT_HANDSHAKE_TIMEOUT_MS", 7);
    NameLess("CLIENT_OPERATION_TIMEOUT_MS", "DB_BUSY_TIMEOUT_MS", 0);
    NameLess("DB_WRITE_QUEUE", "HASH_CONCURRENCY", 0);
  }

  lemma RunsOrdered1()
    ensures Less(INGEST[1], ROOT[0])
    ensures Less(ROOT[1], MAX_COUNT[0])
    ensures Less(MAX_COUNT[1], MAX_FRAME[0])
  {
    NameLess("INGEST_SHUTDOWN_TIMEOUT_MS", "LIBRARY_ROOT", 0);
    NameLess("LOG_LEVEL", "MAX_CLIENT_SESSIONS", 0);
    NameLess("MAX_CONCURRENT_INGESTS", "MAX_DECODE_DEPTH", 4);
  }

  lemma RunsOrdered2()
    ensures Less(MAX_FRAME[1], MAX_INGEST[0])
    ensures Less(MAX_INGEST[1], MAX_OPERATION[0])
    ensures Less(MAX_OPERATION[1], MAX_REST[0])
  {
    NameLess("MAX_FRAME_BYTES", "MAX_INGEST_BYTES", 4);
    NameLess("MAX_INGEST_OPERATION_TIMEOUT_MS", "MAX_MATERIALIZE_OPERATION_TIMEOUT_MS", 4);
    NameLess("MAX_METADATA_OPERATION_TIMEOUT_MS", "MAX_PENDING_HANDSHAKES", 4);
  }

  lemma RunsOrdered3()
    ensures Less(MAX_REST[2], MIN_FREE[0])
    ensures Less(MIN_FREE[1], STREAM[0])
  {
    NameLess("MAX_VERIFY_OPERATION_TIMEOUT_MS", "MIN_FREE_BYTES", 1);
    NameLess("MIN_FREE_PERCENT", "STORAGE_IO_CONCURRENCY", 0);
  }

  lemma KeysAreGood()
    ensures |KEYS| == 26 && GoodKeys(KEYS)
  {
    RunsOrdered0();
    RunsOrdered1();
    RunsOrdered2();
    RunsOrdered3();
    GoodLocation();
    var keys := LOCATION;
    GoodTimeout();
    GoodConcat(keys, TIMEOUT);
    keys := keys + TIMEOUT;
    GoodDatabase();
    GoodConcat(keys, DATABASE);
    keys := keys + DATABASE;
    GoodIngest();
    GoodConcat(keys, INGEST);
    keys := keys + INGEST;
    GoodRoot();
    GoodConcat(keys, ROOT);
    keys := keys + ROOT;
    GoodMaxCount();
    GoodConcat(keys, MAX_COUNT);
    keys := keys + MAX_COUNT;
    GoodMaxFrame();
    GoodConcat(keys, MAX_FRAME);
    keys := keys + MAX_FRAME;
    GoodMaxIngest();
    GoodConcat(keys, MAX_INGEST);
    keys := keys + MAX_INGEST;
    GoodMaxOperation();
    GoodConcat(keys, MAX_OPERATION);
    keys := keys + MAX_OPERATION;
    GoodMaxRest();
    GoodConcat(keys, MAX_REST);
    keys := keys + MAX_REST;
    GoodMinFree();
    GoodConcat(keys, MIN_FREE);
    keys := keys + MIN_FREE;
    GoodStream();
    GoodConcat(keys, STREAM);
    keys := keys + STREAM;
  }

  /** The real configuration documents are canonical. */
  lemma LibraryConfigIsCanonical(bytes: Octets, out: Values)
    ensures Parse(KEYS, bytes) == Some(out)
       <==> GoodFrom(KEYS, out, 0) && bytes == Print(KEYS, out) && |bytes| <= 16_384
  {
    KeysAreGood();
    DocumentsAreCanonical(KEYS, bytes, out);
  }
}
