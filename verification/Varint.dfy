/** Bytes and the base-128 variable-length integers of the Protocol Buffers wire format. */
module Bytes {

  type Byte = x: int | 0 <= x < 256

  const TWO64: nat := 0x1_0000_0000_0000_0000
}

/** `read_varint`: the strict reader the wire preflight is built on.

    The reference is the encoder `Encode`, which writes the one shortest form of a value;
    `Parse` reads the way the source does.  The lemmas say the two are inverse on 64-bit values. */
module Varint {
  import opened Bytes

  /** The reader's answer: the value and the number of bytes it took, or the one error it knows. */
  datatype Read = Value(value: nat, width: nat) | Malformed

  /** The shortest base-128 form: low seven bits first, the top bit set on all but the last byte. */
  function Encode(v: nat): seq<Byte> {
    if v < 128 then [v] else [128 + v % 128] + Encode(v / 128)
  }

  /** What the reader makes of `b` when `k` continuation bytes lie behind it. */
  function Parse(b: seq<Byte>, k: nat): Read
    requires k <= 9
    decreases 9 - k
  {
    if b == [] then Malformed
    else if k == 9 && b[0] > 1 then Malformed
    else if b[0] < 128 then
      if k != 0 && b[0] == 0 then Malformed else Value(b[0], 1)
    else
      match Parse(b[1..], k + 1)
      case Value(v, n) => Value(b[0] - 128 + 128 * v, n + 1)
      case Malformed => Malformed
  }

  /** The values that still fit in 64 bits after `k` groups of seven. */
  function Room(k: nat): (r: nat)
    requires k <= 9
    ensures r >= 2
    decreases 9 - k
  {
    if k == 9 then 2 else 128 * Room(k + 1)
  }

  lemma RoomAll()
    ensures Room(0) == TWO64
  {
    assert Room(8) == 0x100 && Room(7) == 0x8000 && Room(6) == 0x40_0000;
    assert Room(5) == 0x2000_0000 && Room(4) == 0x10_0000_0000 && Room(3) == 0x800_0000_0000;
    assert Room(2) == 0x4_0000_0000_0000 && Room(1) == 0x200_0000_0000_0000;
  }

  lemma EncodeLength(v: nat, k: nat)
    requires k <= 9 && v < Room(k)
    ensures 1 <= |Encode(v)| <= 10 - k
    decreases v
  {
    if v >= 128 {
      assert k < 9;
      EncodeLength(v / 128, k + 1);
    }
  }

  /** Whatever is accepted is the shortest encoding of the value returned, and the value fits. */
  lemma {:induction false} ParseSound(b: seq<Byte>, k: nat)
    requires k <= 9
    ensures Parse(b, k).Value? ==>
              var r := Parse(b, k);
              && 1 <= r.width <= |b|
              && b[..r.width] == Encode(r.value)
              && r.value < Room(k)
              && (k > 0 ==> r.value > 0)
    decreases 9 - k
  {
    if Parse(b, k).Value? {
      if b[0] < 128 {
        assert b[..1] == [b[0]];
      } else {
        assert k < 9;
        ParseSound(b[1..], k + 1);
        var inner := Parse(b[1..], k + 1);
        var r := Parse(b, k);
        assert r.value / 128 == inner.value && r.value % 128 == b[0] - 128;
        assert b[..r.width] == [b[0]] + b[1..][..inner.width];
      }
    }
  }

  lemma EncodeSplits(v: nat, rest: seq<Byte>)
    requires v >= 128
    ensures Encode(v) + rest == [128 + v % 128] + (Encode(v / 128) + rest)
  {
  }

  lemma ParseCons(x: Byte, b: seq<Byte>, k: nat)
    requires k < 9 && x >= 128
    ensures Parse([x] + b, k) == match Parse(b, k + 1)
                                 case Value(v, n) => Value(x - 128 + 128 * v, n + 1)
                                 case Malformed => Malformed
  {
    assert ([x] + b)[1..] == b;
  }

  /** The shortest encoding of every value that fits is accepted, whatever follows it. */
  lemma {:induction false} ParseComplete(v: nat, rest: seq<Byte>, k: nat)
    requires k <= 9 && v < Room(k) && (k > 0 ==> v > 0)
    ensures Parse(Encode(v) + rest, k) == Value(v, |Encode(v)|)
    decreases v
  {
    if v >= 128 {
      assert k < 9;
      ParseComplete(v / 128, rest, k + 1);
      EncodeSplits(v, rest);
      ParseCons(128 + v % 128, Encode(v / 128) + rest, k);
    }
  }

  /** For every 64-bit value: it is read exactly when its shortest encoding comes first. */
  lemma ParseExact(b: seq<Byte>, v: nat)
    requires v < TWO64
    ensures Parse(b, 0) == Value(v, |Encode(v)|) <==> Encode(v) <= b
  {
    RoomAll();
    ParseSound(b, 0);
    if Encode(v) <= b {
      assert b == Encode(v) + b[|Encode(v)|..];
      ParseComplete(v, b[|Encode(v)|..], 0);
    }
  }

  /** Nothing else is read: an accepted input yields a 64-bit value, and its shortest encoding. */
  lemma ParseOnly(b: seq<Byte>)
    ensures Parse(b, 0).Value? ==>
              var r := Parse(b, 0);
              1 <= r.width <= |b| && r.value < TWO64 && b[..r.width] == Encode(r.value)
  {
    RoomAll();
    ParseSound(b, 0);
  }

  /** `v` moved up by `k` groups of seven bits. */
  function Shift(k: nat, v: nat): nat {
    if k == 0 then v else 128 * Shift(k - 1, v)
  }

  lemma {:induction false} ShiftAdds(k: nat, a: nat, b: nat)
    ensures Shift(k, a + b) == Shift(k, a) + Shift(k, b)
  {
    if k > 0 {
      ShiftAdds(k - 1, a, b);
    }
  }

  lemma {:induction false} ShiftNext(k: nat, v: nat)
    ensures Shift(k, 128 * v) == Shift(k + 1, v)
  {
    if k > 0 {
      ShiftNext(k - 1, v);
    }
  }

  /** The answer for a whole varint from the answer for its tail after `k` groups worth `low`. */
  function Behind(low: nat, k: nat, tail: Read): Read {
    match tail
    case Value(v, n) => Value(low + Shift(k, v), n + k)
    case Malformed => Malformed
  }

  /** One more continuation byte moves its group from the tail into the part behind. */
  lemma BehindStep(b: seq<Byte>, low: nat, k: nat)
    requires k < 9 && b != [] && b[0] >= 128
    ensures Behind(low, k, Parse(b, k)) == Behind(low + Shift(k, b[0] - 128), k + 1, Parse(b[1..], k + 1))
  {
    match Parse(b[1..], k + 1)
    case Value(v, n) =>
      ShiftAdds(k, b[0] - 128, 128 * v);
      ShiftNext(k, v);
    case Malformed =>
  }

  /** The low seven bits. */
  function Group(b: Byte): nat {
    if b < 128 then b else b - 128
  }

  /** What remains to be read at `at` will answer for the whole. */
  ghost predicate Reading(bytes: seq<Byte>, at: nat, low: nat, k: nat, whole: Read) {
    k <= 9 && at <= |bytes| && whole == Behind(low, k, Parse(bytes[at..], k))
  }

  lemma LoopStep(bytes: seq<Byte>, at: nat, low: nat, k: nat, sum: nat, next: nat, turn: nat, whole: Read)
    requires k < 9 && at < |bytes| && bytes[at] >= 128 && Reading(bytes, at, low, k, whole)
    requires sum == low + Shift(k, Group(bytes[at])) && next == at + 1 && turn == k + 1
    ensures Reading(bytes, next, sum, turn, whole)
  {
    BehindStep(bytes[at..], low, k);
    assert bytes[at..][1..] == bytes[at + 1..];
  }

  /** The input is at its end, or the tenth byte does not fit. */
  lemma LoopFails(bytes: seq<Byte>, at: nat, low: nat, k: nat, whole: Read)
    requires Reading(bytes, at, low, k, whole) && (at == |bytes| || (k == 9 && bytes[at] > 1))
    ensures whole == Malformed
  {
  }

  lemma LoopEnds(bytes: seq<Byte>, at: nat, low: nat, k: nat, whole: Read)
    requires Reading(bytes, at, low, k, whole) && at < |bytes| && bytes[at] < 128 && !(k == 9 && bytes[at] > 1)
    ensures whole == if k != 0 && bytes[at] == 0 then Malformed else Value(low + Shift(k, Group(bytes[at])), k + 1)
  {
  }

  /** The reading loop.  It takes one seven-bit group a turn and never exhausts its ten turns,
      so it has no exit but those inside the body. */
  method ReadVarint(bytes: seq<Byte>, offset: nat) returns (r: Read, next: nat)
    requires offset <= |bytes|
    ensures r == Parse(bytes[offset..], 0)
    ensures r.Value? ==> next == offset + r.width <= |bytes| && r.width >= 1 && r.value < TWO64
                         && bytes[offset..next] == Encode(r.value)
  {
    ghost var whole := Parse(bytes[offset..], 0);
    r, next := ReadGroups(bytes, offset, whole);
    ParseOnly(bytes[offset..]);
    assert r.Value? ==> bytes[offset..][..r.width] == bytes[offset..next];
  }

  method ReadGroups(bytes: seq<Byte>, offset: nat, ghost whole: Read) returns (r: Read, next: nat)
    requires Reading(bytes, offset, 0, 0, whole)
    ensures r == whole && (r.Value? ==> next == offset + r.width)
  {
    var value: nat, k := 0, 0;
    next := offset;
    while true
      invariant next == offset + k && Reading(bytes, next, value, k, whole)
      decreases 9 - k
    {
      if next == |bytes| {
        LoopFails(bytes, next, value, k, whole);
        return Malformed, next;
      }
      var byte := bytes[next];
      if k == 9 && byte > 1 {
        LoopFails(bytes, next, value, k, whole);
        return Malformed, next + 1;
      }
      var sum := value + Shift(k, Group(byte));
      if byte < 128 {
        LoopEnds(bytes, next, value, k, whole);
        if k != 0 && byte == 0 {
          return Malformed, next + 1;
        }
        return Value(sum, k + 1), next + 1;
      }
      ghost var at, low := next, value;
      value, next, k := sum, next + 1, k + 1;
      LoopStep(bytes, at, low, k - 1, value, next, k, whole);
    }
  }
}
