/** `preflight`: the allocation-free wire scanner with its explicit 64-slot stack.

    Three descriptions of one verdict meet here: the scanner itself, a validator that recurses over
    the message tree, and the set of byte strings that serialise a tree.  The build-time depth of
    `Descriptor` then bounds the run-time scanner. */
module Preflight {
  import opened Bytes
  import opened Descriptor
  import opened Options
  import Varint

  const MAX_DECODE_DEPTH: nat := 64

  datatype Verdict = Accept | Malformed | DepthExceeded

  /** The generated table: the first arm for this kind and field number. */
  function Embedded(edges: seq<Edge>, kind: Message, number: nat): (r: Option<Message>)
    ensures r.Some? ==> Edge(kind, number, r.value) in edges
    ensures r.None? ==> forall e :: e in edges ==> !(e.source == kind && e.number == number)
  {
    if edges == [] then None
    else if edges[0].source == kind && edges[0].number == number then Some(edges[0].target)
    else Embedded(edges[1..], kind, number)
  }

  /** One field as the wire shows it: its number, and for wire type 2 where its content lies. */
  datatype Field =
    | Plain(width: nat)
    | Delimited(number: nat, start: nat, width: nat)
    | Bad

  /** The field whose tag takes the `t` bytes before `rest`. */
  function FieldBehind(number: nat, wire: nat, t: nat, rest: seq<Byte>): (f: Field)
    ensures f.Plain? ==> t <= f.width <= t + |rest|
    ensures f.Delimited? ==> t <= f.start <= f.width <= t + |rest|
  {
    if number == 0 || wire == 3 || wire == 4 then Bad
    else if wire == 0 then
      Varint.ParseSound(rest, 0);
      match Varint.Parse(rest, 0) {
        case Value(_, n) => Plain(t + n)
        case Malformed => Bad
      }
    else if wire == 1 then if 8 <= |rest| then Plain(t + 8) else Bad
    else if wire == 2 then
      Varint.ParseSound(rest, 0);
      match Varint.Parse(rest, 0) {
        case Value(length, n) => if n + length <= |rest| then Delimited(number, t + n, t + n + length) else Bad
        case Malformed => Bad
      }
    else if wire == 5 then if 4 <= |rest| then Plain(t + 4) else Bad
    else Bad
  }

  /** The first field of a non-empty message body. */
  function FirstField(b: seq<Byte>): (f: Field)
    requires b != []
    ensures f.Plain? ==> 1 <= f.width <= |b|
    ensures f.Delimited? ==> 1 <= f.start <= f.width <= |b|
  {
    Varint.ParseSound(b, 0);
    match Varint.Parse(b, 0)
    case Malformed => Bad
    case Value(tag, t) => FieldBehind(tag / 8, tag % 8, t, b[t..])
  }

  /** The recursive validator: a message body at the given depth, fields in document order, each
      embedded message before what follows it. */
  function Validate(edges: seq<Edge>, b: seq<Byte>, kind: Message, depth: nat, limit: nat): Verdict
    decreases |b|
  {
    if b == [] then Accept
    else
      match FirstField(b)
      case Bad => Malformed
      case Plain(w) => Validate(edges, b[w..], kind, depth, limit)
      case Delimited(number, start, w) =>
        match Embedded(edges, kind, number)
        case None => Validate(edges, b[w..], kind, depth, limit)
        case Some(child) =>
          if depth >= limit then DepthExceeded
          else
            match Validate(edges, b[start..w], child, depth + 1, limit)
            case Accept => Validate(edges, b[w..], kind, depth, limit)
            case Malformed => Malformed
            case DepthExceeded => DepthExceeded
  }

  /** A slot of the scanner's stack. */
  datatype Frame = Frame(bytes: seq<Byte>, offset: nat, kind: Message)

  ghost predicate InBounds(f: Frame) {
    f.offset <= |f.bytes|
  }

  ghost predicate AllInBounds(frames: seq<Frame>) {
    forall i :: 0 <= i < |frames| ==> InBounds(frames[i])
  }

  /** The bytes of a frame that are still to be read. */
  ghost function Rest(f: Frame): seq<Byte>
    requires InBounds(f)
  {
    f.bytes[f.offset..]
  }

  /** The first verdict that is not an acceptance. */
  function Then(a: Verdict, b: Verdict): Verdict {
    if a == Accept then b else a
  }

  lemma BoundsSnoc(below: seq<Frame>, top: Frame)
    ensures AllInBounds(below + [top]) <==> AllInBounds(below) && InBounds(top)
  {
    var frames := below + [top];
    assert frames[|below|] == top && forall i :: 0 <= i < |below| ==> frames[i] == below[i];
  }

  /** The verdict a stack of frames stands for: the top frame's rest first. */
  ghost function StackVerdict(edges: seq<Edge>, frames: seq<Frame>, limit: nat): Verdict
    requires AllInBounds(frames)
  {
    if frames == [] then Accept
    else
      var top := frames[|frames| - 1];
      Then(Validate(edges, Rest(top), top.kind, |frames|, limit), StackVerdict(edges, frames[..|frames| - 1], limit))
  }

  lemma VerdictSnoc(edges: seq<Edge>, below: seq<Frame>, top: Frame, depth: nat, limit: nat)
    requires AllInBounds(below) && InBounds(top) && AllInBounds(below + [top]) && depth == |below| + 1
    ensures StackVerdict(edges, below + [top], limit)
         == Then(Validate(edges, Rest(top), top.kind, depth, limit), StackVerdict(edges, below, limit))
  {
    assert (below + [top])[..|below|] == below;
  }

  /** Bytes not yet read in any live frame: the first part of the termination measure. */
  ghost function Unread(frames: seq<Frame>): nat
    requires AllInBounds(frames)
  {
    if frames == [] then 0 else Unread(frames[..|frames| - 1]) + |Rest(frames[|frames| - 1])|
  }

  lemma UnreadSnoc(below: seq<Frame>, top: Frame)
    requires AllInBounds(below) && InBounds(top) && AllInBounds(below + [top])
    ensures Unread(below + [top]) == Unread(below) + |Rest(top)|
  {
    assert (below + [top])[..|below|] == below;
  }

  /** The stack `frames` still stands for the verdict `v`. */
  ghost predicate Stands(edges: seq<Edge>, frames: seq<Frame>, limit: nat, v: Verdict) {
    AllInBounds(frames) && StackVerdict(edges, frames, limit) == v
  }

  lemma FirstFrame(edges: seq<Edge>, payload: seq<Byte>, root: Message, limit: nat, frames: seq<Frame>, v: Verdict)
    requires frames == [Frame(payload, 0, root)] && v == Validate(edges, payload, root, 1, limit)
    ensures Stands(edges, frames, limit, v)
  {
    assert payload[0..] == payload && frames[..0] == [];
  }

  /** What a stack is worth, by its top frame and what lies below. */
  lemma SnocStands(edges: seq<Edge>, frames: seq<Frame>, below: seq<Frame>, top: Frame, depth: nat, limit: nat)
    requires frames == below + [top] && AllInBounds(frames) && depth == |frames|
    ensures AllInBounds(below) && InBounds(top) && Unread(frames) == Unread(below) + |Rest(top)|
    ensures StackVerdict(edges, frames, limit)
         == Then(Validate(edges, Rest(top), top.kind, depth, limit), StackVerdict(edges, below, limit))
  {
    BoundsSnoc(below, top);
    VerdictSnoc(edges, below, top, depth, limit);
    UnreadSnoc(below, top);
  }

  /** Removing an exhausted frame changes neither the verdict nor the unread bytes. */
  lemma PopFrame(edges: seq<Edge>, frames: seq<Frame>, below: seq<Frame>, top: Frame, limit: nat, v: Verdict)
    requires frames == below + [top] && Stands(edges, frames, limit, v) && top.offset == |top.bytes|
    ensures Stands(edges, below, limit, v)
    ensures Unread(frames) == Unread(below)
  {
    SnocStands(edges, frames, below, top, |frames|, limit);
    assert Rest(top) == [];
  }

  /** What stepping over a field that embeds nothing leaves of a frame. */
  lemma SkipField(edges: seq<Edge>, top: Frame, f: Field, next: Frame, depth: nat, limit: nat)
    requires InBounds(top) && top.offset < |top.bytes| && f == FirstField(Rest(top)) && !f.Bad?
    requires f.Delimited? ==> Embedded(edges, top.kind, f.number).None?
    requires next == top.(offset := top.offset + f.width)
    ensures InBounds(next) && |Rest(next)| < |Rest(top)|
    ensures Validate(edges, Rest(top), top.kind, depth, limit) == Validate(edges, Rest(next), next.kind, depth, limit)
  {
    assert Rest(next) == Rest(top)[f.width..];
  }

  /** Stepping over a field that embeds nothing. */
  lemma AdvanceFrame(edges: seq<Edge>, frames: seq<Frame>, below: seq<Frame>, top: Frame, f: Field, next: Frame,
                     frames': seq<Frame>, limit: nat, v: Verdict)
    requires frames == below + [top] && Stands(edges, frames, limit, v) && InBounds(top) && top.offset < |top.bytes|
    requires f == FirstField(Rest(top)) && !f.Bad?
    requires f.Delimited? ==> Embedded(edges, top.kind, f.number).None?
    requires next == top.(offset := top.offset + f.width) && frames' == below + [next]
    ensures Stands(edges, frames', limit, v)
    ensures Unread(frames') < Unread(frames)
  {
    SnocStands(edges, frames, below, top, |frames|, limit);
    SkipField(edges, top, f, next, |frames|, limit);
    BoundsSnoc(below, next);
    SnocStands(edges, frames', below, next, |frames|, limit);
  }

  lemma ValidateEntered(edges: seq<Edge>, b: seq<Byte>, kind: Message, depth: nat, limit: nat, f: Field, child: Message,
                        inner: seq<Byte>, rest: seq<Byte>)
    requires b != [] && f == FirstField(b) && f.Delimited? && Embedded(edges, kind, f.number) == Some(child) && depth < limit
    requires inner == b[f.start..f.width] && rest == b[f.width..]
    ensures Validate(edges, b, kind, depth, limit)
         == Then(Validate(edges, inner, child, depth + 1, limit), Validate(edges, rest, kind, depth, limit))
  {
  }

  /** What stepping over an embedded message leaves of a frame: the message itself, then what follows it. */
  lemma EnterField(edges: seq<Edge>, top: Frame, f: Field, next: Frame, child: Frame, depth: nat, limit: nat)
    requires InBounds(top) && top.offset < |top.bytes| && f == FirstField(Rest(top)) && f.Delimited?
    requires Embedded(edges, top.kind, f.number) == Some(child.kind) && depth < limit
    requires next == top.(offset := top.offset + f.width)
    requires child.offset == 0 && top.offset + f.start <= next.offset <= |top.bytes|
    requires child.bytes == top.bytes[top.offset + f.start..next.offset]
    ensures InBounds(next) && InBounds(child) && |Rest(child)| + |Rest(next)| < |Rest(top)|
    ensures Validate(edges, Rest(top), top.kind, depth, limit)
         == Then(Validate(edges, Rest(child), child.kind, depth + 1, limit), Validate(edges, Rest(next), next.kind, depth, limit))
  {
    assert Rest(next) == Rest(top)[f.width..];
    assert Rest(child) == Rest(top)[f.start..f.width];
    ValidateEntered(edges, Rest(top), top.kind, depth, limit, f, child.kind, Rest(child), Rest(next));
  }

  /** Stepping over an embedded message by putting its bytes on top of the stack. */
  lemma PushFrame(edges: seq<Edge>, frames: seq<Frame>, below: seq<Frame>, top: Frame, f: Field, next: Frame,
                  child: Frame, frames': seq<Frame>, limit: nat, v: Verdict)
    requires frames == below + [top] && Stands(edges, frames, limit, v) && InBounds(top) && top.offset < |top.bytes|
    requires f == FirstField(Rest(top)) && f.Delimited?
    requires Embedded(edges, top.kind, f.number) == Some(child.kind) && |frames| < limit
    requires next == top.(offset := top.offset + f.width)
    requires child.offset == 0 && child.bytes == top.bytes[top.offset + f.start..next.offset]
    requires frames' == below + [next] + [child]
    ensures Stands(edges, frames', limit, v)
    ensures Unread(frames') < Unread(frames)
  {
    var mid := below + [next];
    SnocStands(edges, frames, below, top, |frames|, limit);
    EnterField(edges, top, f, next, child, |frames|, limit);
    BoundsSnoc(below, next);
    BoundsSnoc(mid, child);
    SnocStands(edges, mid, below, next, |frames|, limit);
    SnocStands(edges, frames', mid, child, |frames| + 1, limit);
  }

  /** The verdict when the loop body stops at the top frame's next field. */
  lemma StopFrame(edges: seq<Edge>, frames: seq<Frame>, top: Frame, f: Field, limit: nat, v: Verdict)
    requires frames != [] && frames[|frames| - 1] == top && Stands(edges, frames, limit, v)
    requires InBounds(top) && top.offset < |top.bytes| && f == FirstField(Rest(top))
    ensures f.Bad? ==> v == Malformed
    ensures f.Delimited? && Embedded(edges, top.kind, f.number).Some? && |frames| >= limit ==> v == DepthExceeded
  {
  }

  /** Reads what follows a tag, by wire type. */
  method ReadBehind(bytes: seq<Byte>, base: nat, offset: nat, number: nat, wire: nat) returns (f: Field)
    requires base <= offset <= |bytes|
    ensures f == FieldBehind(number, wire, offset - base, bytes[offset..])
  {
    if number == 0 || wire == 3 || wire == 4 {
      return Bad;
    }
    if wire == 0 {
      var value, end := Varint.ReadVarint(bytes, offset);
      return if value.Malformed? then Bad else Plain(end - base);
    } else if wire == 1 {
      return if offset + 8 <= |bytes| then Plain(offset + 8 - base) else Bad;
    } else if wire == 2 {
      var length, start := Varint.ReadVarint(bytes, offset);
      if length.Malformed? {
        return Bad;
      }
      var end := start + length.value;
      return if end <= |bytes| then Delimited(number, start - base, end - base) else Bad;
    } else if wire == 5 {
      return if offset + 4 <= |bytes| then Plain(offset + 4 - base) else Bad;
    } else {
      return Bad;
    }
  }

  lemma DropTwice(bytes: seq<Byte>, base: nat, offset: nat)
    requires base <= offset <= |bytes|
    ensures bytes[base..][offset - base..] == bytes[offset..]
  {
  }

  lemma FieldFound(b: seq<Byte>, tag: nat, t: nat, rest: seq<Byte>, f: Field)
    requires b != [] && Varint.Parse(b, 0) == Varint.Value(tag, t) && t <= |b|
    requires rest == b[t..] && f == FieldBehind(tag / 8, tag % 8, t, rest)
    ensures f == FirstField(b)
  {
  }

  /** Reads one field of `frame` the way the loop body does: tag, then by wire type. */
  method ReadField(frame: Frame) returns (f: Field)
    requires InBounds(frame) && frame.offset < |frame.bytes|
    ensures f == FirstField(Rest(frame))
  {
    var bytes, base := frame.bytes, frame.offset;
    var tag, offset := Varint.ReadVarint(bytes, base);
    if tag.Malformed? {
      return Bad;
    }
    f := ReadBehind(bytes, base, offset, tag.value / 8, tag.value % 8);
    DropTwice(bytes, base, offset);
    FieldFound(Rest(frame), tag.value, offset - base, bytes[offset..], f);
  }

  /** The frame on top of the stack, and those below it. */
  method TopFrame(stack: array<Frame>, index: nat, ghost frames: seq<Frame>) returns (top: Frame, ghost below: seq<Frame>)
    requires index < stack.Length && stack[..index + 1] == frames
    ensures frames == below + [top] && stack[..index] == below
  {
    top := stack[index];
    below := stack[..index];
  }

  lemma TopInBounds(edges: seq<Edge>, frames: seq<Frame>, below: seq<Frame>, top: Frame, limit: nat, v: Verdict)
    requires Stands(edges, frames, limit, v) && frames == below + [top]
    ensures InBounds(top)
  {
    assert InBounds(frames[|below|]);
  }

  /** Writes a slot; the stack up to and including it is then the lower slots and this frame. */
  method PutFrame(stack: array<Frame>, slot: nat, ghost below: seq<Frame>, f: Frame)
    requires slot < stack.Length && stack[..slot] == below
    modifies stack
    ensures stack[..slot + 1] == below + [f]
  {
    stack[slot] := f;
  }

  /** The scanner's loop, from any stack that stands for `answer`. */
  method ScanFrames(edges: seq<Edge>, stack: array<Frame>, limit: nat, ghost first: seq<Frame>, ghost answer: Verdict)
    returns (v: Verdict)
    requires 1 <= limit <= MAX_DECODE_DEPTH && stack.Length == MAX_DECODE_DEPTH
    requires stack[..1] == first && Stands(edges, first, limit, answer)
    modifies stack
    ensures v == answer
  {
    var depth := 1;
    ghost var frames := first;
    while depth != 0
      invariant depth <= limit && stack[..depth] == frames
      invariant Stands(edges, frames, limit, answer)
      decreases Unread(frames), depth
    {
      var index := depth - 1;
      var top, below := TopFrame(stack, index, frames);
      TopInBounds(edges, frames, below, top, limit, answer);
      if top.offset == |top.bytes| {
        PopFrame(edges, frames, below, top, limit, answer);
        frames, depth := below, depth - 1;
        continue;
      }
      var field := ReadField(top);
      StopFrame(edges, frames, top, field, limit, answer);
      if field.Bad? {
        return Malformed;
      }
      var next := top.(offset := top.offset + field.width);
      var embedded := if field.Delimited? then Embedded(edges, top.kind, field.number) else None;
      PutFrame(stack, index, below, next);
      if embedded.None? {
        ghost var was := frames;
        frames := below + [next];
        AdvanceFrame(edges, was, below, top, field, next, frames, limit, answer);
      } else {
        if depth >= limit {
          return DepthExceeded;
        }
        var child := Frame(top.bytes[top.offset + field.start..next.offset], 0, embedded.value);
        PutFrame(stack, depth, below + [next], child);
        ghost var was := frames;
        frames, depth := below + [next] + [child], depth + 1;
        PushFrame(edges, was, below, top, field, next, child, frames, limit, answer);
      }
    }
    return Accept;
  }

  /** The scanner.  It returns what the recursive validator returns. */
  method Scan(edges: seq<Edge>, payload: seq<Byte>, root: Message, limit: nat) returns (v: Verdict)
    requires 1 <= limit <= MAX_DECODE_DEPTH
    ensures v == Validate(edges, payload, root, 1, limit)
  {
    ghost var answer := Validate(edges, payload, root, 1, limit);
    var stack := new Frame[MAX_DECODE_DEPTH](_ => Frame([], 0, root));
    PutFrame(stack, 0, [], Frame(payload, 0, root));
    ghost var first := [] + [Frame(payload, 0, root)];
    FirstFrame(edges, payload, root, limit, first, answer);
    v := ScanFrames(edges, stack, limit, first, answer);
  }
}
