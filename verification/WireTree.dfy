/** What the preflight verdict means: the payloads it accepts are the serialised message trees that
    fit the descriptor and the depth limit, and the depth computed at build time decides whether the
    limit can ever be exceeded. */
module WireTree {
  import opened Bytes
  import opened Descriptor
  import opened Options
  import opened Preflight
  import Varint

  /** A field of a message as data.  `Nested` is a field the descriptor knows as a message. */
  datatype Node =
    | Number(number: nat, value: nat)
    | Fixed64(number: nat, content: seq<Byte>)
    | Fixed32(number: nat, content: seq<Byte>)
    | Blob(number: nat, content: seq<Byte>)
    | Nested(number: nat, fields: seq<Node>)

  function Head(number: nat, wire: nat): seq<Byte> {
    Varint.Encode(8 * number + wire)
  }

  function Delimit(number: nat, content: seq<Byte>): seq<Byte> {
    Head(number, 2) + (Varint.Encode(|content|) + content)
  }

  function Serialize(fields: seq<Node>): seq<Byte> {
    if fields == [] then []
    else
      (match fields[0]
       case Number(n, v) => Head(n, 0) + Varint.Encode(v)
       case Fixed64(n, c) => Head(n, 1) + c
       case Fixed32(n, c) => Head(n, 5) + c
       case Blob(n, c) => Delimit(n, c)
       case Nested(n, inner) => Delimit(n, Serialize(inner)))
      + Serialize(fields[1..])
  }

  predicate ValidNumber(n: nat) {
    1 <= n && 8 * n + 7 < TWO64
  }

  /** The tree fits message `kind` of the descriptor and nests no deeper than the limit. */
  predicate Fits(edges: seq<Edge>, fields: seq<Node>, kind: Message, depth: nat, limit: nat) {
    fields == [] ||
    (&& ValidNumber(fields[0].number)
     && (match fields[0]
         case Number(_, v) => v < TWO64
         case Fixed64(_, c) => |c| == 8
         case Fixed32(_, c) => |c| == 4
         case Blob(n, c) => |c| < TWO64 && Embedded(edges, kind, n).None?
         case Nested(n, inner) =>
           && |Serialize(inner)| < TWO64
           && depth < limit
           && Embedded(edges, kind, n).Some?
           && Fits(edges, inner, Embedded(edges, kind, n).value, depth + 1, limit))
     && Fits(edges, fields[1..], kind, depth, limit))
  }

  lemma ReadHead(number: nat, wire: nat, rest: seq<Byte>)
    requires ValidNumber(number) && wire < 8
    ensures Varint.Parse(Head(number, wire) + rest, 0) == Varint.Value(8 * number + wire, |Head(number, wire)|)
    ensures (8 * number + wire) / 8 == number && (8 * number + wire) % 8 == wire
    ensures |Head(number, wire)| >= 1
    ensures (Head(number, wire) + rest)[|Head(number, wire)|..] == rest
  {
    Varint.RoomAll();
    Varint.ParseComplete(8 * number + wire, rest, 0);
  }

  lemma ReadDelimited(number: nat, content: seq<Byte>, rest: seq<Byte>)
    requires ValidNumber(number) && |content| < TWO64
    ensures var b := Delimit(number, content) + rest;
            && FirstField(b).Delimited?
            && FirstField(b).number == number
            && FirstField(b).width == |Delimit(number, content)|
            && b[FirstField(b).start..FirstField(b).width] == content
            && b[FirstField(b).width..] == rest
  {
    var after := Varint.Encode(|content|) + (content + rest);
    var b := Delimit(number, content) + rest;
    assert b == Head(number, 2) + after;
    ReadHead(number, 2, after);
    Varint.RoomAll();
    Varint.ParseComplete(|content|, content + rest, 0);
  }

  /** The body of a field that is neither a blob nor a message. */
  ghost predicate PlainBody(wire: nat, body: seq<Byte>) {
    || (wire == 1 && |body| == 8)
    || (wire == 5 && |body| == 4)
    || (wire == 0 && exists v: nat :: v < TWO64 && body == Varint.Encode(v))
  }

  lemma Regroups(h: seq<Byte>, body: seq<Byte>, rest: seq<Byte>, b: seq<Byte>)
    requires b == (h + body) + rest
    ensures b == h + (body + rest) && b[|h|..] == body + rest && b[|h + body|..] == rest
  {
  }

  lemma ThreeSlices(b: seq<Byte>, t: nat, n: nat, w: nat)
    requires t + n <= w <= |b|
    ensures b[..w] == b[..t] + (b[t..][..n] + b[t + n..w])
  {
  }

  lemma Slices(b: seq<Byte>, t: nat, w: nat)
    requires t <= w <= |b|
    ensures b[..w] == b[..t] + b[t..w]
  {
  }

  lemma Joins(b: seq<Byte>, w: nat, front: seq<Byte>, back: seq<Byte>)
    requires w <= |b| && b[..w] == front && b[w..] == back
    ensures b == front + back
  {
    assert b == b[..w] + b[w..];
  }

  lemma FieldIsPlain(b: seq<Byte>, tag: nat, t: nat, r: Varint.Read, w: nat)
    requires b != [] && Varint.Parse(b, 0) == Varint.Value(tag, t) && t <= |b| && tag / 8 >= 1
    requires tag % 8 == 0 ==> r == Varint.Parse(b[t..], 0)
    requires (tag % 8 == 0 && r.Value? && w == t + r.width) || (tag % 8 == 1 && w == t + 8 <= |b|) || (tag % 8 == 5 && w == t + 4 <= |b|)
    ensures FirstField(b) == Plain(w)
  {
  }

  lemma ReadPlain(number: nat, wire: nat, body: seq<Byte>, rest: seq<Byte>)
    requires ValidNumber(number) && PlainBody(wire, body)
    ensures var b := (Head(number, wire) + body) + rest;
            FirstField(b) == Plain(|Head(number, wire) + body|) && b[FirstField(b).width..] == rest
  {
    var b, t := (Head(number, wire) + body) + rest, |Head(number, wire)|;
    Regroups(Head(number, wire), body, rest, b);
    ReadHead(number, wire, body + rest);
    var r := Varint.Parse(body + rest, 0);
    if wire == 0 {
      var v: nat :| v < TWO64 && body == Varint.Encode(v);
      Varint.RoomAll();
      Varint.ParseComplete(v, rest, 0);
    }
    FieldIsPlain(b, 8 * number + wire, t, r, t + |body|);
  }

  /** Every tree that fits is accepted. */
  lemma {:induction false} AcceptsTree(edges: seq<Edge>, fields: seq<Node>, kind: Message, depth: nat, limit: nat)
    requires Fits(edges, fields, kind, depth, limit)
    ensures Validate(edges, Serialize(fields), kind, depth, limit) == Accept
    decreases fields
  {
    if fields != [] {
      var rest := Serialize(fields[1..]);
      AcceptsTree(edges, fields[1..], kind, depth, limit);
      match fields[0]
      case Number(n, v) =>
        assert PlainBody(0, Varint.Encode(v));
        ReadPlain(n, 0, Varint.Encode(v), rest);
      case Fixed64(n, c) => ReadPlain(n, 1, c, rest);
      case Fixed32(n, c) => ReadPlain(n, 5, c, rest);
      case Blob(n, c) => ReadDelimited(n, c, rest);
      case Nested(n, inner) =>
        AcceptsTree(edges, inner, Embedded(edges, kind, n).value, depth + 1, limit);
        ReadDelimited(n, Serialize(inner), rest);
    }
  }

  /** The tag of a field that is not malformed. */
  lemma TagForm(b: seq<Byte>) returns (number: nat, wire: nat, t: nat)
    requires b != [] && !FirstField(b).Bad?
    ensures ValidNumber(number) && wire < 8 && 1 <= t <= |b| && b[..t] == Head(number, wire)
    ensures Varint.Parse(b, 0) == Varint.Value(8 * number + wire, t)
    ensures (8 * number + wire) / 8 == number && (8 * number + wire) % 8 == wire
  {
    Varint.ParseOnly(b);
    var tag := Varint.Parse(b, 0);
    number, wire, t := tag.value / 8, tag.value % 8, tag.width;
    NumberFits(tag.value);
  }

  /** How a plain first field was read. */
  lemma PlainRead(b: seq<Byte>, tag: nat, t: nat, r: Varint.Read, w: nat)
    requires b != [] && FirstField(b) == Plain(w) && Varint.Parse(b, 0) == Varint.Value(tag, t) && t <= |b|
    requires r == Varint.Parse(b[t..], 0)
    ensures t <= w <= |b|
    ensures (tag % 8 == 0 && r.Value? && w == t + r.width) || (tag % 8 == 1 && w == t + 8) || (tag % 8 == 5 && w == t + 4)
  {
  }

  lemma VarintBody(b: seq<Byte>, t: nat, r: Varint.Read)
    requires t <= |b| && r == Varint.Parse(b[t..], 0) && r.Value?
    ensures t + r.width <= |b| && PlainBody(0, b[t..t + r.width])
  {
    Varint.ParseOnly(b[t..]);
    assert b[t..t + r.width] == b[t..][..r.width];
    assert b[t..t + r.width] == Varint.Encode(r.value);
  }

  /** The wire form of a plain first field, read back. */
  lemma PlainForm(b: seq<Byte>) returns (number: nat, wire: nat, body: seq<Byte>)
    requires b != [] && FirstField(b).Plain?
    ensures ValidNumber(number) && PlainBody(wire, body)
    ensures b[..FirstField(b).width] == Head(number, wire) + body
  {
    var t, w, r;
    number, wire, t := TagForm(b);
    w, r := FirstField(b).width, Varint.Parse(b[t..], 0);
    PlainRead(b, 8 * number + wire, t, r, w);
    body := b[t..w];
    Slices(b, t, w);
    if wire == 0 {
      VarintBody(b, t, r);
    }
  }

  /** How a length-delimited first field was read. */
  lemma DelimitedRead(b: seq<Byte>, tag: nat, t: nat, r: Varint.Read)
    requires b != [] && FirstField(b).Delimited? && Varint.Parse(b, 0) == Varint.Value(tag, t) && t <= |b|
    requires r == Varint.Parse(b[t..], 0)
    ensures tag % 8 == 2 && tag / 8 >= 1 && r.Value? && FirstField(b) == Delimited(tag / 8, t + r.width, t + r.width + r.value)
  {
  }

  /** The parts of a length-delimited first field. */
  lemma DelimitedParts(b: seq<Byte>) returns (t: nat, n: nat, length: nat)
    requires b != [] && FirstField(b).Delimited?
    ensures 1 <= t <= |b| && FirstField(b) == Delimited(FirstField(b).number, t + n, t + n + length)
    ensures ValidNumber(FirstField(b).number) && b[..t] == Head(FirstField(b).number, 2)
    ensures Varint.Parse(b[t..], 0) == Varint.Value(length, n)
  {
    var tag := Varint.Parse(b, 0);
    Varint.ParseOnly(b);
    t := tag.width;
    var r := Varint.Parse(b[t..], 0);
    DelimitedRead(b, tag.value, t, r);
    n, length := r.width, r.value;
    NumberFits(tag.value);
  }

  lemma NumberFits(tag: nat)
    requires tag < TWO64 && tag / 8 >= 1
    ensures ValidNumber(tag / 8) && 8 * (tag / 8) + tag % 8 == tag
  {
    assert tag / 8 < 0x2000_0000_0000_0000;
  }

  lemma DelimitSlices(b: seq<Byte>, t: nat, n: nat, w: nat, number: nat, content: seq<Byte>)
    requires t + n <= w <= |b| && content == b[t + n..w]
    requires b[..t] == Head(number, 2) && b[t..][..n] == Varint.Encode(|content|)
    ensures b[..w] == Delimit(number, content)
  {
    ThreeSlices(b, t, n, w);
  }

  /** The wire form of a length-delimited first field, read back. */
  lemma DelimitedForm(b: seq<Byte>, f: Field)
    requires b != [] && f == FirstField(b) && f.Delimited?
    ensures ValidNumber(f.number) && f.width - f.start < TWO64
    ensures b[..f.width] == Delimit(f.number, b[f.start..f.width])
  {
    var t, n, length := DelimitedParts(b);
    Varint.ParseOnly(b[t..]);
    DelimitSlices(b, t, n, f.width, f.number, b[f.start..f.width]);
  }

  /** A node put in front of a tree. */
  lemma Prefixed(node: Node, rest: seq<Node>, fields: seq<Node>)
    requires fields == [node] + rest
    ensures fields != [] && fields[0] == node && fields[1..] == rest
  {
  }

  lemma PlainNode(edges: seq<Edge>, kind: Message, depth: nat, limit: nat, n: nat, wire: nat, body: seq<Byte>, rest: seq<Node>)
    returns (fields: seq<Node>)
    requires ValidNumber(n) && PlainBody(wire, body) && Fits(edges, rest, kind, depth, limit)
    ensures Fits(edges, fields, kind, depth, limit) && Serialize(fields) == (Head(n, wire) + body) + Serialize(rest)
  {
    var node;
    if wire == 1 {
      node := Fixed64(n, body);
    } else if wire == 5 {
      node := Fixed32(n, body);
    } else {
      var v: nat :| v < TWO64 && body == Varint.Encode(v);
      node := Number(n, v);
    }
    fields := [node] + rest;
    Prefixed(node, rest, fields);
  }

  lemma PlainTree(edges: seq<Edge>, b: seq<Byte>, kind: Message, depth: nat, limit: nat, w: nat, rest: seq<Node>) returns (fields: seq<Node>)
    requires b != [] && FirstField(b) == Plain(w)
    requires Fits(edges, rest, kind, depth, limit) && Serialize(rest) == b[w..]
    ensures Fits(edges, fields, kind, depth, limit) && Serialize(fields) == b
  {
    var number, wire, body := PlainForm(b);
    fields := PlainNode(edges, kind, depth, limit, number, wire, body, rest);
    Joins(b, w, Head(number, wire) + body, Serialize(rest));
  }

  lemma BlobNode(edges: seq<Edge>, kind: Message, depth: nat, limit: nat, n: nat, content: seq<Byte>, rest: seq<Node>, fields: seq<Node>)
    requires ValidNumber(n) && |content| < TWO64 && Embedded(edges, kind, n).None?
    requires Fits(edges, rest, kind, depth, limit) && fields == [Blob(n, content)] + rest
    ensures Fits(edges, fields, kind, depth, limit) && Serialize(fields) == Delimit(n, content) + Serialize(rest)
  {
    Prefixed(Blob(n, content), rest, fields);
  }

  lemma NestedNode(edges: seq<Edge>, kind: Message, depth: nat, limit: nat, n: nat, inner: seq<Node>, rest: seq<Node>, fields: seq<Node>)
    requires ValidNumber(n) && |Serialize(inner)| < TWO64 && depth < limit && Embedded(edges, kind, n).Some?
    requires Fits(edges, inner, Embedded(edges, kind, n).value, depth + 1, limit)
    requires Fits(edges, rest, kind, depth, limit) && fields == [Nested(n, inner)] + rest
    ensures Fits(edges, fields, kind, depth, limit) && Serialize(fields) == Delimit(n, Serialize(inner)) + Serialize(rest)
  {
    Prefixed(Nested(n, inner), rest, fields);
  }

  lemma BlobTree(edges: seq<Edge>, b: seq<Byte>, kind: Message, depth: nat, limit: nat, f: Field, rest: seq<Node>, fields: seq<Node>)
    requires b != [] && f == FirstField(b) && f.Delimited? && Embedded(edges, kind, f.number).None?
    requires Fits(edges, rest, kind, depth, limit) && Serialize(rest) == b[f.width..]
    requires fields == [Blob(f.number, b[f.start..f.width])] + rest
    ensures Fits(edges, fields, kind, depth, limit) && Serialize(fields) == b
  {
    DelimitedForm(b, f);
    BlobNode(edges, kind, depth, limit, f.number, b[f.start..f.width], rest, fields);
    Joins(b, f.width, Delimit(f.number, b[f.start..f.width]), Serialize(rest));
  }

  lemma NestedTree(edges: seq<Edge>, b: seq<Byte>, kind: Message, depth: nat, limit: nat, f: Field, inner: seq<Node>, rest: seq<Node>, fields: seq<Node>)
    requires b != [] && f == FirstField(b) && f.Delimited? && depth < limit && Embedded(edges, kind, f.number).Some?
    requires Fits(edges, inner, Embedded(edges, kind, f.number).value, depth + 1, limit) && Serialize(inner) == b[f.start..f.width]
    requires Fits(edges, rest, kind, depth, limit) && Serialize(rest) == b[f.width..]
    requires fields == [Nested(f.number, inner)] + rest
    ensures Fits(edges, fields, kind, depth, limit) && Serialize(fields) == b
  {
    DelimitedForm(b, f);
    NestedNode(edges, kind, depth, limit, f.number, inner, rest, fields);
    Joins(b, f.width, Delimit(f.number, Serialize(inner)), Serialize(rest));
  }

  /** Every accepted payload is such a tree. */
  lemma {:induction false} TreeOf(edges: seq<Edge>, b: seq<Byte>, kind: Message, depth: nat, limit: nat)
    returns (fields: seq<Node>)
    requires Validate(edges, b, kind, depth, limit) == Accept
    ensures Fits(edges, fields, kind, depth, limit)
    ensures Serialize(fields) == b
    decreases |b|
  {
    if b == [] {
      return [];
    }
    var f := FirstField(b);
    var rest := TreeOf(edges, b[f.width..], kind, depth, limit);
    if f.Plain? {
      fields := PlainTree(edges, b, kind, depth, limit, f.width, rest);
    } else {
      var embedded, content := Embedded(edges, kind, f.number), b[f.start..f.width];
      if embedded.None? {
        fields := [Blob(f.number, content)] + rest;
        BlobTree(edges, b, kind, depth, limit, f, rest, fields);
      } else {
        var inner := TreeOf(edges, content, embedded.value, depth + 1, limit);
        fields := [Nested(f.number, inner)] + rest;
        NestedTree(edges, b, kind, depth, limit, f, inner, rest, fields);
      }
    }
  }

  /** A payload is accepted exactly when it serialises a tree that fits. */
  lemma AcceptedPayloads(edges: seq<Edge>, b: seq<Byte>, kind: Message, limit: nat)
    ensures Validate(edges, b, kind, 1, limit) == Accept <==>
            exists fields :: Fits(edges, fields, kind, 1, limit) && Serialize(fields) == b
  {
    if Validate(edges, b, kind, 1, limit) == Accept {
      var fields := TreeOf(edges, b, kind, 1, limit);
    } else {
      forall fields | Fits(edges, fields, kind, 1, limit)
        ensures Serialize(fields) != b
      {
        AcceptsTree(edges, fields, kind, 1, limit);
      }
    }
  }

  /** No chain of embedded messages from `kind` exceeds the limit. */
  ghost predicate Within(edges: seq<Edge>, kind: Message, depth: nat, limit: nat) {
    forall p :: Path(edges, kind, p) ==> depth + |p| <= limit + 1
  }

  lemma WithinChild(edges: seq<Edge>, kind: Message, child: Message, depth: nat, limit: nat)
    requires Within(edges, kind, depth, limit) && Linked(edges, kind, child)
    ensures Within(edges, child, depth + 1, limit) && depth < limit
  {
    forall p | Path(edges, child, p)
      ensures depth + 1 + |p| <= limit + 1
    {
      Prepend(edges, kind, child, p);
    }
    assert Path(edges, child, [child]);
  }

  /** One field of the recursion, its parts already judged. */
  lemma ValidateField(edges: seq<Edge>, b: seq<Byte>, kind: Message, depth: nat, limit: nat, f: Field, rest: Verdict, child: Message, inner: Verdict)
    requires b != [] && f == FirstField(b) && f.Delimited? && rest == Validate(edges, b[f.width..], kind, depth, limit)
    requires Embedded(edges, kind, f.number) == Some(child) && inner == Validate(edges, b[f.start..f.width], child, depth + 1, limit)
    ensures Validate(edges, b, kind, depth, limit) == if depth >= limit then DepthExceeded else if inner == Accept then rest else inner
  {
  }

  /** A limit no chain of embedded messages exceeds is never exceeded by any bytes. */
  lemma {:induction false} NeverExceeded(edges: seq<Edge>, b: seq<Byte>, kind: Message, depth: nat, limit: nat)
    requires Within(edges, kind, depth, limit)
    ensures Validate(edges, b, kind, depth, limit) != DepthExceeded
    decreases |b|
  {
    if b != [] && !FirstField(b).Bad? {
      var f := FirstField(b);
      NeverExceeded(edges, b[f.width..], kind, depth, limit);
      if f.Delimited? && Embedded(edges, kind, f.number).Some? {
        var child := Embedded(edges, kind, f.number).value;
        WithinChild(edges, kind, child, depth, limit);
        NeverExceeded(edges, b[f.start..f.width], child, depth + 1, limit);
        ValidateField(edges, b, kind, depth, limit, f, Validate(edges, b[f.width..], kind, depth, limit),
                      child, Validate(edges, b[f.start..f.width], child, depth + 1, limit));
      }
    }
  }

  /** What the descriptor compiler guarantees: valid field numbers, one field per number. */
  predicate WellNumbered(edges: seq<Edge>) {
    && (forall e :: e in edges ==> 1 <= e.number < 0x2000_0000)
    && (forall e, f :: e in edges && f in edges && e.source == f.source && e.number == f.number ==> e.target == f.target)
  }

  lemma EmbeddedEdge(edges: seq<Edge>, e: Edge)
    requires WellNumbered(edges) && e in edges
    ensures Embedded(edges, e.source, e.number) == Some(e.target)
  {
    var r := Embedded(edges, e.source, e.number);
    assert r.Some? ==> Edge(e.source, e.number, r.value) in edges;
  }

  /** One embedded message around `inner`: the depth check, then the verdict on `inner`. */
  lemma Layer(edges: seq<Edge>, e: Edge, inner: seq<Byte>, within: Verdict, depth: nat, below: nat, limit: nat) returns (b: seq<Byte>)
    requires WellNumbered(edges) && e in edges && |inner| < TWO64 && below == depth + 1
    requires within == Validate(edges, inner, e.target, below, limit)
    ensures Validate(edges, b, e.source, depth, limit) == if depth >= limit then DepthExceeded else within
    ensures |b| <= |inner| + 20
  {
    b := Delimit(e.number, inner);
    EmbeddedEdge(edges, e);
    ReadDelimited(e.number, inner, []);
    assert b + [] == b;
    DelimitShort(e.number, inner);
  }

  lemma DelimitShort(number: nat, inner: seq<Byte>)
    requires number < 0x2000_0000 && |inner| < TWO64
    ensures |Delimit(number, inner)| <= |inner| + 20
  {
    Varint.RoomAll();
    Varint.EncodeLength(8 * number + 2, 0);
    Varint.EncodeLength(|inner|, 0);
  }

  lemma LinkAt(edges: seq<Edge>, p: seq<Message>, i: nat) returns (e: Edge)
    requires i + 1 < |p| && Path(edges, p[0], p)
    ensures e in edges && e.source == p[i] && e.target == p[i + 1]
  {
    assert Linked(edges, p[i], p[i + 1]);
    e :| e in edges && e.source == p[i] && e.target == p[i + 1];
  }

  /** A payload that nests along the rest of a chain, one embedded message inside the other. */
  lemma {:induction false} Nest(edges: seq<Edge>, p: seq<Message>, i: nat, depth: nat, limit: nat) returns (b: seq<Byte>, v: Verdict)
    requires WellNumbered(edges) && i < |p| <= 256 && Path(edges, p[0], p) && depth + |p| - i == limit + 2
    ensures |b| <= 20 * (|p| - i)
    ensures v == Validate(edges, b, p[i], depth, limit) && v == (if i + 1 == |p| then Accept else DepthExceeded)
    decreases |p| - i
  {
    if i + 1 == |p| {
      return [], Accept;
    }
    var e := LinkAt(edges, p, i);
    var inner, within := Nest(edges, p, i + 1, depth + 1, limit);
    b := Layer(edges, e, inner, within, depth, depth + 1, limit);
    v := DepthExceeded;
  }

  /** The build-time depth is the exact run-time bound: at it or above no bytes exceed the limit,
      and one below it some bytes do. */
  lemma DepthIsExact(edges: seq<Edge>, root: Message, d: nat, limit: nat)
    requires Answers(edges, root, Depth(d)) && WellNumbered(edges) && limit >= 1
    ensures d <= limit <==> forall b :: Validate(edges, b, root, 1, limit) != DepthExceeded
  {
    if d <= limit {
      forall b: seq<Byte>
        ensures Validate(edges, b, root, 1, limit) != DepthExceeded
      {
        NeverExceeded(edges, b, root, 1, limit);
      }
    } else {
      var p :| Path(edges, root, p) && |p| == d;
      var q := p[..limit + 1];
      assert Path(edges, root, q);
      var b, v := Nest(edges, q, 0, 1, limit);
    }
  }
}
