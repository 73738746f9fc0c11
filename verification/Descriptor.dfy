/** The build-time walk of the message descriptors (`message_depth`) and the embedding table
    generated from the same edge list.

    The reference is a path: a chain of messages each embedding the next.  The walk answers the
    length of the longest path out of its root, or panics; it panics exactly when some path has
    more than 255 messages, which every cycle provides. */
module Descriptor {

  type Message = string

  /** One message-typed field: `source` embeds `target` under `number`. */
  datatype Edge = Edge(source: Message, number: nat, target: Message)

  /** A computed depth, or the panic of a failed assertion. */
  datatype Depth = Depth(value: nat) | Panic

  ghost predicate Linked(edges: seq<Edge>, a: Message, b: Message) {
    exists e :: e in edges && e.source == a && e.target == b
  }

  /** A chain of embedded messages starting at `m`. */
  ghost predicate Path(edges: seq<Edge>, m: Message, p: seq<Message>) {
    && |p| >= 1
    && p[0] == m
    && forall i :: 0 <= i < |p| - 1 ==> Linked(edges, p[i], p[i + 1])
  }

  /** `d` is the length of the longest chain out of `m`; in particular no chain is longer,
      so no cycle is reachable. */
  ghost predicate Longest(edges: seq<Edge>, m: Message, d: nat) {
    && (exists p :: Path(edges, m, p) && |p| == d)
    && forall p :: Path(edges, m, p) ==> |p| <= d
  }

  ghost predicate Deep(edges: seq<Edge>, m: Message) {
    exists p :: Path(edges, m, p) && |p| >= 256
  }

  ghost function Names(edges: seq<Edge>): set<Message> {
    (set e | e in edges :: e.source) + (set e | e in edges :: e.target)
  }

  ghost function Unvisited(edges: seq<Edge>, active: seq<Message>): set<Message> {
    Names(edges) - (set m | m in active)
  }

  /** The active stack is the chain that led to `m`. */
  ghost predicate Leads(edges: seq<Edge>, active: seq<Message>, m: Message) {
    active == [] || Path(edges, active[0], active + [m])
  }

  lemma Prepend(edges: seq<Edge>, a: Message, b: Message, p: seq<Message>)
    requires Linked(edges, a, b) && Path(edges, b, p)
    ensures Path(edges, a, [a] + p)
  {
    var q := [a] + p;
    forall i | 0 <= i < |q| - 1
      ensures Linked(edges, q[i], q[i + 1])
    {
      assert q[i + 1] == p[i];
      if i > 0 {
        assert q[i] == p[i - 1];
      }
    }
  }

  /** A cycle can be walked round often enough to make a chain of any length. */
  lemma {:induction false} Pump(edges: seq<Edge>, m: Message, cycle: seq<Message>, n: nat)
    requires |cycle| >= 1 && Path(edges, m, cycle + [m])
    ensures exists p :: Path(edges, m, p) && |p| > n
  {
    if n == 0 {
      assert Path(edges, m, [m]);
    } else {
      Pump(edges, m, cycle, n - 1);
      var p :| Path(edges, m, p) && |p| > n - 1;
      PumpOnce(edges, m, cycle, p);
    }
  }

  lemma PumpOnce(edges: seq<Edge>, m: Message, cycle: seq<Message>, p: seq<Message>)
    requires |cycle| >= 1 && Path(edges, m, cycle + [m]) && Path(edges, m, p)
    ensures Path(edges, m, cycle + p)
  {
    var q := cycle + p;
    forall i | 0 <= i < |q| - 1
      ensures Linked(edges, q[i], q[i + 1])
    {
      if i < |cycle| {
        assert q[i] == (cycle + [m])[i] && q[i + 1] == (cycle + [m])[i + 1];
      } else {
        assert q[i] == p[i - |cycle|] && q[i + 1] == p[i + 1 - |cycle|];
      }
    }
  }

  /** Meeting an active message again closes a cycle, and a cycle gives chains of any length. */
  lemma Revisited(edges: seq<Edge>, active: seq<Message>, m: Message)
    requires Leads(edges, active, m) && m in active
    ensures Deep(edges, m)
  {
    var j :| 0 <= j < |active| && active[j] == m;
    var cycle := active[j..];
    forall i | 0 <= i < |cycle|
      ensures Linked(edges, (cycle + [m])[i], (cycle + [m])[i + 1])
    {
      assert (cycle + [m])[i] == (active + [m])[i + j];
      assert (cycle + [m])[i + 1] == (active + [m])[i + 1 + j];
    }
    Pump(edges, m, cycle, 255);
  }

  lemma Extend(edges: seq<Edge>, active: seq<Message>, a: Message, b: Message)
    requires Leads(edges, active, a) && Linked(edges, a, b)
    ensures Leads(edges, active + [a], b)
  {
    var q := active + [a] + [b];
    forall i | 0 <= i < |q| - 1
      ensures Linked(edges, q[i], q[i + 1])
    {
      if i < |active| {
        assert q[i] == (active + [a])[i] && q[i + 1] == (active + [a])[i + 1];
      }
    }
  }

  /** What the walk knows after looking at the first `n` edges: `d` is the longest chain out of a
      message embedded in `m` by one of them, 0 when there is none. */
  ghost predicate Covered(edges: seq<Edge>, m: Message, n: nat, d: nat)
    requires n <= |edges|
  {
    && (d == 0 || exists i, p :: 0 <= i < n && edges[i].source == m && Path(edges, edges[i].target, p) && |p| == d)
    && forall i, p :: 0 <= i < n && edges[i].source == m && Path(edges, edges[i].target, p) ==> |p| <= d
  }

  lemma Combine(edges: seq<Edge>, m: Message, d: nat)
    requires Covered(edges, m, |edges|, d)
    ensures Longest(edges, m, d + 1)
  {
    if d == 0 {
      assert Path(edges, m, [m]);
    } else {
      var i, p :| 0 <= i < |edges| && edges[i].source == m && Path(edges, edges[i].target, p) && |p| == d;
      assert edges[i] in edges;
      Prepend(edges, m, edges[i].target, p);
      assert |[m] + p| == d + 1;
    }
    forall p | Path(edges, m, p)
      ensures |p| <= d + 1
    {
      if |p| > 1 {
        assert Linked(edges, p[0], p[1]);
        var e :| e in edges && e.source == p[0] && e.target == p[1];
        var i :| 0 <= i < |edges| && edges[i] == e;
        var tail := p[1..];
        forall k | 0 <= k < |tail| - 1
          ensures Linked(edges, tail[k], tail[k + 1])
        {
          assert tail[k] == p[k + 1] && tail[k + 1] == p[k + 1 + 1];
        }
        assert Path(edges, edges[i].target, tail);
      }
    }
  }

  lemma CoverSkip(edges: seq<Edge>, m: Message, n: nat, d: nat)
    requires n < |edges| && edges[n].source != m && Covered(edges, m, n, d)
    ensures Covered(edges, m, n + 1, d)
  {
    if d != 0 {
      var i, p :| 0 <= i < n && edges[i].source == m && Path(edges, edges[i].target, p) && |p| == d;
      assert i < n + 1;
    }
  }

  lemma CoverChild(edges: seq<Edge>, m: Message, n: nat, d: nat, child: nat)
    requires n < |edges| && edges[n].source == m && Covered(edges, m, n, d)
    requires Longest(edges, edges[n].target, child)
    ensures Covered(edges, m, n + 1, if child > d then child else d)
  {
    if child > d {
      var p :| Path(edges, edges[n].target, p) && |p| == child;
      assert n < n + 1;
    } else if d != 0 {
      var i, p :| 0 <= i < n && edges[i].source == m && Path(edges, edges[i].target, p) && |p| == d;
      assert i < n + 1;
    }
  }

  /** Going one message deeper keeps the stack a chain and leaves fewer messages unvisited. */
  lemma Descend(edges: seq<Edge>, stack: seq<Message>, m: Message, e: Edge)
    requires Leads(edges, stack, m) && m !in stack && e in edges && e.source == m
    ensures Leads(edges, stack + [m], e.target)
    ensures |Unvisited(edges, stack + [m])| < |Unvisited(edges, stack)|
  {
    Extend(edges, stack, m, e.target);
    assert Unvisited(edges, stack + [m]) == Unvisited(edges, stack) - {m};
    assert m in Unvisited(edges, stack);
  }

  lemma DeepAbove(edges: seq<Edge>, e: Edge)
    requires e in edges && Deep(edges, e.target)
    ensures Deep(edges, e.source)
  {
    var p :| Path(edges, e.target, p) && |p| >= 256;
    Prepend(edges, e.source, e.target, p);
  }

  /** What an answer means: the longest chain, or a chain no `u8` can measure. */
  ghost predicate Answers(edges: seq<Edge>, m: Message, r: Depth) {
    match r
    case Depth(d) => 1 <= d <= 255 && Longest(edges, m, d)
    case Panic => Deep(edges, m)
  }

  /** What the walk knows after the first `n` edges. */
  ghost predicate Walked(edges: seq<Edge>, m: Message, n: nat, r: Depth)
    requires n <= |edges|
  {
    match r
    case Depth(d) => d <= 255 && Covered(edges, m, n, d)
    case Panic => Deep(edges, m)
  }

  function Deeper(a: Depth, b: Depth): Depth {
    if a.Panic? || b.Panic? then Panic else if b.value > a.value then b else a
  }

  lemma WalkedSkip(edges: seq<Edge>, m: Message, n: nat, r: Depth)
    requires n < |edges| && edges[n].source != m && Walked(edges, m, n, r)
    ensures Walked(edges, m, n + 1, r)
  {
    if r.Depth? {
      CoverSkip(edges, m, n, r.value);
    }
  }

  lemma WalkedChild(edges: seq<Edge>, m: Message, n: nat, r: Depth, child: Depth)
    requires n < |edges| && edges[n].source == m && Walked(edges, m, n, r)
    requires Answers(edges, edges[n].target, child)
    ensures Walked(edges, m, n + 1, Deeper(r, child))
  {
    if child.Panic? {
      DeepAbove(edges, edges[n]);
    } else if r.Depth? {
      CoverChild(edges, m, n, r.value, child.value);
    }
  }

  lemma WalkedAll(edges: seq<Edge>, m: Message, r: Depth)
    requires Walked(edges, m, |edges|, r)
    ensures Answers(edges, m, if r.Depth? && r.value < 255 then Depth(r.value + 1) else Panic)
  {
    if r.Depth? {
      Combine(edges, m, r.value);
    }
  }

  /** Where a longest chain exists, no chain out of `m` meets a message twice. */
  lemma LongestIsAcyclic(edges: seq<Edge>, m: Message, d: nat, p: seq<Message>)
    requires Longest(edges, m, d) && Path(edges, m, p)
    ensures forall i, j :: 0 <= i < j < |p| ==> p[i] != p[j]
  {
    forall i, j | 0 <= i < j < |p|
      ensures p[i] != p[j]
    {
      if p[i] == p[j] {
        var cycle := p[i..j];
        assert cycle + [p[i]] == p[i..j + 1];
        Pump(edges, p[i], cycle, d);
        var q :| Path(edges, p[i], q) && |q| > d;
        Reach(edges, p[..i + 1], q);
        assert false;
      }
    }
  }

  /** Chains compose: a chain ending where another starts. */
  lemma Reach(edges: seq<Edge>, p: seq<Message>, q: seq<Message>)
    requires |p| >= 1 && Path(edges, p[0], p) && Path(edges, p[|p| - 1], q)
    ensures Path(edges, p[0], p + q[1..])
  {
    var w := p + q[1..];
    forall i | 0 <= i < |w| - 1
      ensures Linked(edges, w[i], w[i + 1])
    {
      if i + 1 < |p| {
        assert w[i] == p[i] && w[i + 1] == p[i + 1];
      } else {
        assert w[i] == q[i + 1 - |p|] && w[i + 1] == q[i + 1 - |p| + 1];
      }
    }
  }

  /** `message_depth`: a recursive walk over one shared stack of active messages.  The stack comes
      back as it was whenever the walk returns. */
  method MessageDepth(m: Message, edges: seq<Edge>, stack: seq<Message>) returns (r: Depth, active: seq<Message>)
    requires Leads(edges, stack, m)
    ensures Answers(edges, m, r)
    ensures r.Depth? ==> active == stack
    decreases |Unvisited(edges, stack)|
  {
    active := stack;
    if m in active {
      Revisited(edges, stack, m);
      return Panic, active;
    }
    active := active + [m];
    var below := Depth(0);
    var i := 0;
    while i < |edges| && below.Depth?
      invariant i <= |edges|
      invariant below.Depth? ==> active == stack + [m]
      invariant Walked(edges, m, i, below)
    {
      if edges[i].source == m {
        Descend(edges, stack, m, edges[i]);
        var child;
        child, active := MessageDepth(edges[i].target, edges, active);
        WalkedChild(edges, m, i, below, child);
        below := Deeper(below, child);
      } else {
        WalkedSkip(edges, m, i, below);
      }
      i := i + 1;
    }
    if below.Panic? {
      return Panic, active;
    }
    active := active[..|active| - 1];
    WalkedAll(edges, m, below);
    r := if below.value < 255 then Depth(below.value + 1) else Panic;
  }
}
