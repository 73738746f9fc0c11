/** The preimages of the request digests that bind a command id to a request.

    The digest itself is a parameter where it is nested; every claim is about the bytes hashed. */
module Requests {
  import opened Bytes
  import opened Encoding
  import opened Options

  // Tagged fields

  /** Each field as its one-byte tag, its length and its bytes; tags count up from `tag`. */
  function Tagged(fields: seq<Octets>, tag: nat): Octets
    requires tag + |fields| <= 256
    decreases |fields|
  {
    if fields == [] then [] else [tag] + Long(fields[0]) + Tagged(fields[1..], tag + 1)
  }

  /** What the encoders' length conversions accept. */
  predicate Fits(fields: seq<Octets>) {
    |fields| <= 255 && forall i :: 0 <= i < |fields| ==> |fields[i]| < TWO32
  }

  lemma {:induction false} CutTagged(a: seq<Octets>, b: seq<Octets>, tag: nat)
    requires Fits(a) && Fits(b) && tag + |a| <= 256 && tag + |b| <= 256
    requires Tagged(a, tag) == Tagged(b, tag)
    ensures a == b
    decreases |a|
  {
    if a == [] || b == [] {
      assert |Tagged(a, tag)| == 0 <==> a == [];
      assert |Tagged(b, tag)| == 0 <==> b == [];
    } else {
      var r, s := Tagged(a[1..], tag + 1), Tagged(b[1..], tag + 1);
      assert Tagged(a, tag) == [tag] + (Long(a[0]) + r) && Tagged(b, tag) == [tag] + (Long(b[0]) + s);
      Cut([tag], Long(a[0]) + r, [tag], Long(b[0]) + s);
      CutLong(a[0], r, b[0], s);
      CutTagged(a[1..], b[1..], tag + 1);
      assert a == [a[0]] + a[1..] && b == [b[0]] + b[1..];
    }
  }

  lemma Regroup(a: Octets, b: Octets, c: Octets)
    ensures a + (b + c) == (a + b) + c
  {
  }

  lemma Lengthens(head: Octets, longer: Octets, rest: Octets, tail: Octets)
    requires longer == rest + tail
    ensures head + longer == (head + rest) + tail
  {
  }

  lemma TailSnoc(s: seq<Octets>, x: Octets)
    requires s != []
    ensures (s + [x])[1..] == s[1..] + [x] && (s + [x])[0] == s[0]
  {
  }

  lemma {:induction false} TaggedAppends(fields: seq<Octets>, tag: nat, value: Octets)
    requires tag + |fields| < 256
    ensures Tagged(fields + [value], tag) == Tagged(fields, tag) + ([tag + |fields|] + Long(value))
    decreases |fields|
  {
    if fields == [] {
      assert [value][1..] == [];
    } else {
      TaggedAppends(fields[1..], tag + 1, value);
      TailSnoc(fields, value);
      Lengthens([tag] + Long(fields[0]), Tagged(fields[1..] + [value], tag + 1), Tagged(fields[1..], tag + 1),
                [tag + |fields|] + Long(value));
    }
  }

  // The preimage of the creative and asset-metadata commands

  const TASK009: Octets := Ascii("MENGXIA_TASK009_REQUEST_V1") + [0]

  function Preimage(operation: Octets, fields: seq<Octets>): Octets
    requires |fields| <= 255
  {
    TASK009 + Short(operation) + Tagged(fields, 1)
  }

  /** The buffer `task009_digest` hashes, built up as it is built there. */
  method BuildPreimage(operation: Octets, fields: seq<Octets>) returns (buffer: Octets)
    requires |operation| < TWO16 && Fits(fields)
    ensures buffer == Preimage(operation, fields)
  {
    buffer := TASK009;
    buffer := buffer + U16(|operation|);
    buffer := buffer + operation;
    assert fields[..0] == [];
    for i := 0 to |fields|
      invariant buffer == TASK009 + Short(operation) + Tagged(fields[..i], 1)
    {
      TaggedAppends(fields[..i], 1, fields[i]);
      assert fields[..i + 1] == fields[..i] + [fields[i]];
      buffer := buffer + [i + 1];
      buffer := buffer + U32(|fields[i]|);
      buffer := buffer + fields[i];
    }
    assert fields[..|fields|] == fields;
  }

  lemma PreimageInjective(op1: Octets, fields1: seq<Octets>, op2: Octets, fields2: seq<Octets>)
    requires |op1| < TWO16 && Fits(fields1) && |op2| < TWO16 && Fits(fields2)
    requires Preimage(op1, fields1) == Preimage(op2, fields2)
    ensures op1 == op2 && fields1 == fields2
  {
    var r, s := Tagged(fields1, 1), Tagged(fields2, 1);
    assert Preimage(op1, fields1) == TASK009 + (Short(op1) + r) && Preimage(op2, fields2) == TASK009 + (Short(op2) + s);
    Cut(TASK009, Short(op1) + r, TASK009, Short(op2) + s);
    CutShort(op1, r, op2, s);
    CutTagged(fields1, fields2, 1);
  }

  // Field encoders

  type Id = n: nat | n < TWO128

  function IdBytes(id: Id): Octets {
    U128(id)
  }

  function IdList(ids: seq<Id>): Octets {
    Counted(IdBytes, ids)
  }

  datatype Member = Member(name: Octets, digest: Octets)

  datatype Resource = Resource(kind: Octets, members: seq<Member>)

  datatype Representation = Representation(purpose: Octets, resources: seq<Resource>)

  predicate GoodMember(m: Member) {
    |m.name| < TWO16 && |m.digest| == 32
  }

  predicate GoodResource(r: Resource) {
    |r.kind| < TWO16 && |r.members| < TWO32 && forall i :: 0 <= i < |r.members| ==> GoodMember(r.members[i])
  }

  predicate GoodRepresentation(r: Representation) {
    |r.purpose| < TWO16 && |r.resources| < TWO32 && forall i :: 0 <= i < |r.resources| ==> GoodResource(r.resources[i])
  }

  predicate GoodGraph(graph: seq<Representation>) {
    |graph| < TWO32 && forall i :: 0 <= i < |graph| ==> GoodRepresentation(graph[i])
  }

  function MemberBytes(m: Member): Octets {
    Short(m.name) + m.digest
  }

  function ResourceBytes(r: Resource): Octets {
    Short(r.kind) + Counted(MemberBytes, r.members)
  }

  function RepresentationBytes(r: Representation): Octets {
    Short(r.purpose) + Counted(ResourceBytes, r.resources)
  }

  function GraphBytes(graph: seq<Representation>): Octets {
    Counted(RepresentationBytes, graph)
  }

  lemma CutId(a: Id, r: Octets, b: Id, s: Octets)
    requires IdBytes(a) + r == IdBytes(b) + s
    ensures a == b && r == s
  {
    Cut(IdBytes(a), r, IdBytes(b), s);
    Back128(a);
    Back128(b);
  }

  lemma IdDelimits()
    ensures SelfDelimiting(IdBytes, (_: Id) => true)
  {
    forall a, b, r, s | IdBytes(a) + r == IdBytes(b) + s ensures a == b && r == s {
      CutId(a, r, b, s);
    }
  }

  lemma CutMember(a: Member, r: Octets, b: Member, s: Octets)
    requires GoodMember(a) && GoodMember(b) && MemberBytes(a) + r == MemberBytes(b) + s
    ensures a == b && r == s
  {
    assert MemberBytes(a) + r == Short(a.name) + (a.digest + r) && MemberBytes(b) + s == Short(b.name) + (b.digest + s);
    CutShort(a.name, a.digest + r, b.name, b.digest + s);
    Cut(a.digest, r, b.digest, s);
  }

  lemma MemberDelimits()
    ensures SelfDelimiting(MemberBytes, GoodMember)
  {
    forall a, b, r, s | GoodMember(a) && GoodMember(b) && MemberBytes(a) + r == MemberBytes(b) + s
      ensures a == b && r == s
    {
      CutMember(a, r, b, s);
    }
  }

  lemma CutResource(a: Resource, r: Octets, b: Resource, s: Octets)
    requires GoodResource(a) && GoodResource(b) && ResourceBytes(a) + r == ResourceBytes(b) + s
    ensures a == b && r == s
  {
    var ra, rb := Counted(MemberBytes, a.members) + r, Counted(MemberBytes, b.members) + s;
    assert ResourceBytes(a) + r == Short(a.kind) + ra && ResourceBytes(b) + s == Short(b.kind) + rb;
    CutShort(a.kind, ra, b.kind, rb);
    MemberDelimits();
    CutCounted(MemberBytes, GoodMember, a.members, r, b.members, s);
  }

  lemma ResourceDelimits()
    ensures SelfDelimiting(ResourceBytes, GoodResource)
  {
    forall a, b, r, s | GoodResource(a) && GoodResource(b) && ResourceBytes(a) + r == ResourceBytes(b) + s
      ensures a == b && r == s
    {
      CutResource(a, r, b, s);
    }
  }

  lemma CutRepresentation(a: Representation, r: Octets, b: Representation, s: Octets)
    requires GoodRepresentation(a) && GoodRepresentation(b) && RepresentationBytes(a) + r == RepresentationBytes(b) + s
    ensures a == b && r == s
  {
    var ra, rb := Counted(ResourceBytes, a.resources) + r, Counted(ResourceBytes, b.resources) + s;
    assert RepresentationBytes(a) + r == Short(a.purpose) + ra && RepresentationBytes(b) + s == Short(b.purpose) + rb;
    CutShort(a.purpose, ra, b.purpose, rb);
    ResourceDelimits();
    CutCounted(ResourceBytes, GoodResource, a.resources, r, b.resources, s);
  }

  lemma RepresentationDelimits()
    ensures SelfDelimiting(RepresentationBytes, GoodRepresentation)
  {
    forall a, b, r, s | GoodRepresentation(a) && GoodRepresentation(b) && RepresentationBytes(a) + r == RepresentationBytes(b) + s
      ensures a == b && r == s
    {
      CutRepresentation(a, r, b, s);
    }
  }

  /** The three-level graph encoding is uniquely decodable, alone or with anything behind it. */
  lemma CutGraph(a: seq<Representation>, r: Octets, b: seq<Representation>, s: Octets)
    requires GoodGraph(a) && GoodGraph(b) && GraphBytes(a) + r == GraphBytes(b) + s
    ensures a == b && r == s
  {
    RepresentationDelimits();
    CutCounted(RepresentationBytes, GoodRepresentation, a, r, b, s);
  }

  lemma CutIds(a: seq<Id>, r: Octets, b: seq<Id>, s: Octets)
    requires |a| < TWO32 && |b| < TWO32 && IdList(a) + r == IdList(b) + s
    ensures a == b && r == s
  {
    IdDelimits();
    CutCounted(IdBytes, (_: Id) => true, a, r, b, s);
  }

  // The encoders' loops

  method AppendIds(buffer: Octets, ids: seq<Id>) returns (bytes: Octets)
    ensures bytes == buffer + IdList(ids)
  {
    bytes := buffer + U32(|ids|);
    ghost var base := bytes;
    for i := 0 to |ids|
      invariant bytes == base + Each(IdBytes, ids[..i])
    {
      EachNext(IdBytes, ids, i, base);
      bytes := bytes + IdBytes(ids[i]);
    }
    assert ids[..|ids|] == ids;
    Regroup(buffer, U32(|ids|), Each(IdBytes, ids));
  }

  method AppendMembers(buffer: Octets, members: seq<Member>) returns (bytes: Octets)
    ensures bytes == buffer + Counted(MemberBytes, members)
  {
    bytes := buffer + U32(|members|);
    ghost var base := bytes;
    for i := 0 to |members|
      invariant bytes == base + Each(MemberBytes, members[..i])
    {
      EachNext(MemberBytes, members, i, base);
      Regroup(bytes, U16(|members[i].name|), members[i].name);
      Regroup(bytes, Short(members[i].name), members[i].digest);
      bytes := bytes + U16(|members[i].name|);
      bytes := bytes + members[i].name;
      bytes := bytes + members[i].digest;
    }
    assert members[..|members|] == members;
    Regroup(buffer, U32(|members|), Each(MemberBytes, members));
  }

  method AppendResources(buffer: Octets, resources: seq<Resource>) returns (bytes: Octets)
    ensures bytes == buffer + Counted(ResourceBytes, resources)
  {
    bytes := buffer + U32(|resources|);
    ghost var base := bytes;
    for i := 0 to |resources|
      invariant bytes == base + Each(ResourceBytes, resources[..i])
    {
      EachNext(ResourceBytes, resources, i, base);
      Regroup(bytes, U16(|resources[i].kind|), resources[i].kind);
      Regroup(bytes, Short(resources[i].kind), Counted(MemberBytes, resources[i].members));
      bytes := bytes + U16(|resources[i].kind|);
      bytes := bytes + resources[i].kind;
      bytes := AppendMembers(bytes, resources[i].members);
    }
    assert resources[..|resources|] == resources;
    Regroup(buffer, U32(|resources|), Each(ResourceBytes, resources));
  }

  /** `revision_graph_bytes`, its two inner loops as methods of their own. */
  method RevisionGraphBytes(graph: seq<Representation>) returns (bytes: Octets)
    ensures bytes == GraphBytes(graph)
  {
    bytes := U32(|graph|);
    ghost var base := bytes;
    for i := 0 to |graph|
      invariant bytes == base + Each(RepresentationBytes, graph[..i])
    {
      EachNext(RepresentationBytes, graph, i, base);
      Regroup(bytes, U16(|graph[i].purpose|), graph[i].purpose);
      Regroup(bytes, Short(graph[i].purpose), Counted(ResourceBytes, graph[i].resources));
      bytes := bytes + U16(|graph[i].purpose|);
      bytes := bytes + graph[i].purpose;
      bytes := AppendResources(bytes, graph[i].resources);
    }
    assert graph[..|graph|] == graph;
  }

  // Identity sets

  lemma {:induction false} FindLeast(s: set<nat>) returns (m: nat)
    requires s != {}
    ensures m in s && forall x :: x in s ==> m <= x
    decreases |s|
  {
    var first :| first in s;
    var rest := s - {first};
    m := first;
    if rest != {} {
      var other := FindLeast(rest);
      m := if other < first then other else first;
    }
    forall x | x in s ensures m <= x {
      assert x == first || x in rest;
    }
  }

  function Least(s: set<nat>): (m: nat)
    requires s != {}
    ensures m in s && forall x :: x in s ==> m <= x
  {
    assert exists m :: m in s && forall x :: x in s ==> m <= x by {
      var m := FindLeast(s);
    }
    var m :| m in s && forall x :: x in s ==> m <= x;
    m
  }

  /** The members in increasing order, as a `BTreeSet` iterates. */
  function Sorted(s: set<Id>): (r: seq<Id>)
    ensures |r| == |s|
  {
    if s == {} then [] else [Least(s)] + Sorted(s - {Least(s)})
  }

  lemma {:induction false} SortedMembers(s: set<Id>, x: Id)
    ensures x in Sorted(s) <==> x in s
  {
    if s != {} {
      SortedMembers(s - {Least(s)}, x);
    }
  }

  lemma SortedInjective(s: set<Id>, t: set<Id>)
    requires Sorted(s) == Sorted(t)
    ensures s == t
  {
    forall x ensures x in s <==> x in t {
      SortedMembers(s, x);
      SortedMembers(t, x);
    }
  }

  function Elements(values: seq<Id>): set<Id> {
    set x | x in values
  }

  /** `validate_relationship_set`. */
  function Canonical(values: seq<Id>, maximum: nat): Option<seq<Id>> {
    if |Elements(values)| != |values| || |Elements(values)| > maximum then None else Some(Sorted(Elements(values)))
  }

  predicate Distinct(values: seq<Id>) {
    forall i, j :: 0 <= i < j < |values| ==> values[i] != values[j]
  }

  lemma {:induction false} ElementsCount(values: seq<Id>)
    ensures |Elements(values)| <= |values|
    ensures |Elements(values)| == |values| <==> Distinct(values)
  {
    if values != [] {
      var last, rest := values[|values| - 1], values[..|values| - 1];
      ElementsCount(rest);
      assert values == rest + [last];
      assert Elements(values) == Elements(rest) + {last};
      if last in rest {
        assert Elements(values) == Elements(rest);
      } else {
        assert last !in Elements(rest);
      }
    }
  }

  /** A set is accepted exactly when it has no duplicates and is small enough, and then two inputs
      encode alike exactly when they have the same members, in whatever order. */
  lemma CanonicalExact(a: seq<Id>, b: seq<Id>, maximum: nat)
    ensures Canonical(a, maximum).Some? <==> Distinct(a) && |a| <= maximum
    ensures Canonical(a, maximum).Some? && Canonical(b, maximum).Some? ==>
              (Canonical(a, maximum) == Canonical(b, maximum) <==> Elements(a) == Elements(b))
  {
    ElementsCount(a);
    if Sorted(Elements(a)) == Sorted(Elements(b)) {
      SortedInjective(Elements(a), Elements(b));
    }
  }
}

/** The commands themselves: every command's canonical fields, and the digests of the two
    external commands. */
module Commands {
  import opened Bytes
  import opened Encoding
  import opened Options
  import opened Requests

  datatype Pair = Pair(left: nat, right: nat)

  datatype Specification = Specification(
    resolution: Option<Pair>,
    frameRate: Option<Pair>,
    aspectRatio: Option<Pair>,
    color: Octets,
    audio: Octets,
    quality: Octets,
    privacy: Octets)

  datatype Related = Related(take: Id, revision: nat)

  /** The requests of the creative and asset-metadata services. */
  datatype Request =
    | CreateRevision(asset: Id, expected: nat, parents: seq<Id>, contentKind: Octets, graph: seq<Representation>)
    | Retire(asset: Id, expected: nat)
    | Restore(asset: Id, expected: nat)
    | CreateProject(name: Octets, specification: Specification)
    | ReviseProject(project: Id, expected: nat, specification: Specification)
    | CreateSubject(subjectKind: Octets, name: Octets)
    | CreateWork(project: Id, workKind: Byte, code: Octets, json: Octets, subjects: set<Id>, assets: set<Id>)
    | ReviseWork(project: Id, work: Id, expected: nat, json: Octets, subjects: set<Id>, assets: set<Id>)
    | CreateTake(project: Id, work: Id, workRevision: Id, asset: Id)
    | TransitionTake(project: Id, work: Id, workRevision: Id, take: Id, expected: nat, transition: Byte,
                     reason: Option<Octets>, related: Option<Related>)
    | ReopenTake(project: Id, work: Id, workRevision: Id, take: Id, expected: nat, asset: Id)

  function Name(r: Request): string {
    match r
    case CreateRevision(_, _, _, _, _) => "asset.revision.create.v1"
    case Retire(_, _) => "asset.retire.v1"
    case Restore(_, _) => "asset.restore.v1"
    case CreateProject(_, _) => "project.create.v1"
    case ReviseProject(_, _, _) => "project.spec.revise.v1"
    case CreateSubject(_, _) => "subject.create.v1"
    case CreateWork(_, _, _, _, _, _) => "work.create.v1"
    case ReviseWork(_, _, _, _, _, _) => "work.revise.v1"
    case CreateTake(_, _, _, _) => "take.create.v1"
    case TransitionTake(_, _, _, _, _, _, _, _) => "take.transition.v1"
    case ReopenTake(_, _, _, _, _, _) => "take.reopen.v1"
  }

  function OptionalPair(p: Option<Pair>): Octets {
    if p.None? then [0] else [1] + U32(p.value.left) + U32(p.value.right)
  }

  function SpecificationFields(s: Specification): seq<Octets> {
    [OptionalPair(s.resolution), OptionalPair(s.frameRate), OptionalPair(s.aspectRatio),
     s.color, s.audio, s.quality, s.privacy]
  }

  function OptionalReason(r: Option<Octets>): Octets {
    if r.None? then [0] else [1] + r.value
  }

  function OptionalRelated(r: Option<Related>): Octets {
    if r.None? then [0] else [1] + IdBytes(r.value.take) + U64(r.value.revision)
  }

  function Fields(r: Request): (fields: seq<Octets>)
    ensures |fields| <= 255
  {
    match r
    case CreateRevision(asset, expected, parents, kind, graph) =>
      [IdBytes(asset), U64(expected), IdList(parents), kind, GraphBytes(graph)]
    case Retire(asset, expected) => [IdBytes(asset), U64(expected)]
    case Restore(asset, expected) => [IdBytes(asset), U64(expected)]
    case CreateProject(name, specification) => [name] + SpecificationFields(specification)
    case ReviseProject(project, expected, specification) =>
      [IdBytes(project), U64(expected)] + SpecificationFields(specification)
    case CreateSubject(kind, name) => [kind, name]
    case CreateWork(project, kind, code, json, subjects, assets) =>
      [IdBytes(project), [kind], code, json, IdList(Sorted(subjects)), IdList(Sorted(assets))]
    case ReviseWork(project, work, expected, json, subjects, assets) =>
      [IdBytes(project), IdBytes(work), U64(expected), json, IdList(Sorted(subjects)), IdList(Sorted(assets))]
    case CreateTake(project, work, revision, asset) =>
      [IdBytes(project), IdBytes(work), IdBytes(revision), IdBytes(asset)]
    case TransitionTake(project, work, revision, take, expected, transition, reason, related) =>
      [IdBytes(project), IdBytes(work), IdBytes(revision), IdBytes(take), U64(expected), [transition],
       OptionalReason(reason), OptionalRelated(related)]
    case ReopenTake(project, work, revision, take, expected, asset) =>
      [IdBytes(project), IdBytes(work), IdBytes(revision), IdBytes(take), U64(expected), IdBytes(asset)]
  }

  predicate GoodPair(p: Option<Pair>) {
    p.Some? ==> p.value.left < TWO32 && p.value.right < TWO32
  }

  predicate GoodSpecification(s: Specification) {
    && GoodPair(s.resolution) && GoodPair(s.frameRate) && GoodPair(s.aspectRatio)
    && |s.color| == |s.audio| == |s.quality| == |s.privacy| == 32
  }

  /** The request's numbers fit their types, and none of its fields is longer than a length can say. */
  predicate Good(r: Request) {
    && Fits(Fields(r))
    && match r
       case CreateRevision(_, expected, parents, _, graph) => expected < TWO64 && |parents| < TWO32 && GoodGraph(graph)
       case Retire(_, expected) => expected < TWO64
       case Restore(_, expected) => expected < TWO64
       case CreateProject(_, specification) => GoodSpecification(specification)
       case ReviseProject(_, expected, specification) => expected < TWO64 && GoodSpecification(specification)
       case CreateSubject(_, _) => true
       case CreateWork(_, _, _, _, subjects, assets) => |subjects| <= 64 && |assets| <= 64
       case ReviseWork(_, _, expected, _, subjects, assets) => expected < TWO64 && |subjects| <= 64 && |assets| <= 64
       case CreateTake(_, _, _, _) => true
       case TransitionTake(_, _, _, _, expected, _, _, related) =>
         expected < TWO64 && (related.Some? ==> related.value.revision < TWO64)
       case ReopenTake(_, _, _, _, expected, _) => expected < TWO64
  }

  lemma SameNumber(a: nat, b: nat)
    requires a < TWO64 && b < TWO64 && U64(a) == U64(b)
    ensures a == b
  {
    Back64(a);
    Back64(b);
  }

  lemma SameId(a: Id, b: Id)
    requires IdBytes(a) == IdBytes(b)
    ensures a == b
  {
    Back128(a);
    Back128(b);
  }

  lemma SameIds(a: set<Id>, b: set<Id>)
    requires |a| <= 64 && |b| <= 64 && IdList(Sorted(a)) == IdList(Sorted(b))
    ensures a == b
  {
    CutIds(Sorted(a), [], Sorted(b), []);
    SortedInjective(a, b);
  }

  lemma SamePair(a: Option<Pair>, b: Option<Pair>)
    requires GoodPair(a) && GoodPair(b) && OptionalPair(a) == OptionalPair(b)
    ensures a == b
  {
    assert OptionalPair(a)[0] == if a.None? then 0 else 1;
    assert OptionalPair(b)[0] == if b.None? then 0 else 1;
    if a.Some? && b.Some? {
      Cut([1] + U32(a.value.left), U32(a.value.right), [1] + U32(b.value.left), U32(b.value.right));
      Cut([1], U32(a.value.left), [1], U32(b.value.left));
      Back32(a.value.left);
      Back32(b.value.left);
      Back32(a.value.right);
      Back32(b.value.right);
    }
  }

  lemma SameReason(a: Option<Octets>, b: Option<Octets>)
    requires OptionalReason(a) == OptionalReason(b)
    ensures a == b
  {
    assert OptionalReason(a)[0] == if a.None? then 0 else 1;
    assert OptionalReason(b)[0] == if b.None? then 0 else 1;
    if a.Some? && b.Some? {
      Cut([1], a.value, [1], b.value);
    }
  }

  lemma SameRelated(a: Option<Related>, b: Option<Related>)
    requires (a.Some? ==> a.value.revision < TWO64) && (b.Some? ==> b.value.revision < TWO64)
    requires OptionalRelated(a) == OptionalRelated(b)
    ensures a == b
  {
    assert OptionalRelated(a)[0] == if a.None? then 0 else 1;
    assert OptionalRelated(b)[0] == if b.None? then 0 else 1;
    if a.Some? && b.Some? {
      Cut([1] + IdBytes(a.value.take), U64(a.value.revision), [1] + IdBytes(b.value.take), U64(b.value.revision));
      Cut([1], IdBytes(a.value.take), [1], IdBytes(b.value.take));
      SameId(a.value.take, b.value.take);
      SameNumber(a.value.revision, b.value.revision);
    }
  }

  lemma SameSpecification(a: Specification, b: Specification)
    requires GoodSpecification(a) && GoodSpecification(b) && SpecificationFields(a) == SpecificationFields(b)
    ensures a == b
  {
    var f, g := SpecificationFields(a), SpecificationFields(b);
    assert f[0] == g[0] && f[1] == g[1] && f[2] == g[2] && f[3] == g[3] && f[4] == g[4] && f[5] == g[5] && f[6] == g[6];
    SamePair(a.resolution, b.resolution);
    SamePair(a.frameRate, b.frameRate);
    SamePair(a.aspectRatio, b.aspectRatio);
  }

  /** Names tell the operations apart. */
  function Kind(r: Request): nat {
    match r
    case CreateRevision(_, _, _, _, _) => 0
    case Retire(_, _) => 1
    case Restore(_, _) => 2
    case CreateProject(_, _) => 3
    case ReviseProject(_, _, _) => 4
    case CreateSubject(_, _) => 5
    case CreateWork(_, _, _, _, _, _) => 6
    case ReviseWork(_, _, _, _, _, _) => 7
    case CreateTake(_, _, _, _) => 8
    case TransitionTake(_, _, _, _, _, _, _, _) => 9
    case ReopenTake(_, _, _, _, _, _) => 10
  }

  /** Length, initial and sixth byte suffice. */
  function Signature(b: Octets): (nat, Byte, Byte) {
    if |b| > 5 then (|b|, b[0], b[5]) else (|b|, 0, 0)
  }

  lemma SignatureTells(a: Request, b: Request)
    requires Signature(Ascii(Name(a))) == Signature(Ascii(Name(b)))
    ensures Kind(a) == Kind(b)
  {
  }

  lemma SameAssetRequest(a: Request, b: Request)
    requires Kind(a) == Kind(b) <= 2 && Good(a) && Good(b) && Fields(a) == Fields(b)
    ensures a == b
  {
    var f, g := Fields(a), Fields(b);
    assert f[0] == g[0] && f[1] == g[1];
    SameId(a.asset, b.asset);
    SameNumber(a.expected, b.expected);
    if a.CreateRevision? {
      assert f[2] == g[2] && f[3] == g[3] && f[4] == g[4];
      CutIds(a.parents, [], b.parents, []);
      CutGraph(a.graph, [], b.graph, []);
    }
  }

  lemma SameProjectRequest(a: Request, b: Request)
    requires Kind(a) == Kind(b) && 3 <= Kind(a) <= 5 && Good(a) && Good(b) && Fields(a) == Fields(b)
    ensures a == b
  {
    var f, g := Fields(a), Fields(b);
    assert f[0] == g[0] && f[1] == g[1];
    if a.CreateProject? {
      assert SpecificationFields(a.specification) == f[1..] && SpecificationFields(b.specification) == g[1..];
      SameSpecification(a.specification, b.specification);
    } else if a.ReviseProject? {
      assert SpecificationFields(a.specification) == f[2..] && SpecificationFields(b.specification) == g[2..];
      SameSpecification(a.specification, b.specification);
      SameId(a.project, b.project);
      SameNumber(a.expected, b.expected);
    }
  }

  lemma SameWorkRequest(a: Request, b: Request)
    requires Kind(a) == Kind(b) && 6 <= Kind(a) <= 7 && Good(a) && Good(b) && Fields(a) == Fields(b)
    ensures a == b
  {
    var f, g := Fields(a), Fields(b);
    assert f[0] == g[0] && f[1] == g[1] && f[2] == g[2] && f[3] == g[3] && f[4] == g[4] && f[5] == g[5];
    SameId(a.project, b.project);
    SameIds(a.subjects, b.subjects);
    SameIds(a.assets, b.assets);
    if a.ReviseWork? {
      SameId(a.work, b.work);
      SameNumber(a.expected, b.expected);
    } else {
      assert a.workKind == f[1][0] && b.workKind == g[1][0];
    }
  }

  lemma SameTakeRequest(a: Request, b: Request)
    requires Kind(a) == Kind(b) && 8 <= Kind(a) <= 10 && Good(a) && Good(b) && Fields(a) == Fields(b)
    ensures a == b
  {
    var f, g := Fields(a), Fields(b);
    assert f[0] == g[0] && f[1] == g[1] && f[2] == g[2] && f[3] == g[3];
    SameId(a.project, b.project);
    SameId(a.work, b.work);
    SameId(a.workRevision, b.workRevision);
    if a.CreateTake? {
      SameId(a.asset, b.asset);
    } else {
      assert f[4] == g[4] && f[5] == g[5];
      SameId(a.take, b.take);
      SameNumber(a.expected, b.expected);
      if a.ReopenTake? {
        SameId(a.asset, b.asset);
      } else {
        assert f[6] == g[6] && f[7] == g[7];
        assert a.transition == f[5][0] && b.transition == g[5][0];
        SameReason(a.reason, b.reason);
        SameRelated(a.related, b.related);
      }
    }
  }

  lemma SameFields(a: Request, b: Request)
    requires Kind(a) == Kind(b) && Good(a) && Good(b) && Fields(a) == Fields(b)
    ensures a == b
  {
    if Kind(a) <= 2 {
      SameAssetRequest(a, b);
    } else if Kind(a) <= 5 {
      SameProjectRequest(a, b);
    } else if Kind(a) <= 7 {
      SameWorkRequest(a, b);
    } else {
      SameTakeRequest(a, b);
    }
  }

  /** Two requests, of whatever operations, have one preimage only if they are the same request. */
  lemma RequestsInjective(a: Request, b: Request)
    requires Good(a) && Good(b)
    requires Preimage(Ascii(Name(a)), Fields(a)) == Preimage(Ascii(Name(b)), Fields(b))
    ensures a == b
  {
    PreimageInjective(Ascii(Name(a)), Fields(a), Ascii(Name(b)), Fields(b));
    SignatureTells(a, b);
    SameFields(a, b);
  }

  // The external commands

  datatype IngestRequest = IngestRequest(
    path: Octets,
    assetKind: Octets,
    contentKind: Octets,
    purpose: Octets,
    resourceKind: Octets,
    logicalName: Octets,
    expectedDigest: Option<Octets>)

  const INGEST: Octets := Ascii("MENGXIA_ASSET_INGEST_COPY_REQUEST_V1") + [0]

  function SourceSelector(path: Octets): Octets {
    Ascii("MENGXIA_SOURCE_SELECTOR_V1") + [0] + Short(path)
  }

  function IngestFields(hash: Octets -> Octets, r: IngestRequest): seq<Octets> {
    [Ascii("COPY_V1"), hash(SourceSelector(r.path)), r.assetKind, r.contentKind, r.purpose, r.resourceKind, r.logicalName,
     [0], OptionalReason(r.expectedDigest)]
  }

  function IngestPreimage(hash: Octets -> Octets, r: IngestRequest): Octets {
    INGEST + Tagged(IngestFields(hash, r), 1)
  }

  datatype MaterializeRequest = MaterializeRequest(
    asset: Id,
    revision: Id,
    representation: Id,
    resource: Id,
    ordinal: nat,
    destination: Octets)

  const MATERIALIZE: Octets := Ascii("MENGXIA_ASSET_MATERIALIZE_MEMBER_REQUEST_V1") + [0]

  function DestinationSelector(destination: Octets): Octets {
    Ascii("MENGXIA_DESTINATION_SELECTOR_V1") + [0] + Short(destination)
  }

  function MaterializeFields(hash: Octets -> Octets, r: MaterializeRequest): seq<Octets> {
    [IdBytes(r.asset), IdBytes(r.revision), IdBytes(r.representation), IdBytes(r.resource), U32(r.ordinal),
     hash(DestinationSelector(r.destination)), Ascii("NO_REPLACE_FILE_V1")]
  }

  function MaterializePreimage(hash: Octets -> Octets, r: MaterializeRequest): Octets {
    MATERIALIZE + Tagged(MaterializeFields(hash, r), 1)
  }

  lemma SameSelector(domain: Octets, p: Octets, q: Octets)
    requires |p| < TWO16 && |q| < TWO16 && domain + [0] + Short(p) == domain + [0] + Short(q)
    ensures p == q
  {
    Cut(domain + [0], Short(p), domain + [0], Short(q));
    CutShort(p, [], q, []);
  }

  /** Two ingest requests with one preimage agree on every field; their paths agree as far as the
      selector hash tells paths apart. */
  lemma IngestInjective(hash: Octets -> Octets, a: IngestRequest, b: IngestRequest)
    requires Fits(IngestFields(hash, a)) && Fits(IngestFields(hash, b)) && |a.path| < TWO16 && |b.path| < TWO16
    requires IngestPreimage(hash, a) == IngestPreimage(hash, b)
    ensures a.(path := b.path) == b && hash(SourceSelector(a.path)) == hash(SourceSelector(b.path))
    ensures SourceSelector(a.path) == SourceSelector(b.path) ==> a == b
  {
    var f, g := IngestFields(hash, a), IngestFields(hash, b);
    Cut(INGEST, Tagged(f, 1), INGEST, Tagged(g, 1));
    CutTagged(f, g, 1);
    assert f[1] == g[1] && f[2] == g[2] && f[3] == g[3] && f[4] == g[4] && f[5] == g[5] && f[6] == g[6] && f[8] == g[8];
    SameReason(a.expectedDigest, b.expectedDigest);
    if SourceSelector(a.path) == SourceSelector(b.path) {
      SameSelector(Ascii("MENGXIA_SOURCE_SELECTOR_V1"), a.path, b.path);
    }
  }

  lemma MaterializeInjective(hash: Octets -> Octets, a: MaterializeRequest, b: MaterializeRequest)
    requires Fits(MaterializeFields(hash, a)) && Fits(MaterializeFields(hash, b))
    requires a.ordinal < TWO32 && b.ordinal < TWO32 && |a.destination| < TWO16 && |b.destination| < TWO16
    requires MaterializePreimage(hash, a) == MaterializePreimage(hash, b)
    ensures a.(destination := b.destination) == b
    ensures hash(DestinationSelector(a.destination)) == hash(DestinationSelector(b.destination))
    ensures DestinationSelector(a.destination) == DestinationSelector(b.destination) ==> a == b
  {
    var f, g := MaterializeFields(hash, a), MaterializeFields(hash, b);
    Cut(MATERIALIZE, Tagged(f, 1), MATERIALIZE, Tagged(g, 1));
    CutTagged(f, g, 1);
    assert f[0] == g[0] && f[1] == g[1] && f[2] == g[2] && f[3] == g[3] && f[4] == g[4] && f[5] == g[5];
    SameId(a.asset, b.asset);
    SameId(a.revision, b.revision);
    SameId(a.representation, b.representation);
    SameId(a.resource, b.resource);
    Back32(a.ordinal);
    Back32(b.ordinal);
    if DestinationSelector(a.destination) == DestinationSelector(b.destination) {
      SameSelector(Ascii("MENGXIA_DESTINATION_SELECTOR_V1"), a.destination, b.destination);
    }
  }

  lemma DomainBytes()
    ensures |TASK009| > 14 && |INGEST| > 14 && |MATERIALIZE| > 14
    ensures TASK009[8] != INGEST[8] == MATERIALIZE[8] && INGEST[14] != MATERIALIZE[14]
  {
  }

  lemma DomainsDiffer(d: Octets, x: Octets, e: Octets, y: Octets, i: nat)
    requires i < |d| && i < |e| && d[i] != e[i]
    ensures d + x != e + y
  {
    assert (d + x)[i] == d[i] && (e + y)[i] == e[i];
  }

  /** The three families of preimages are disjoint. */
  lemma FamiliesDisjoint(operation: Octets, fields: seq<Octets>, hash: Octets -> Octets, i: IngestRequest, m: MaterializeRequest)
    requires |fields| <= 255
    ensures Preimage(operation, fields) != IngestPreimage(hash, i)
    ensures Preimage(operation, fields) != MaterializePreimage(hash, m)
    ensures IngestPreimage(hash, i) != MaterializePreimage(hash, m)
  {
    DomainBytes();
    var x, y, z := Short(operation) + Tagged(fields, 1), Tagged(IngestFields(hash, i), 1), Tagged(MaterializeFields(hash, m), 1);
    Regroup(TASK009, Short(operation), Tagged(fields, 1));
    DomainsDiffer(TASK009, x, INGEST, y, 8);
    DomainsDiffer(TASK009, x, MATERIALIZE, z, 8);
    DomainsDiffer(INGEST, y, MATERIALIZE, z, 14);
  }
}
