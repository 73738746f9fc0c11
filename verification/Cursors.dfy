/** The four opaque page cursors.  A cursor is a fixed layout of clear fields and a checksum over
    them; `hash` is any function with 32-byte results. */
module Cursors {
  import opened Bytes
  import opened Codes
  import opened Encoding
  import opened Options
  import opened Requests

  ghost predicate Checksum(hash: Octets -> Octets) {
    forall b :: |hash(b)| == 32
  }

  function Zeros(n: nat): (z: Octets)
    ensures |z| == n
  {
    seq(n, _ => 0)
  }

  /** One piece of a layout: reading it at its place is reading it off the front. */
  lemma At(c: Octets, i: nat, piece: Octets, rest: Octets)
    requires i + |piece| <= |c|
    ensures c[i..] == piece + rest <==> c[i..i + |piece|] == piece && c[i + |piece|..] == rest
  {
    if c[i..] == piece + rest {
      assert c[i..i + |piece|] == c[i..][..|piece|] && c[i + |piece|..] == c[i..][|piece|..];
    } else if c[i..i + |piece|] == piece {
      assert c[i..] == c[i..i + |piece|] + c[i + |piece|..];
    }
  }

  /** The buffer is untouched from `at` on. */
  ghost predicate Fresh(a: array<Byte>, at: nat)
    reads a
  {
    at <= a.Length && a[at..] == Zeros(a.Length - at)
  }

  /** Copying into a slice of a buffer that is filled from the front. */
  method Put(a: array<Byte>, at: nat, bytes: Octets)
    requires at + |bytes| <= a.Length && Fresh(a, at)
    modifies a
    ensures a[..at + |bytes|] == old(a[..at]) + bytes
    ensures Fresh(a, at + |bytes|)
  {
    for i := 0 to |bytes|
      invariant a[..at + i] == old(a[..at]) + bytes[..i]
      invariant Fresh(a, at + i)
    {
      ghost var before := a[at + i..];
      a[at + i] := bytes[i];
      assert a[at + i + 1..] == before[1..];
      assert bytes[..i + 1] == bytes[..i] + [bytes[i]];
    }
    assert bytes[..|bytes|] == bytes;
  }

  /** Copying, then leaving a gap of `n` zeros. */
  method PutGap(a: array<Byte>, at: nat, bytes: Octets, ghost n: nat)
    requires at + |bytes| + n <= a.Length && Fresh(a, at)
    modifies a
    ensures a[..at + |bytes| + n] == old(a[..at]) + (bytes + Zeros(n))
    ensures Fresh(a, at + |bytes| + n)
  {
    Put(a, at, bytes);
    ghost var k := at + |bytes|;
    assert a[k + n..] == a[k..][n..];
    assert a[..k + n] == a[..k] + a[k..][..n];
  }

  function ScopeBytes(magic: Octets, version: nat, length: nat, operation: nat, library: Octets): Octets {
    magic + (U16(version) + (U16(length) + (U32(operation) + library)))
  }

  /** The first 32 bytes of three of the four families. */
  method PutScope(a: array<Byte>, magic: Octets, version: nat, length: nat, operation: nat, library: Octets)
    requires a.Length >= 32 && Fresh(a, 0) && |magic| == 8 && |library| == 16
    modifies a
    ensures Fresh(a, 32) && a[..32] == ScopeBytes(magic, version, length, operation, library)
  {
    Put(a, 0, magic);
    Put(a, 8, U16(version));
    Put(a, 10, U16(length));
    Put(a, 12, U32(operation));
    Put(a, 16, library);
  }

  // Asset lists

  datatype ListPosition = Start | After(library: Octets, snapshot: nat, last: nat)

  /** `ListAssetsPosition::after` accepts. */
  predicate ValidAfter(library: Octets, snapshot: nat, last: nat) {
    |library| == 16 && library != Zeros(16) && 0 < last < snapshot < TWO64 / 2
  }

  const LIST_MAGIC: Octets := Ascii("MXLCUR2") + [0]

  function ListPrefix(library: Octets, snapshot: nat, last: nat): Octets {
    LIST_MAGIC + (U16(2) + (U16(80) + (U32(1) + (library + (U64(snapshot) + U64(last))))))
  }

  function Sealed(hash: Octets -> Octets, prefix: Octets): Octets {
    prefix + hash(prefix)
  }

  /** The checksum goes behind the clear fields. */
  method Seal(hash: Octets -> Octets, a: array<Byte>, at: nat) returns (cursor: Octets)
    requires Checksum(hash) && a.Length == at + 32 && Fresh(a, at)
    modifies a
    ensures cursor == Sealed(hash, old(a[..at]))
  {
    Put(a, at, hash(a[..at]));
    assert a[..at + 32] == a[..];
    cursor := a[..];
  }

  /** The clear fields of a list cursor. */
  predicate ListFields(d: Octets, library: Octets)
    requires |d| == 48
  {
    && d[..8] == LIST_MAGIC && Un16(d[8..10]) == 2 && Un16(d[10..12]) == 80 && Un32(d[12..16]) == 1
    && d[16..32] == library
  }

  function DecodeList(hash: Octets -> Octets, c: Octets, library: Octets): Result<ListPosition> {
    if |c| != 80 then Err(Validation)
    else
      var d := c[..48];
      if !ListFields(d, library) || hash(d) != c[48..] then Err(Validation)
      else if ValidAfter(library, Un64(d[32..40]), Un64(d[40..48]))
      then Ok(After(library, Un64(d[32..40]), Un64(d[40..48])))
      else Err(Validation)
  }

  function EncodeList(hash: Octets -> Octets, p: ListPosition, library: Octets): Result<Octets> {
    if p.Start? then Err(Internal)
    else if p.library != library then Err(StoreCorruption)
    else if !ValidAfter(p.library, p.snapshot, p.last) then Err(Validation)
    else Ok(Sealed(hash, ListPrefix(p.library, p.snapshot, p.last)))
  }

  /** `encode_list_cursor`, filling its array. */
  method FillList(hash: Octets -> Octets, p: ListPosition, library: Octets) returns (r: Result<Octets>)
    requires Checksum(hash)
    ensures r == EncodeList(hash, p, library)
  {
    if p.Start? {
      return Err(Internal);
    }
    if p.library != library {
      return Err(StoreCorruption);
    }
    if !ValidAfter(p.library, p.snapshot, p.last) {
      return Err(Validation);
    }
    var cursor := new Byte[80](_ => 0);
    assert cursor[0..] == Zeros(80);
    PutScope(cursor, LIST_MAGIC, 2, 80, 1, p.library);
    Put(cursor, 32, U64(p.snapshot));
    Put(cursor, 40, U64(p.last));
    assert cursor[..48] == ListPrefix(p.library, p.snapshot, p.last);
    var sealed := Seal(hash, cursor, 48);
    r := Ok(sealed);
  }

  lemma ListLayout(d: Octets, library: Octets, snapshot: nat, last: nat)
    requires |d| == 48 && |library| == 16 && snapshot < TWO64 && last < TWO64
    ensures d == ListPrefix(library, snapshot, last)
       <==> ListFields(d, library) && Un64(d[32..40]) == snapshot && Un64(d[40..48]) == last
  {
    At(d, 0, LIST_MAGIC, U16(2) + (U16(80) + (U32(1) + (library + (U64(snapshot) + U64(last))))));
    At(d, 8, U16(2), U16(80) + (U32(1) + (library + (U64(snapshot) + U64(last)))));
    At(d, 10, U16(80), U32(1) + (library + (U64(snapshot) + U64(last))));
    At(d, 12, U32(1), library + (U64(snapshot) + U64(last)));
    At(d, 16, library, U64(snapshot) + U64(last));
    At(d, 32, U64(snapshot), U64(last));
    assert d[0..] == d && d[40..] == d[40..48];
    Is16(d[8..10], 2);
    Is16(d[10..12], 80);
    Is32(d[12..16], 1);
    Is64(d[32..40], snapshot);
    Is64(d[40..48], last);
  }

  /** Splitting off the checksum. */
  lemma Unseal(hash: Octets -> Octets, c: Octets, prefix: Octets)
    requires Checksum(hash) && |c| == |prefix| + 32
    ensures c == Sealed(hash, prefix) <==> c[..|prefix|] == prefix && hash(c[..|prefix|]) == c[|prefix|..]
  {
    assert c == c[..|prefix|] + c[|prefix|..];
    if c == Sealed(hash, prefix) {
      Cut(c[..|prefix|], c[|prefix|..], prefix, hash(prefix));
    }
  }

  /** A cursor is accepted exactly when it is the encoding of the position it yields. */
  lemma ListDecodes(hash: Octets -> Octets, c: Octets, library: Octets, p: ListPosition)
    requires Checksum(hash)
    ensures DecodeList(hash, c, library) == Ok(p) <==> EncodeList(hash, p, library) == Ok(c)
  {
    if p.After? && p.library == library && ValidAfter(library, p.snapshot, p.last) {
      var prefix := ListPrefix(library, p.snapshot, p.last);
      assert |prefix| == 48;
      if |c| == 80 {
        ListLayout(c[..48], library, p.snapshot, p.last);
        Unseal(hash, c, prefix);
      }
    }
  }

  // Verification issues

  const ISSUE_MAGIC: Octets := Ascii("MXVCUR1") + [0]

  function IssuePrefix(library: Octets, report: Octets, ordinal: nat): Octets {
    ISSUE_MAGIC + (U16(1) + (U16(96) + (U32(3) + (library + (report + (U32(ordinal) + Zeros(12)))))))
  }

  predicate IssueFields(d: Octets, library: Octets, report: Octets)
    requires |d| == 64
  {
    && d[..8] == ISSUE_MAGIC && Un16(d[8..10]) == 1 && Un16(d[10..12]) == 96 && Un32(d[12..16]) == 3
    && d[16..32] == library && d[32..48] == report && d[52..64] == Zeros(12)
  }

  function DecodeIssue(hash: Octets -> Octets, c: Octets, library: Octets, report: Octets): Result<nat> {
    if |c| != 96 then Err(Validation)
    else
      var d := c[..64];
      if !IssueFields(d, library, report) || hash(d) != c[64..] || Un32(d[48..52]) == 0 then Err(Validation)
      else Ok(Un32(d[48..52]))
  }

  function EncodeIssue(hash: Octets -> Octets, library: Octets, report: Octets, ordinal: nat): Result<Octets> {
    if library == Zeros(16) || ordinal == 0 then Err(Internal) else Ok(Sealed(hash, IssuePrefix(library, report, ordinal)))
  }

  /** `encode_issue_cursor`; the bytes behind the ordinal stay zero. */
  method FillIssue(hash: Octets -> Octets, library: Octets, report: Octets, ordinal: nat) returns (r: Result<Octets>)
    requires Checksum(hash) && |library| == 16 && |report| == 16
    ensures r == EncodeIssue(hash, library, report, ordinal)
  {
    if library == Zeros(16) || ordinal == 0 {
      return Err(Internal);
    }
    var cursor := new Byte[96](_ => 0);
    assert cursor[0..] == Zeros(96);
    PutScope(cursor, ISSUE_MAGIC, 1, 96, 3, library);
    Put(cursor, 32, report);
    PutGap(cursor, 48, U32(ordinal), 12);
    assert cursor[..64] == IssuePrefix(library, report, ordinal);
    var sealed := Seal(hash, cursor, 64);
    r := Ok(sealed);
  }

  lemma IssueLayout(d: Octets, library: Octets, report: Octets, ordinal: nat)
    requires |d| == 64 && |library| == 16 && |report| == 16 && ordinal < TWO32
    ensures d == IssuePrefix(library, report, ordinal) <==> IssueFields(d, library, report) && Un32(d[48..52]) == ordinal
  {
    At(d, 0, ISSUE_MAGIC, U16(1) + (U16(96) + (U32(3) + (library + (report + (U32(ordinal) + Zeros(12)))))));
    At(d, 8, U16(1), U16(96) + (U32(3) + (library + (report + (U32(ordinal) + Zeros(12))))));
    At(d, 10, U16(96), U32(3) + (library + (report + (U32(ordinal) + Zeros(12)))));
    At(d, 12, U32(3), library + (report + (U32(ordinal) + Zeros(12))));
    At(d, 16, library, report + (U32(ordinal) + Zeros(12)));
    At(d, 32, report, U32(ordinal) + Zeros(12));
    At(d, 48, U32(ordinal), Zeros(12));
    assert d[0..] == d && d[52..] == d[52..64];
    Is16(d[8..10], 1);
    Is16(d[10..12], 96);
    Is32(d[12..16], 3);
    Is32(d[48..52], ordinal);
  }

  /** Decoding undoes encoding, both ways, for every library a cursor is ever made for. */
  lemma IssueDecodes(hash: Octets -> Octets, c: Octets, library: Octets, report: Octets, ordinal: nat)
    requires Checksum(hash) && |library| == 16 && library != Zeros(16) && |report| == 16 && ordinal < TWO32
    ensures DecodeIssue(hash, c, library, report) == Ok(ordinal) <==> EncodeIssue(hash, library, report, ordinal) == Ok(c)
  {
    var prefix := IssuePrefix(library, report, ordinal);
    if |c| == 96 {
      IssueLayout(c[..64], library, report, ordinal);
      Unseal(hash, c, prefix);
    }
  }

  // Creative lists

  datatype CreativeKind = Projects | Subjects | Work(project: Octets) | Takes(revision: Octets)

  predicate GoodKind(kind: CreativeKind) {
    (kind.Work? ==> |kind.project| == 16) && (kind.Takes? ==> |kind.revision| == 16)
  }

  function Magic(kind: CreativeKind): (m: Octets)
    ensures |m| == 16
  {
    match kind
    case Projects => Ascii("MX9_PROJECTS_V1") + [0]
    case Subjects => Ascii("MX9_SUBJECTS_V1") + [0]
    case Work(_) => Ascii("MX9_WORKLIST_V1") + [0]
    case Takes(_) => Ascii("MX9_TAKELIST_V1") + [0]
  }

  function ListOperation(kind: CreativeKind): Octets {
    match kind
    case Projects => Ascii("project.list.v1")
    case Subjects => Ascii("subject.list.v1")
    case Work(_) => Ascii("work.list.v1")
    case Takes(_) => Ascii("take.list.v1")
  }

  function Scope(kind: CreativeKind): Byte {
    match kind
    case Work(_) => 1
    case Takes(_) => 2
    case _ => 0
  }

  function ScopeId(kind: CreativeKind): Octets {
    match kind
    case Work(id) => id
    case Takes(id) => id
    case _ => Zeros(16)
  }

  function Filter(hash: Octets -> Octets, kind: CreativeKind): Octets {
    hash(Ascii("MENGXIA_") + ListOperation(kind) + Ascii("_FILTER_V1") + [0] + [Scope(kind)] + ScopeId(kind))
  }

  function CreativeHead(library: Octets, kind: CreativeKind): Octets {
    Magic(kind) + (U16(1) + (U16(160) + (Zeros(4) + (library + ([Scope(kind)] + (Zeros(7) + ScopeId(kind)))))))
  }

  function CreativeTail(filter: Octets, snapshot: nat, last: nat): Octets {
    U64(snapshot) + (U64(last) + (filter + Zeros(16)))
  }

  predicate CreativeHeadFields(d: Octets, library: Octets, kind: CreativeKind)
    requires |d| == 64
  {
    && d[..16] == Magic(kind) && Un16(d[16..18]) == 1 && Un16(d[18..20]) == 160 && d[20..24] == Zeros(4)
    && d[24..40] == library && d[40] == Scope(kind) && d[41..48] == Zeros(7) && d[48..64] == ScopeId(kind)
  }

  predicate CreativeTailFields(e: Octets, filter: Octets)
    requires |e| == 64
  {
    e[16..48] == filter && e[48..64] == Zeros(16)
  }

  function DecodeCreative(hash: Octets -> Octets, c: Octets, library: Octets, kind: CreativeKind): Result<ListPosition> {
    if |c| != 160 then Err(Validation)
    else
      var d, e := c[..64], c[64..128];
      if !CreativeHeadFields(d, library, kind) || !CreativeTailFields(e, Filter(hash, kind)) || hash(c[..128]) != c[128..]
      then Err(Validation)
      else if ValidAfter(library, Un64(e[..8]), Un64(e[8..16])) then Ok(After(library, Un64(e[..8]), Un64(e[8..16])))
      else Err(Validation)
  }

  /** The encoder does not look at the position's numbers. */
  function EncodeCreative(hash: Octets -> Octets, p: ListPosition, library: Octets, kind: CreativeKind): Result<Octets> {
    if p.Start? || p.library != library then Err(Internal)
    else Ok(Sealed(hash, CreativeHead(library, kind) + CreativeTail(Filter(hash, kind), p.snapshot, p.last)))
  }

  method FillCreativeTag(cursor: array<Byte>, kind: CreativeKind)
    requires cursor.Length == 160 && Fresh(cursor, 0)
    modifies cursor
    ensures Fresh(cursor, 24) && cursor[..24] == Magic(kind) + (U16(1) + (U16(160) + Zeros(4)))
  {
    Put(cursor, 0, Magic(kind));
    Put(cursor, 16, U16(1));
    PutGap(cursor, 18, U16(160), 4);
  }

  lemma ScopeJoins(tag: Octets, library: Octets, scope: Octets, gap: Octets, id: Octets)
    ensures tag + library + (scope + gap) + id == tag + (library + (scope + (gap + id)))
  {
  }

  lemma TagJoins(magic: Octets, version: Octets, length: Octets, gap: Octets, rest: Octets)
    ensures magic + (version + (length + gap)) + rest == magic + (version + (length + (gap + rest)))
  {
  }

  method FillCreativeHead(cursor: array<Byte>, library: Octets, kind: CreativeKind)
    requires cursor.Length == 160 && Fresh(cursor, 0) && |library| == 16 && GoodKind(kind)
    modifies cursor
    ensures Fresh(cursor, 64) && cursor[..64] == CreativeHead(library, kind)
  {
    FillCreativeTag(cursor, kind);
    ghost var tag := cursor[..24];
    Put(cursor, 24, library);
    PutGap(cursor, 40, [Scope(kind)], 7);
    Put(cursor, 48, ScopeId(kind));
    ScopeJoins(tag, library, [Scope(kind)], Zeros(7), ScopeId(kind));
    TagJoins(Magic(kind), U16(1), U16(160), Zeros(4), library + ([Scope(kind)] + (Zeros(7) + ScopeId(kind))));
  }

  method FillCreativeTail(cursor: array<Byte>, filter: Octets, snapshot: nat, last: nat)
    requires cursor.Length == 160 && Fresh(cursor, 64) && |filter| == 32
    modifies cursor
    ensures Fresh(cursor, 128) && cursor[..128] == old(cursor[..64]) + CreativeTail(filter, snapshot, last)
  {
    Put(cursor, 64, U64(snapshot));
    Put(cursor, 72, U64(last));
    PutGap(cursor, 80, filter, 16);
  }

  /** `encode_creative_cursor`. */
  method FillCreative(hash: Octets -> Octets, p: ListPosition, library: Octets, kind: CreativeKind) returns (r: Result<Octets>)
    requires Checksum(hash) && |library| == 16 && GoodKind(kind)
    ensures r == EncodeCreative(hash, p, library, kind)
  {
    if p.Start? {
      return Err(Internal);
    }
    if p.library != library {
      return Err(Internal);
    }
    var cursor := new Byte[160](_ => 0);
    assert cursor[0..] == Zeros(160);
    FillCreativeHead(cursor, library, kind);
    FillCreativeTail(cursor, Filter(hash, kind), p.snapshot, p.last);
    var sealed := Seal(hash, cursor, 128);
    r := Ok(sealed);
  }

  lemma CreativeTagLayout(d: Octets, kind: CreativeKind, rest: Octets)
    requires |d| == 64
    ensures d == Magic(kind) + (U16(1) + (U16(160) + (Zeros(4) + rest)))
       <==> d[..16] == Magic(kind) && Un16(d[16..18]) == 1 && Un16(d[18..20]) == 160 && d[20..24] == Zeros(4) && d[24..] == rest
  {
    At(d, 0, Magic(kind), U16(1) + (U16(160) + (Zeros(4) + rest)));
    At(d, 16, U16(1), U16(160) + (Zeros(4) + rest));
    At(d, 18, U16(160), Zeros(4) + rest);
    At(d, 20, Zeros(4), rest);
    assert d[0..] == d;
    Is16(d[16..18], 1);
    Is16(d[18..20], 160);
  }

  lemma CreativeScopeLayout(d: Octets, library: Octets, scope: Byte, id: Octets)
    requires |d| == 64 && |library| == 16 && |id| == 16
    ensures d[24..] == library + ([scope] + (Zeros(7) + id))
       <==> d[24..40] == library && d[40] == scope && d[41..48] == Zeros(7) && d[48..64] == id
  {
    At(d, 24, library, [scope] + (Zeros(7) + id));
    At(d, 40, [scope], Zeros(7) + id);
    At(d, 41, Zeros(7), id);
    assert d[48..] == d[48..64] && d[40..41] == [d[40]];
  }

  lemma CreativeHeadLayout(d: Octets, library: Octets, kind: CreativeKind)
    requires |d| == 64 && |library| == 16 && GoodKind(kind)
    ensures d == CreativeHead(library, kind) <==> CreativeHeadFields(d, library, kind)
  {
    CreativeTagLayout(d, kind, library + ([Scope(kind)] + (Zeros(7) + ScopeId(kind))));
    CreativeScopeLayout(d, library, Scope(kind), ScopeId(kind));
  }

  lemma CreativeParts(c: Octets, head: Octets, tail: Octets)
    requires |c| == 160 && |head| == 64 && |tail| == 64
    ensures c[..128] == head + tail <==> c[..64] == head && c[64..128] == tail
  {
    var b := c[..128];
    At(b, 0, head, tail);
    assert b[0..] == b && b[..64] == c[..64] && b[64..] == c[64..128];
  }

  lemma CreativeTailLayout(e: Octets, filter: Octets, snapshot: nat, last: nat)
    requires |e| == 64 && |filter| == 32 && snapshot < TWO64 && last < TWO64
    ensures e == CreativeTail(filter, snapshot, last)
       <==> CreativeTailFields(e, filter) && Un64(e[..8]) == snapshot && Un64(e[8..16]) == last
  {
    At(e, 0, U64(snapshot), U64(last) + (filter + Zeros(16)));
    At(e, 8, U64(last), filter + Zeros(16));
    At(e, 16, filter, Zeros(16));
    assert e[0..] == e && e[48..] == e[48..64];
    Is64(e[..8], snapshot);
    Is64(e[8..16], last);
  }

  /** The clear fields and the seal, together, are the encoding. */
  lemma CreativeLayout(hash: Octets -> Octets, c: Octets, library: Octets, kind: CreativeKind, snapshot: nat, last: nat)
    requires Checksum(hash) && GoodKind(kind) && |c| == 160 && |library| == 16 && snapshot < TWO64 && last < TWO64
    ensures c == Sealed(hash, CreativeHead(library, kind) + CreativeTail(Filter(hash, kind), snapshot, last))
       <==> && CreativeHeadFields(c[..64], library, kind) && CreativeTailFields(c[64..128], Filter(hash, kind))
            && Un64(c[64..128][..8]) == snapshot && Un64(c[64..128][8..16]) == last && hash(c[..128]) == c[128..]
  {
    var head, tail := CreativeHead(library, kind), CreativeTail(Filter(hash, kind), snapshot, last);
    assert |head| == 64 && |tail| == 64;
    CreativeHeadLayout(c[..64], library, kind);
    CreativeTailLayout(c[64..128], Filter(hash, kind), snapshot, last);
    CreativeParts(c, head, tail);
    Unseal(hash, c, head + tail);
  }

  lemma CreativeLength(hash: Octets -> Octets, library: Octets, kind: CreativeKind, snapshot: nat, last: nat)
    requires Checksum(hash) && GoodKind(kind) && |library| == 16
    ensures |Sealed(hash, CreativeHead(library, kind) + CreativeTail(Filter(hash, kind), snapshot, last))| == 160
  {
  }

  /** Decoding accepts exactly the encodings of valid positions. */
  lemma CreativeDecodes(hash: Octets -> Octets, c: Octets, library: Octets, kind: CreativeKind, p: ListPosition)
    requires Checksum(hash) && GoodKind(kind)
    ensures DecodeCreative(hash, c, library, kind) == Ok(p)
       <==> p.After? && ValidAfter(p.library, p.snapshot, p.last) && EncodeCreative(hash, p, library, kind) == Ok(c)
  {
    if p.After? && p.library == library && ValidAfter(library, p.snapshot, p.last) {
      CreativeLength(hash, library, kind, p.snapshot, p.last);
      if |c| == 160 {
        CreativeLayout(hash, c, library, kind, p.snapshot, p.last);
      }
    }
  }

  /** The encoder accepts any position of the library, so what it makes reads back exactly when the
      position is valid. */
  lemma CreativeReadsBack(hash: Octets -> Octets, library: Octets, kind: CreativeKind, p: ListPosition)
    requires Checksum(hash) && GoodKind(kind) && p.After? && p.library == library && |library| == 16
    ensures EncodeCreative(hash, p, library, kind).Ok?
    ensures DecodeCreative(hash, EncodeCreative(hash, p, library, kind).value, library, kind) == Ok(p)
       <==> ValidAfter(p.library, p.snapshot, p.last)
  {
    CreativeDecodes(hash, EncodeCreative(hash, p, library, kind).value, library, kind, p);
  }

  lemma MagicTells(a: CreativeKind, b: CreativeKind)
    requires Magic(a) == Magic(b)
    ensures a.Projects? == b.Projects? && a.Subjects? == b.Subjects? && a.Work? == b.Work? && a.Takes? == b.Takes?
  {
    assert Magic(a)[4] == Magic(b)[4];
  }

  /** A cursor accepted for one library, listing and scope is accepted for no other, on its clear
      fields alone. */
  lemma CreativeBinds(hash: Octets -> Octets, c: Octets, library: Octets, kind: CreativeKind, library': Octets, kind': CreativeKind)
    requires GoodKind(kind) && GoodKind(kind')
    requires DecodeCreative(hash, c, library, kind).Ok? && DecodeCreative(hash, c, library', kind').Ok?
    ensures library == library' && kind == kind'
  {
    MagicTells(kind, kind');
    assert ScopeId(kind) == ScopeId(kind');
  }

  /** Encoding refuses the nil library that decoding lets through: only then does an accepted issue
      cursor have no encoding. */
  lemma IssueNilLibrary(hash: Octets -> Octets, report: Octets, ordinal: nat)
    requires Checksum(hash) && |report| == 16 && 0 < ordinal < TWO32
    ensures DecodeIssue(hash, Sealed(hash, IssuePrefix(Zeros(16), report, ordinal)), Zeros(16), report) == Ok(ordinal)
    ensures EncodeIssue(hash, Zeros(16), report, ordinal).Err?
  {
    var prefix := IssuePrefix(Zeros(16), report, ordinal);
    var c := Sealed(hash, prefix);
    IssueLayout(prefix, Zeros(16), report, ordinal);
    Unseal(hash, c, prefix);
  }

  // Asset inspection

  /** A non-nil RFC 9562 UUID of version 7 and variant 10. */
  predicate ValidId(b: Octets) {
    |b| == 16 && b[6] / 16 == 7 && b[8] / 64 == 2
  }

  datatype Phase = NoLocationSeen | LocationSeen | RequiredCustodySeen

  datatype Enumeration = Enumeration(
    representation: Octets,
    resource: Octets,
    ordinal: nat,
    phase: Phase,
    blobRevision: nat,
    location: Option<Octets>)

  /** Before the first member, or within the enumeration of one. */
  datatype InspectPosition = InspectPosition(
    library: Octets,
    asset: Octets,
    revision: Octets,
    assetRevision: nat,
    member: Option<Enumeration>)

  function PhaseCode(phase: Phase): nat {
    match phase
    case NoLocationSeen => 1
    case LocationSeen => 2
    case RequiredCustodySeen => 3
  }

  /** What the types and `InspectAssetPosition::new` accept. */
  predicate ValidEnumeration(m: Enumeration) {
    && ValidId(m.representation) && ValidId(m.resource) && m.ordinal < TWO32 && 0 < m.blobRevision < TWO64
    && (m.phase.NoLocationSeen? <==> m.location.None?) && (m.location.Some? ==> ValidId(m.location.value))
  }

  predicate ValidInspect(p: InspectPosition) {
    && |p.library| == 16 && p.library != Zeros(16) && ValidId(p.asset) && ValidId(p.revision)
    && 0 < p.assetRevision < TWO64 && (p.member.Some? ==> ValidEnumeration(p.member.value))
  }

  const INSPECT_MAGIC: Octets := Ascii("MXICUR2") + [0]

  function InspectHead(library: Octets, asset: Octets, revision: Octets, assetRevision: nat): Octets {
    INSPECT_MAGIC + (U16(2) + (U16(208) + (U32(2) + (library + (asset + (revision + U64(assetRevision)))))))
  }

  function EnumerationBytes(m: Enumeration): Octets {
    var location := if m.location.Some? then m.location.value else Zeros(16);
    m.representation + (m.resource + (U32(m.ordinal) + (U32(PhaseCode(m.phase)) + (U64(m.blobRevision) + location))))
  }

  function MemberSlot(member: Option<Enumeration>): Octets {
    if member.None? then Zeros(64) else EnumerationBytes(member.value)
  }

  function InspectPrefix(p: InspectPosition): Octets {
    InspectHead(p.library, p.asset, p.revision, p.assetRevision) + (MemberSlot(p.member) + Zeros(40))
  }

  function EncodeInspect(hash: Octets -> Octets, p: InspectPosition, library: Octets): Result<Octets> {
    if p.library != library then Err(StoreCorruption) else Ok(Sealed(hash, InspectPrefix(p)))
  }

  predicate InspectHeadFields(d: Octets, library: Octets)
    requires |d| == 72
  {
    && d[..8] == INSPECT_MAGIC && Un16(d[8..10]) == 2 && Un16(d[10..12]) == 208 && Un32(d[12..16]) == 2
    && d[16..32] == library
  }

  /** Reading the slot at 72..136: nothing, an enumeration, or garbage. */
  function DecodeSlot(e: Octets): Result<Option<Enumeration>>
    requires |e| == 64
  {
    var phase := Un32(e[36..40]);
    if phase == 0 then (if e == Zeros(64) then Ok(None) else Err(Validation))
    else if phase > 3 || !ValidId(e[..16]) || !ValidId(e[16..32]) || Un32(e[32..36]) > 4095
            || (e[48..64] != Zeros(16) && !ValidId(e[48..64]))
    then Err(Validation)
    else
      var location := if e[48..64] == Zeros(16) then None else Some(e[48..64]);
      var m := Enumeration(e[..16], e[16..32], Un32(e[32..36]),
                           if phase == 1 then NoLocationSeen else if phase == 2 then LocationSeen else RequiredCustodySeen,
                           Un64(e[40..48]), location);
      Forth64(e[40..48]);
      if ValidEnumeration(m) then Ok(Some(m)) else Err(Validation)
  }

  function DecodeInspect(hash: Octets -> Octets, c: Octets, library: Octets): Result<InspectPosition> {
    if |c| != 208 then Err(Validation)
    else
      var d := c[..72];
      if !InspectHeadFields(d, library) || c[136..176] != Zeros(40) || hash(c[..176]) != c[176..]
         || !ValidId(d[32..48]) || !ValidId(d[48..64])
      then Err(Validation)
      else
        var slot := DecodeSlot(c[72..136]);
        if slot.Err? then Err(slot.error)
        else
          var p := InspectPosition(library, d[32..48], d[48..64], Un64(d[64..72]), slot.value);
          if ValidInspect(p) then Ok(p) else Err(Validation)
  }

  method FillInspectHead(cursor: array<Byte>, p: InspectPosition)
    requires cursor.Length == 208 && Fresh(cursor, 0) && ValidInspect(p)
    modifies cursor
    ensures Fresh(cursor, 72) && cursor[..72] == InspectHead(p.library, p.asset, p.revision, p.assetRevision)
  {
    PutScope(cursor, INSPECT_MAGIC, 2, 208, 2, p.library);
    Put(cursor, 32, p.asset);
    Put(cursor, 48, p.revision);
    Put(cursor, 64, U64(p.assetRevision));
  }

  function MemberKey(m: Enumeration): Octets {
    m.representation + (m.resource + (U32(m.ordinal) + U32(PhaseCode(m.phase))))
  }

  function MemberRest(m: Enumeration): Octets {
    U64(m.blobRevision) + (if m.location.Some? then m.location.value else Zeros(16)) + Zeros(40)
  }

  lemma MemberParts(m: Enumeration)
    ensures EnumerationBytes(m) + Zeros(40) == MemberKey(m) + MemberRest(m)
  {
  }

  method FillMemberKey(cursor: array<Byte>, m: Enumeration)
    requires cursor.Length == 208 && Fresh(cursor, 72) && ValidEnumeration(m)
    modifies cursor
    ensures Fresh(cursor, 112) && cursor[..112] == old(cursor[..72]) + MemberKey(m)
  {
    Put(cursor, 72, m.representation);
    Put(cursor, 88, m.resource);
    Put(cursor, 104, U32(m.ordinal));
    Put(cursor, 108, U32(PhaseCode(m.phase)));
  }

  method FillMember(cursor: array<Byte>, m: Enumeration)
    requires cursor.Length == 208 && Fresh(cursor, 72) && ValidEnumeration(m)
    modifies cursor
    ensures Fresh(cursor, 176) && cursor[..176] == old(cursor[..72]) + (EnumerationBytes(m) + Zeros(40))
  {
    FillMemberKey(cursor, m);
    ghost var key := cursor[..112];
    if m.location.Some? {
      Put(cursor, 112, U64(m.blobRevision));
      PutGap(cursor, 120, m.location.value, 40);
    } else {
      PutGap(cursor, 112, U64(m.blobRevision), 56);
      assert Zeros(56) == Zeros(16) + Zeros(40);
    }
    assert cursor[..176] == key + MemberRest(m);
    Regroup(old(cursor[..72]), MemberKey(m), MemberRest(m));
    MemberParts(m);
  }

  /** `encode_inspect_cursor`; the combinations it refuses are no positions. */
  method FillInspect(hash: Octets -> Octets, p: InspectPosition, library: Octets) returns (r: Result<Octets>)
    requires Checksum(hash) && ValidInspect(p)
    ensures r == EncodeInspect(hash, p, library)
  {
    if p.library != library {
      return Err(StoreCorruption);
    }
    var cursor := new Byte[208](_ => 0);
    assert cursor[0..] == Zeros(208);
    FillInspectHead(cursor, p);
    if p.member.Some? {
      FillMember(cursor, p.member.value);
    } else {
      PutGap(cursor, 72, [], 104);
      assert [] + Zeros(104) == Zeros(64) + Zeros(40);
    }
    var sealed := Seal(hash, cursor, 176);
    r := Ok(sealed);
  }

  lemma SlotLayout(e: Octets, m: Enumeration)
    requires |e| == 64 && ValidEnumeration(m)
    ensures e == EnumerationBytes(m)
       <==> && e[..16] == m.representation && e[16..32] == m.resource && Un32(e[32..36]) == m.ordinal
            && Un32(e[36..40]) == PhaseCode(m.phase) && Un64(e[40..48]) == m.blobRevision
            && e[48..64] == if m.location.Some? then m.location.value else Zeros(16)
  {
    var location := if m.location.Some? then m.location.value else Zeros(16);
    var phase := U32(PhaseCode(m.phase));
    At(e, 0, m.representation, m.resource + (U32(m.ordinal) + (phase + (U64(m.blobRevision) + location))));
    At(e, 16, m.resource, U32(m.ordinal) + (phase + (U64(m.blobRevision) + location)));
    At(e, 32, U32(m.ordinal), phase + (U64(m.blobRevision) + location));
    At(e, 36, phase, U64(m.blobRevision) + location);
    At(e, 40, U64(m.blobRevision), location);
    assert e[0..] == e && e[48..] == e[48..64];
    Is32(e[32..36], m.ordinal);
    Is32(e[36..40], PhaseCode(m.phase));
    Is64(e[40..48], m.blobRevision);
  }

  lemma EmptySlot(e: Octets)
    requires |e| == 64
    ensures e == Zeros(64) ==> Un32(e[36..40]) == 0
  {
    if e == Zeros(64) {
      assert e[36..40] == [0, 0, 0, 0];
    }
  }

  lemma SlotIsCanonical(e: Octets, member: Option<Enumeration>)
    requires |e| == 64 && DecodeSlot(e) == Ok(member)
    ensures e == MemberSlot(member) && (member.Some? ==> ValidEnumeration(member.value) && member.value.ordinal <= 4095)
  {
    if member.Some? {
      SlotLayout(e, member.value);
    }
  }

  lemma SlotReadsBack(e: Octets, member: Option<Enumeration>)
    requires |e| == 64 && e == MemberSlot(member)
    requires member.Some? ==> ValidEnumeration(member.value) && member.value.ordinal <= 4095
    ensures DecodeSlot(e) == Ok(member)
  {
    if member.Some? {
      var m := member.value;
      SlotLayout(e, m);
      assert m.location.Some? ==> m.location.value != Zeros(16) by {
        if m.location.Some? {
          assert m.location.value[6] != Zeros(16)[6];
        }
      }
    } else {
      EmptySlot(e);
    }
  }

  lemma InspectHeadLayout(d: Octets, library: Octets, asset: Octets, revision: Octets, assetRevision: nat)
    requires |d| == 72 && |library| == |asset| == |revision| == 16 && assetRevision < TWO64
    ensures d == InspectHead(library, asset, revision, assetRevision)
       <==> && InspectHeadFields(d, library) && d[32..48] == asset && d[48..64] == revision && Un64(d[64..72]) == assetRevision
  {
    var number := U64(assetRevision);
    At(d, 0, INSPECT_MAGIC, U16(2) + (U16(208) + (U32(2) + (library + (asset + (revision + number))))));
    At(d, 8, U16(2), U16(208) + (U32(2) + (library + (asset + (revision + number)))));
    At(d, 10, U16(208), U32(2) + (library + (asset + (revision + number))));
    At(d, 12, U32(2), library + (asset + (revision + number)));
    At(d, 16, library, asset + (revision + number));
    At(d, 32, asset, revision + number);
    At(d, 48, revision, number);
    assert d[0..] == d && d[64..] == d[64..72];
    Is16(d[8..10], 2);
    Is16(d[10..12], 208);
    Is32(d[12..16], 2);
    Is64(d[64..72], assetRevision);
  }

  lemma InspectParts(c: Octets, head: Octets, slot: Octets)
    requires |c| == 208 && |head| == 72 && |slot| == 64
    ensures c[..176] == head + (slot + Zeros(40)) <==> c[..72] == head && c[72..136] == slot && c[136..176] == Zeros(40)
  {
    var b := c[..176];
    At(b, 0, head, slot + Zeros(40));
    At(b, 72, slot, Zeros(40));
    assert b[0..] == b && b[..72] == c[..72] && b[72..136] == c[72..136] && b[136..] == c[136..176];
  }

  predicate Decodable(p: InspectPosition) {
    p.member.Some? ==> p.member.value.ordinal <= 4095
  }

  lemma InspectIsCanonical(hash: Octets -> Octets, c: Octets, library: Octets, p: InspectPosition)
    requires Checksum(hash) && DecodeInspect(hash, c, library) == Ok(p)
    ensures ValidInspect(p) && Decodable(p) && EncodeInspect(hash, p, library) == Ok(c)
  {
    SlotIsCanonical(c[72..136], p.member);
    InspectHeadLayout(c[..72], library, p.asset, p.revision, p.assetRevision);
    InspectParts(c, InspectHead(library, p.asset, p.revision, p.assetRevision), MemberSlot(p.member));
    Unseal(hash, c, InspectPrefix(p));
  }

  lemma InspectReads(hash: Octets -> Octets, c: Octets, library: Octets, p: InspectPosition)
    requires Checksum(hash) && ValidInspect(p) && EncodeInspect(hash, p, library) == Ok(c)
    ensures |c| == 208 && InspectHeadFields(c[..72], library) && c[72..136] == MemberSlot(p.member)
    ensures c[136..176] == Zeros(40) && hash(c[..176]) == c[176..]
    ensures c[..72][32..48] == p.asset && c[..72][48..64] == p.revision && Un64(c[..72][64..72]) == p.assetRevision
  {
    Unseal(hash, c, InspectPrefix(p));
    InspectParts(c, InspectHead(library, p.asset, p.revision, p.assetRevision), MemberSlot(p.member));
    InspectHeadLayout(c[..72], library, p.asset, p.revision, p.assetRevision);
  }

  /** The encoder has no bound on the member ordinal and the decoder has: a valid position reads back
      exactly when its ordinal is at most 4095. */
  lemma InspectReadsBack(hash: Octets -> Octets, p: InspectPosition)
    requires Checksum(hash) && ValidInspect(p)
    ensures EncodeInspect(hash, p, p.library).Ok?
    ensures DecodeInspect(hash, EncodeInspect(hash, p, p.library).value, p.library) == Ok(p) <==> Decodable(p)
  {
    var c := EncodeInspect(hash, p, p.library).value;
    InspectReads(hash, c, p.library, p);
    if Decodable(p) {
      SlotReadsBack(c[72..136], p.member);
    } else if DecodeInspect(hash, c, p.library) == Ok(p) {
      InspectIsCanonical(hash, c, p.library, p);
    }
  }

  /** A position `InspectAssetPosition::new` accepts whose cursor the decoder rejects. */
  lemma LargeOrdinalIsLost(hash: Octets -> Octets, id: Octets)
    requires Checksum(hash) && ValidId(id)
    ensures var p := InspectPosition(id, id, id, 1, Some(Enumeration(id, id, 4096, NoLocationSeen, 1, None)));
            ValidInspect(p) && EncodeInspect(hash, p, id).Ok? && DecodeInspect(hash, EncodeInspect(hash, p, id).value, id).Err?
  {
    var p := InspectPosition(id, id, id, 1, Some(Enumeration(id, id, 4096, NoLocationSeen, 1, None)));
    assert id[6] != Zeros(16)[6];
    var c := EncodeInspect(hash, p, id).value;
    if DecodeInspect(hash, c, id).Ok? {
      var q := DecodeInspect(hash, c, id).value;
      InspectIsCanonical(hash, c, id, q);
      InspectReads(hash, c, id, p);
      InspectReads(hash, c, id, q);
      SlotLayout(c[72..136], p.member.value);
    }
  }

  // What a cursor is for

  /** A query a cursor can continue.  An inspection may leave the revision to the service. */
  datatype Use =
    | ListUse(library: Octets)
    | InspectUse(library: Octets, asset: Octets, revision: Option<Octets>)
    | CreativeUse(library: Octets, kind: CreativeKind)
    | IssueUse(library: Octets, report: Octets)

  /** `InspectAssetQuery::new` takes the position for this asset and revision. */
  predicate Continues(p: InspectPosition, asset: Octets, revision: Option<Octets>) {
    p.asset == asset && (revision.Some? ==> revision.value == p.revision)
  }

  predicate Opens(hash: Octets -> Octets, c: Octets, use: Use) {
    match use
    case ListUse(library) => DecodeList(hash, c, library).Ok?
    case InspectUse(library, asset, revision) =>
      DecodeInspect(hash, c, library).Ok? && Continues(DecodeInspect(hash, c, library).value, asset, revision)
    case CreativeUse(library, kind) => GoodKind(kind) && DecodeCreative(hash, c, library, kind).Ok?
    case IssueUse(library, report) => DecodeIssue(hash, c, library, report).Ok?
  }

  /** What serves a use serves it with the revision left out. */
  predicate Serves(full: Use, use: Use) {
    use == full || (full.InspectUse? && use == full.(revision := None))
  }

  /** Two uses of one cursor differ at most in naming the revision of an inspection. */
  lemma UsesAgree(hash: Octets -> Octets, c: Octets, use: Use, other: Use)
    requires Opens(hash, c, use) && Opens(hash, c, other)
    ensures use.InspectUse? <==> other.InspectUse?
    ensures use.library == other.library
    ensures !use.InspectUse? ==> use == other
  {
    if use.CreativeUse? && other.CreativeUse? {
      CreativeBinds(hash, c, use.library, use.kind, other.library, other.kind);
    }
  }

  /** The uses of an accepted cursor are exactly one: family, library, listing with its scope, report,
      asset and revision are all told by its clear fields.  Only the revision may be left out. */
  lemma CursorsBind(hash: Octets -> Octets, c: Octets, use: Use) returns (full: Use)
    requires Opens(hash, c, use)
    ensures forall other :: Opens(hash, c, other) <==> Serves(full, other)
  {
    full := if use.InspectUse? then use.(revision := Some(DecodeInspect(hash, c, use.library).value.revision)) else use;
    forall other ensures Opens(hash, c, other) <==> Serves(full, other) {
      if Opens(hash, c, other) {
        UsesAgree(hash, c, use, other);
      }
    }
  }
}
