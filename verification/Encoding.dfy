/** Length-prefixed byte encodings, and why concatenating them loses nothing. */
module Encoding {
  import opened Bytes

  type Octets = seq<Byte>

  const TWO16: nat := 0x1_0000
  const TWO32: nat := 0x1_0000_0000
  const TWO128: nat := 0x1_0000_0000_0000_0000_0000_0000_0000_0000

  function Ascii(s: string): (b: Octets)
    ensures |b| == |s|
  {
    seq(|s|, i requires 0 <= i < |s| => s[i] as int % 256)
  }

  /** Where `x` first stands in `b`, or the length of `b`. */
  function IndexOf(b: Octets, x: Byte): (i: nat)
    ensures i <= |b| && x !in b[..i] && (i < |b| ==> b[i] == x)
  {
    if b == [] || b[0] == x then 0
    else
      var i := IndexOf(b[1..], x);
      assert b[..i + 1] == [b[0]] + b[1..][..i];
      i + 1
  }

  lemma IndexBehind(a: Octets, x: Byte, b: Octets)
    requires x !in a
    ensures IndexOf(a + [x] + b, x) == |a|
  {
    var all := a + [x] + b;
    assert all[|a|] == x && forall i :: 0 <= i < |a| ==> all[i] == a[i];
  }

  // Big-endian numbers

  function U16(n: nat): (b: Octets)
    ensures |b| == 2
  {
    [(n / 256) % 256, n % 256]
  }

  function U32(n: nat): (b: Octets)
    ensures |b| == 4
  {
    U16(n / TWO16) + U16(n % TWO16)
  }

  function U64(n: nat): (b: Octets)
    ensures |b| == 8
  {
    U32(n / TWO32) + U32(n % TWO32)
  }

  function U128(n: nat): (b: Octets)
    ensures |b| == 16
  {
    U64(n / TWO64) + U64(n % TWO64)
  }

  function Un16(b: Octets): nat
    requires |b| == 2
  {
    var high: nat := b[0];
    high * 256 + b[1]
  }

  function Un32(b: Octets): nat
    requires |b| == 4
  {
    Un16(b[..2]) * TWO16 + Un16(b[2..])
  }

  function Un64(b: Octets): nat
    requires |b| == 8
  {
    Un32(b[..4]) * TWO32 + Un32(b[4..])
  }

  function Un128(b: Octets): nat
    requires |b| == 16
  {
    Un64(b[..8]) * TWO64 + Un64(b[8..])
  }

  lemma Back16(n: nat)
    requires n < TWO16
    ensures Un16(U16(n)) == n
  {
  }

  lemma Back32(n: nat)
    requires n < TWO32
    ensures Un32(U32(n)) == n
  {
    Back16(n / TWO16);
    Back16(n % TWO16);
    assert U32(n)[..2] == U16(n / TWO16) && U32(n)[2..] == U16(n % TWO16);
  }

  lemma Back64(n: nat)
    requires n < TWO64
    ensures Un64(U64(n)) == n
  {
    Back32(n / TWO32);
    Back32(n % TWO32);
    assert U64(n)[..4] == U32(n / TWO32) && U64(n)[4..] == U32(n % TWO32);
  }

  lemma Back128(n: nat)
    requires n < TWO128
    ensures Un128(U128(n)) == n
  {
    Back64(n / TWO64);
    Back64(n % TWO64);
    assert U128(n)[..8] == U64(n / TWO64) && U128(n)[8..] == U64(n % TWO64);
  }

  lemma Digits16(high: nat, low: nat)
    requires low < TWO16
    ensures (high * TWO16 + low) / TWO16 == high && (high * TWO16 + low) % TWO16 == low
  {
  }

  lemma Digits32(high: nat, low: nat)
    requires low < TWO32
    ensures (high * TWO32 + low) / TWO32 == high && (high * TWO32 + low) % TWO32 == low
  {
  }

  lemma Forth16(b: Octets)
    requires |b| == 2
    ensures Un16(b) < TWO16 && U16(Un16(b)) == b
  {
  }

  lemma Forth32(b: Octets)
    requires |b| == 4
    ensures Un32(b) < TWO32 && U32(Un32(b)) == b
  {
    Forth16(b[..2]);
    Forth16(b[2..]);
    Digits16(Un16(b[..2]), Un16(b[2..]));
    assert b == b[..2] + b[2..];
  }

  lemma Forth64(b: Octets)
    requires |b| == 8
    ensures Un64(b) < TWO64 && U64(Un64(b)) == b
  {
    Forth32(b[..4]);
    Forth32(b[4..]);
    Digits32(Un32(b[..4]), Un32(b[4..]));
    assert b == b[..4] + b[4..];
  }

  lemma Is16(b: Octets, n: nat)
    requires |b| == 2 && n < TWO16
    ensures Un16(b) == n <==> b == U16(n)
  {
    Forth16(b);
    Back16(n);
  }

  lemma Is32(b: Octets, n: nat)
    requires |b| == 4 && n < TWO32
    ensures Un32(b) == n <==> b == U32(n)
  {
    Forth32(b);
    Back32(n);
  }

  lemma Is64(b: Octets, n: nat)
    requires |b| == 8 && n < TWO64
    ensures Un64(b) == n <==> b == U64(n)
  {
    Forth64(b);
    Back64(n);
  }

  // Self-delimiting encodings

  /** Reading `a` then `r` and reading `b` then `s` from the same bytes, with `a` and `b` equally long. */
  lemma Cut(a: Octets, r: Octets, b: Octets, s: Octets)
    requires a + r == b + s && |a| == |b|
    ensures a == b && r == s
  {
    assert a == (a + r)[..|a|] && b == (b + s)[..|a|];
    assert r == (a + r)[|a|..] && s == (b + s)[|a|..];
  }

  function Short(b: Octets): Octets {
    U16(|b|) + b
  }

  function Long(b: Octets): Octets {
    U32(|b|) + b
  }

  lemma CutShort(a: Octets, r: Octets, b: Octets, s: Octets)
    requires |a| < TWO16 && |b| < TWO16 && Short(a) + r == Short(b) + s
    ensures a == b && r == s
  {
    assert Short(a) + r == U16(|a|) + (a + r) && Short(b) + s == U16(|b|) + (b + s);
    Cut(U16(|a|), a + r, U16(|b|), b + s);
    Back16(|a|);
    Back16(|b|);
    Cut(a, r, b, s);
  }

  lemma CutLong(a: Octets, r: Octets, b: Octets, s: Octets)
    requires |a| < TWO32 && |b| < TWO32 && Long(a) + r == Long(b) + s
    ensures a == b && r == s
  {
    assert Long(a) + r == U32(|a|) + (a + r) && Long(b) + s == U32(|b|) + (b + s);
    Cut(U32(|a|), a + r, U32(|b|), b + s);
    Back32(|a|);
    Back32(|b|);
    Cut(a, r, b, s);
  }

  // Counted lists

  function Each<T>(f: T -> Octets, xs: seq<T>): Octets {
    if xs == [] then [] else f(xs[0]) + Each(f, xs[1..])
  }

  function Counted<T>(f: T -> Octets, xs: seq<T>): Octets {
    U32(|xs|) + Each(f, xs)
  }

  lemma {:induction false} EachAppends<T>(f: T -> Octets, xs: seq<T>, x: T)
    ensures Each(f, xs + [x]) == Each(f, xs) + f(x)
  {
    if xs == [] {
      assert [x][1..] == [];
    } else {
      EachAppends(f, xs[1..], x);
      assert (xs + [x])[1..] == xs[1..] + [x];
    }
  }

  /** One turn of a loop that appends each encoding to what is there. */
  lemma EachNext<T>(f: T -> Octets, xs: seq<T>, i: nat, base: Octets)
    requires i < |xs|
    ensures base + Each(f, xs[..i + 1]) == base + Each(f, xs[..i]) + f(xs[i])
  {
    EachAppends(f, xs[..i], xs[i]);
    assert xs[..i + 1] == xs[..i] + [xs[i]];
  }

  /** No encoding of one good value, continued, is that of another, continued. */
  ghost predicate SelfDelimiting<T(!new)>(f: T -> Octets, good: T -> bool) {
    forall x, y, r, s :: good(x) && good(y) && f(x) + r == f(y) + s ==> x == y && r == s
  }

  lemma {:induction false} CutEach<T(!new)>(f: T -> Octets, good: T -> bool, xs: seq<T>, r: Octets, ys: seq<T>, s: Octets)
    requires SelfDelimiting(f, good) && |xs| == |ys|
    requires forall i :: 0 <= i < |xs| ==> good(xs[i]) && good(ys[i])
    requires Each(f, xs) + r == Each(f, ys) + s
    ensures xs == ys && r == s
  {
    if xs != [] {
      var xr, ys' := Each(f, xs[1..]) + r, Each(f, ys[1..]) + s;
      assert Each(f, xs) + r == f(xs[0]) + xr && Each(f, ys) + s == f(ys[0]) + ys';
      assert good(xs[0]) && good(ys[0]);
      assert xs[0] == ys[0] && xr == ys';
      CutEach(f, good, xs[1..], r, ys[1..], s);
    } else {
      assert Each(f, xs) + r == r && Each(f, ys) + s == s;
    }
  }

  lemma CutCounted<T(!new)>(f: T -> Octets, good: T -> bool, xs: seq<T>, r: Octets, ys: seq<T>, s: Octets)
    requires SelfDelimiting(f, good) && |xs| < TWO32 && |ys| < TWO32
    requires forall i :: 0 <= i < |xs| ==> good(xs[i])
    requires forall i :: 0 <= i < |ys| ==> good(ys[i])
    requires Counted(f, xs) + r == Counted(f, ys) + s
    ensures xs == ys && r == s
  {
    assert Counted(f, xs) + r == U32(|xs|) + (Each(f, xs) + r) && Counted(f, ys) + s == U32(|ys|) + (Each(f, ys) + s);
    Cut(U32(|xs|), Each(f, xs) + r, U32(|ys|), Each(f, ys) + s);
    Back32(|xs|);
    Back32(|ys|);
    CutEach(f, good, xs, r, ys, s);
  }
}
