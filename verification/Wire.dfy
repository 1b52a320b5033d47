/** Bytes, big-endian fields and sequence helpers shared by the wire formats. */
module Wire {

  type byte = x: int | 0 <= x < 256
  type u16 = x: int | 0 <= x < 0x1_0000
  type u32 = x: int | 0 <= x < 0x1_0000_0000
  type u64 = x: int | 0 <= x < 0x1_0000_0000_0000_0000

  datatype Option<+T> = None | Some(value: T)

  // ─── Big-endian fields ──────────────────────────────────────────────────────

  function U16Bytes(n: u16): seq<byte> {
    [n / 256, n % 256]
  }

  function U16From(hi: byte, lo: byte): u16 {
    hi * 256 + lo
  }

  function U32Bytes(n: u32): (s: seq<byte>)
    ensures |s| == 4
  {
    BigEndian(n, 4)
  }

  function U32From(a: byte, b: byte, c: byte, d: byte): u32 {
    FromBigEndianBound([a, b, c, d]);
    Pow256Eight();
    FromBigEndian([a, b, c, d])
  }

  lemma U16RoundTrip(n: u16)
    ensures U16From(U16Bytes(n)[0], U16Bytes(n)[1]) == n
  {
  }

  lemma U16Canonical(hi: byte, lo: byte)
    ensures U16Bytes(U16From(hi, lo)) == [hi, lo]
  {
  }

  lemma U32RoundTrip(n: u32)
    ensures var s := U32Bytes(n); U32From(s[0], s[1], s[2], s[3]) == n
  {
    var s := U32Bytes(n);
    assert s == [s[0], s[1], s[2], s[3]];
    Pow256Eight();
    BigEndianRoundTrip(n, 4);
  }

  lemma U32Canonical(a: byte, b: byte, c: byte, d: byte)
    ensures U32Bytes(U32From(a, b, c, d)) == [a, b, c, d]
  {
    BigEndianCanonical([a, b, c, d]);
  }

  /** The `k` low bytes of `n`, the highest first. */
  function BigEndian(n: nat, k: nat): (s: seq<byte>)
    ensures |s| == k
  {
    if k == 0 then [] else BigEndian(n / 256, k - 1) + [n % 256]
  }

  function FromBigEndian(s: seq<byte>): nat {
    if s == [] then 0 else FromBigEndian(s[..|s| - 1]) * 256 + s[|s| - 1]
  }

  function Pow256(k: nat): nat {
    if k == 0 then 1 else 256 * Pow256(k - 1)
  }

  lemma {:induction false} BigEndianRoundTrip(n: nat, k: nat)
    requires n < Pow256(k)
    ensures FromBigEndian(BigEndian(n, k)) == n
  {
    if k > 0 {
      BigEndianRoundTrip(n / 256, k - 1);
      assert BigEndian(n, k)[..k - 1] == BigEndian(n / 256, k - 1);
    }
  }

  lemma {:induction false} BigEndianCanonical(s: seq<byte>)
    ensures BigEndian(FromBigEndian(s), |s|) == s
  {
    if s != [] {
      var front, last := s[..|s| - 1], s[|s| - 1];
      BigEndianCanonical(front);
      assert FromBigEndian(s) / 256 == FromBigEndian(front) && FromBigEndian(s) % 256 == last;
      assert s == front + [last];
    }
  }

  lemma {:induction false} FromBigEndianBound(s: seq<byte>)
    ensures FromBigEndian(s) < Pow256(|s|)
  {
    if s != [] {
      FromBigEndianBound(s[..|s| - 1]);
    }
  }

  lemma Pow256Eight()
    ensures Pow256(4) == 0x1_0000_0000 && Pow256(8) == 0x1_0000_0000_0000_0000
  {
    assert Pow256(2) == 0x1_0000;
    assert Pow256(4) == 0x1_0000_0000;
    assert Pow256(6) == 0x1_0000_0000_0000;
  }

  function U64Bytes(n: u64): (s: seq<byte>)
    ensures |s| == 8
  {
    BigEndian(n, 8)
  }

  function U64From(s: seq<byte>): u64
    requires |s| == 8
  {
    FromBigEndianBound(s);
    Pow256Eight();
    FromBigEndian(s)
  }

  lemma U64RoundTrip(n: u64)
    ensures U64From(U64Bytes(n)) == n
  {
    Pow256Eight();
    BigEndianRoundTrip(n, 8);
  }

  // ─── Sequences ──────────────────────────────────────────────────────────────

  function Min(a: nat, b: nat): nat {
    if a <= b then a else b
  }

  function Max(a: nat, b: nat): nat {
    if a <= b then b else a
  }

  function Zeros(n: nat): (s: seq<byte>)
    ensures |s| == n
    ensures forall i :: 0 <= i < n ==> s[i] == 0
  {
    if n == 0 then [] else [0] + Zeros(n - 1)
  }

  lemma ZerosAdd(m: nat, n: nat)
    ensures Zeros(m + n) == Zeros(m) + Zeros(n)
  {
    hide Zeros;
  }

  /** All pieces joined, in order. */
  function Flatten<T>(pieces: seq<seq<T>>): seq<T> {
    if pieces == [] then [] else pieces[0] + Flatten(pieces[1..])
  }

  lemma Assoc<T>(a: seq<T>, b: seq<T>, c: seq<T>)
    ensures a + b + c == a + (b + c)
  {
  }

  lemma Split<T>(a: seq<T>, n: nat)
    requires n <= |a|
    ensures a[..n] + a[n..] == a
  {
  }

  lemma SliceJoin<T>(a: seq<T>, i: nat, j: nat, k: nat)
    requires i <= j <= k <= |a|
    ensures a[i..j] + a[j..k] == a[i..k]
  {
  }

  lemma SliceAppend<T>(a: seq<T>, b: seq<T>, n: nat)
    requires n <= |a|
    ensures (a + b)[..n] == a[..n] && (a + b)[n..] == a[n..] + b
  {
  }

  lemma {:induction false} FlattenAppend<T>(a: seq<seq<T>>, b: seq<seq<T>>)
    ensures Flatten(a + b) == Flatten(a) + Flatten(b)
  {
    if a == [] {
      assert a + b == b;
    } else {
      assert (a + b)[1..] == a[1..] + b;
      FlattenAppend(a[1..], b);
      Assoc(a[0], Flatten(a[1..]), Flatten(b));
    }
  }

  lemma FlattenOne<T>(a: seq<seq<T>>, x: seq<T>)
    ensures Flatten(a + [x]) == Flatten(a) + x
  {
    FlattenAppend(a, [x]);
    assert Flatten([x]) == x + Flatten<T>([]);
  }

  lemma {:induction false} Subset<T>(a: set<T>, b: set<T>)
    requires a <= b
    ensures |a| <= |b|
    decreases a
  {
    if a != {} {
      var x :| x in a;
      Subset(a - {x}, b - {x});
    }
  }
}
