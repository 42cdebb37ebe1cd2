/** Byte strings and the fixed-width big-endian integers every wire format here is made of. */
module Bytes {
  type byte = x: int | 0 <= x < 256
  type bytes = seq<byte>
  type bytes32 = b: bytes | |b| == 32 witness seq(32, i => 0)

  datatype Option<+T> = None | Some(value: T)

  datatype Result<+T, +E> = Ok(value: T) | Err(error: E) {
    predicate IsFailure() { Err? }
    function PropagateFailure<U>(): Result<U, E> requires Err? { Err(error) }
    function Extract(): T requires Ok? { value }
  }

  function Pow256(w: nat): (p: nat)
    ensures p > 0
  {
    if w == 0 then 1 else 256 * Pow256(w - 1)
  }

  /** The low w bytes of n in two's complement, most significant first. This is DataView.setUint8,
      setUint16, setUint32, setInt32, setBigInt64 and setBigUint64 (all of which wrap), and Rust's
      to_be_bytes. Dafny's / and % round towards minus infinity for a positive divisor. */
  function Be(n: int, w: nat): (b: bytes)
    ensures |b| == w
    decreases w, n
  {
    if w == 0 then [] else Be(n / 256, w - 1) + [n % 256]
  }

  function Unsigned(b: bytes): (n: nat)
  {
    if b == [] then 0 else 256 * Unsigned(b[..|b| - 1]) + b[|b| - 1]
  }

  function Signed(b: bytes): int
  {
    var n := Unsigned(b);
    if 2 * n < Pow256(|b|) then n else n - Pow256(|b|)
  }

  predicate FitsUnsigned(n: int, w: nat) { 0 <= n < Pow256(w) }

  predicate FitsSigned(n: int, w: nat) { 0 <= 2 * n + Pow256(w) < 2 * Pow256(w) }

  lemma {:induction false} UnsignedBound(b: bytes)
    ensures Unsigned(b) < Pow256(|b|)
  {
    if b != [] {
      UnsignedBound(b[..|b| - 1]);
    }
  }

  lemma {:induction false} BeOfUnsigned(b: bytes)
    ensures Be(Unsigned(b), |b|) == b
  {
    if b != [] {
      var h, l := b[..|b| - 1], b[|b| - 1];
      BeOfUnsigned(h);
      assert (256 * Unsigned(h) + l) / 256 == Unsigned(h) && (256 * Unsigned(h) + l) % 256 == l;
      assert b == h + [l];
    }
  }

  /** Writing reduces modulo 256^w: the JavaScript and Rust encoders never fail on a wide value. */
  lemma {:induction false} UnsignedOfBe(n: int, w: nat)
    ensures Unsigned(Be(n, w)) == n % Pow256(w)
    decreases w
  {
    if w == 0 {
      assert n % 1 == 0;
    } else {
      var b := Be(n, w);
      assert b[..w - 1] == Be(n / 256, w - 1) && b[w - 1] == n % 256;
      UnsignedOfBe(n / 256, w - 1);
      ModStep(n, Pow256(w - 1));
    }
  }

  lemma ModStep(n: int, p: nat)
    requires p > 0
    ensures n % (256 * p) == 256 * (n / 256 % p) + n % 256
  {
    var q := n / 256;
    var k := q / p;
    assert q == p * k + q % p;
    assert n == 256 * (p * k + q % p) + n % 256 == (256 * p) * k + (256 * (q % p) + n % 256);
    DivModUnique(n, 256 * p, k, 256 * (q % p) + n % 256);
  }

  lemma DivModUnique(n: int, d: nat, q: int, r: int)
    requires d > 0 && 0 <= r < d && n == d * q + r
    ensures n / d == q && n % d == r
  {
    var k, r' := n / d - q, n % d;
    assert d * k == r - r' by {
      assert n == d * (n / d) + r';
      assert d * k == d * (n / d) - d * q;
    }
    if k >= 1 {
      MulMonotone(d, 1, k);
    } else if k <= -1 {
      MulMonotone(d, k, -1);
    }
  }

  lemma MulMonotone(d: nat, x: int, y: int)
    requires x <= y
    ensures d * x <= d * y
  {
  }

  /** An unsigned field survives a write and a read exactly when it fits its width. */
  lemma UnsignedRoundTrip(n: int, w: nat)
    ensures Unsigned(Be(n, w)) == n <==> FitsUnsigned(n, w)
  {
    UnsignedOfBe(n, w);
    if FitsUnsigned(n, w) {
      DivModUnique(n, Pow256(w), 0, n);
    }
  }

  /** A signed field survives a write and a read exactly when it fits its width. */
  lemma SignedRoundTrip(n: int, w: nat)
    requires w > 0
    ensures Signed(Be(n, w)) == n <==> FitsSigned(n, w)
  {
    UnsignedOfBe(n, w);
    var p := Pow256(w);
    if FitsSigned(n, w) {
      if n >= 0 {
        DivModUnique(n, p, 0, n);
      } else {
        DivModUnique(n, p, -1, n + p);
      }
    }
  }

  lemma BeOfSigned(b: bytes)
    ensures Be(Signed(b), |b|) == b
    ensures b != [] ==> FitsSigned(Signed(b), |b|)
  {
    var n, w := Unsigned(b), |b|;
    UnsignedBound(b);
    BeOfUnsigned(b);
    SameBe(Signed(b), n, w);
  }

  lemma SameBe(s: int, n: int, w: nat)
    requires s == n || s == n - Pow256(w)
    ensures Be(s, w) == Be(n, w)
  {
    if s != n {
      BeWraps(n, w);
    }
  }

  lemma {:induction false} BeWraps(n: int, w: nat)
    ensures Be(n - Pow256(w), w) == Be(n, w)
    decreases w
  {
    if w > 0 {
      var p := Pow256(w - 1);
      DivModUnique(n - 256 * p, 256, n / 256 - p, n % 256);
      BeWraps(n / 256, w - 1);
    }
  }

  lemma Widths()
    ensures Pow256(1) == 0x100 && Pow256(2) == 0x1_0000 && Pow256(4) == 0x1_0000_0000
    ensures Pow256(8) == 0x1_0000_0000_0000_0000
  {
    assert Pow256(4) == 256 * Pow256(3) && Pow256(3) == 256 * Pow256(2);
    assert Pow256(8) == 256 * Pow256(7) && Pow256(7) == 256 * Pow256(6);
    assert Pow256(6) == 256 * Pow256(5) && Pow256(5) == 256 * Pow256(4);
  }

  lemma SliceOfSlice<T>(s: seq<T>, lo: nat, hi: nat, x: nat, y: nat)
    requires lo <= hi <= |s| && x <= y <= hi - lo
    ensures s[lo..hi][x..y] == s[lo + x..lo + y]
  {
    var t := s[lo..hi];
    forall i | 0 <= i < y - x
      ensures t[x..y][i] == s[lo + x..lo + y][i]
    {
      assert t[x..y][i] == t[x + i] == s[lo + (x + i)];
    }
  }

  /** Copy b into a at off and leave every other byte alone (Uint8Array.set, copy_from_slice). */
  method Put(a: array<byte>, off: nat, b: bytes)
    requires off + |b| <= a.Length
    modifies a
    ensures a[..] == old(a[..off]) + b + old(a[off + |b|..])
  {
    for i := 0 to |b|
      invariant a[..off] == old(a[..off]) && a[off..off + i] == b[..i] && a[off + i..] == old(a[off + i..])
    {
      a[off + i] := b[i];
    }
  }
}
