/**
  IPv4 addresses as 32-bit naturals and CIDR networks as (base address,
  prefix length), as in section 3.1 of RFC 4632: a network of prefix length
  p holds the 2^(32 - p) addresses starting at a base that is a multiple of
  that size.  This is the part of Python's `ipaddress` module that
  `covering_cidr` relies on.
*/
module Ipv4 {

  /** Number of IPv4 addresses. */
  const AddressCount: nat := 0x1_0000_0000

  type Address = a: nat | a < AddressCount

  /** A prefix length, the number of leading bits that name a network. */
  type PrefixLength = p: nat | p <= 32

  function Pow2(k: nat): (r: nat)
    ensures r >= 1
  {
    if k == 0 then 1 else 2 * Pow2(k - 1)
  }

  /** Number of addresses in a network with the given prefix length. */
  function Size(prefix: PrefixLength): (r: nat)
    ensures r >= 1
  {
    Pow2(32 - prefix)
  }

  datatype Network = Network(base: nat, prefix: PrefixLength)

  /** A well-formed network: its base is aligned to its size and it lies in the address space. */
  predicate Valid(n: Network)
  {
    n.base % Size(n.prefix) == 0 && n.base + Size(n.prefix) <= AddressCount
  }

  /** One past the last address of `n`. */
  function End(n: Network): nat
  {
    n.base + Size(n.prefix)
  }

  predicate Contains(n: Network, a: nat)
  {
    n.base <= a < End(n)
  }

  /** Every address of `n` is an address of `m`. */
  predicate Within(n: Network, m: Network)
  {
    m.base <= n.base && End(n) <= End(m)
  }

  /** `n` and `m` have no address in common. */
  predicate Disjoint(n: Network, m: Network)
  {
    End(n) <= m.base || End(m) <= n.base
  }

  /** The /24 network of an address, as `IPv4Interface(ip + "/24").network` gives it. */
  function Slash24(a: Address): (r: Network)
    ensures Valid(r) && r.prefix == 24 && Contains(r, a)
  {
    SizeValues();
    var r := Network(a - a % 256, 24);
    DivModUnique(r.base, 256, a / 256, 0);
    Gap(r.base, AddressCount, 256);
    r
  }

  /** The network one prefix bit shorter that contains `n`, as `supernet()` gives it. */
  function Supernet(n: Network): (r: Network)
    requires Valid(n) && n.prefix >= 1
    ensures Valid(r) && r.prefix == n.prefix - 1 && Within(n, r)
  {
    var big := Size(n.prefix - 1);
    assert big == 2 * Size(n.prefix);
    HalvesArith(n.base, Size(n.prefix));
    var r := Network(n.base - n.base % big, n.prefix - 1);
    // r ends inside the address space because the address space is a multiple of its size
    SizeScale(n.prefix - 1, 0);
    SizeValues();
    MulMod(big, Pow2(n.prefix - 1));
    Gap(r.base, AddressCount, big);
    r
  }

  /** `n` and `m` are the two different halves of one supernet. */
  predicate Siblings(n: Network, m: Network)
  {
    && Valid(n) && Valid(m) && n.prefix == m.prefix && n.prefix >= 1
    && n != m && Supernet(n) == Supernet(m)
  }

  /** The /0 network, the whole address space. */
  function Everything(): (r: Network)
    ensures Valid(r) && r.prefix == 0
    ensures forall a: Address :: Contains(r, a)
  {
    SizeValues();
    Network(0, 0)
  }

  // ---------------------------------------------------------------------
  // Arithmetic behind the definitions above

  lemma SizeValues()
    ensures Size(24) == 256 && Size(0) == AddressCount
  {
    assert Pow2(8) == 256;
    assert Pow2(16) == 65536;
    assert Pow2(24) == 16777216;
    assert Pow2(32) == 4294967296;
  }

  lemma {:induction false} SizeScale(q: nat, p: nat)
    requires p <= q <= 32
    ensures Size(p) == Size(q) * Pow2(q - p)
    decreases q - p
  {
    if p < q {
      SizeScale(q, p + 1);
      var a, k := Size(q), Pow2(q - (p + 1));
      assert Size(p + 1) == a * k;
      assert Size(p) == 2 * Size(p + 1);
      assert Pow2(q - p) == 2 * k;
      Double(a, k);
    }
  }

  /** A shorter prefix gives a strictly larger network. */
  lemma SizeStrict(p: PrefixLength, q: PrefixLength)
    requires p < q
    ensures Size(p) >= 2 * Size(q)
  {
    SizeScale(q, p);
    assert Pow2(q - p) == 2 * Pow2(q - p - 1);
    MulMono(Size(q), 2, Pow2(q - p));
  }

  lemma Double(a: int, k: int)
    ensures 2 * (a * k) == a * (2 * k)
  {
  }

  lemma MulMono(s: int, a: int, b: int)
    requires s >= 0 && a <= b
    ensures s * a <= s * b
  {
  }

  lemma ZeroFactor(s: int, d: int)
    requires s > 0 && -s < s * d < s
    ensures d == 0
  {
    if d > 0 {
      MulMono(s, 1, d);
    } else if d < 0 {
      MulMono(s, d, -1);
    }
  }

  lemma DivNonNegative(b: int, d: int)
    requires b >= 0 && d > 0
    ensures b / d >= 0
  {
    if b / d < 0 {
      MulMono(d, b / d, -1);
    }
  }

  lemma DivModUnique(x: int, s: int, q: int, r: int)
    requires s > 0 && 0 <= r < s && x == s * q + r
    ensures x / s == q && x % s == r
  {
    ZeroFactor(s, q - x / s);
  }

  lemma MulMod(s: int, k: int)
    requires s > 0
    ensures (s * k) % s == 0 && (s * k) / s == k
  {
    DivModUnique(s * k, s, k, 0);
  }

  /** Two distinct multiples of k are at least k apart. */
  lemma Gap(x: int, y: int, k: int)
    requires k > 0 && x % k == 0 && y % k == 0 && x < y
    ensures x + k <= y
  {
    var a, b := x / k, y / k;
    assert x == k * a;
    assert y == k * b;
    if b <= a {
      MulMono(k, b, a);
    }
    MulMono(k, a + 1, b);
  }

  /**
    Rounding a multiple of s down to a multiple of 2 * s gives a block of
    2 * s that the block of s at b lies in.
  */
  lemma HalvesArith(b: int, s: int)
    requires s > 0 && b >= 0 && b % s == 0
    ensures (b - b % (2 * s)) % (2 * s) == 0
    ensures b % (2 * s) + s <= 2 * s && b % (2 * s) <= b
  {
    var big := 2 * s;
    var t := b / big;
    assert b - b % big == big * t;
    DivNonNegative(b, big);
    MulMono(big, 0, t);
    MulMod(big, t);
    var q := b / s;
    assert b == s * q;
    assert b % big == s * (q - 2 * t);
    MulMod(s, q - 2 * t);
    MulMod(s, 2);
    Gap(b % big, big, s);
  }

  /** A multiple of s * k and the next one up are multiples of s. */
  lemma MultipleOfFactor(b: int, s: int, k: int)
    requires s > 0 && k > 0 && b % (s * k) == 0
    ensures b % s == 0 && (b + s * k) % s == 0
  {
    var j := b / (s * k);
    assert b == (s * k) * j;
    assert b == s * (k * j);
    MulMod(s, k * j);
    assert b + s * k == s * (k * j + k);
    MulMod(s, k * j + k);
  }

  /** A base aligned to a size is aligned to every smaller size. */
  lemma AlignedFiner(b: nat, p: PrefixLength, q: PrefixLength)
    requires q <= p && b % Size(q) == 0
    ensures b % Size(p) == 0 && (b + Size(q)) % Size(p) == 0
  {
    SizeScale(p, q);
    MultipleOfFactor(b, Size(p), Pow2(p - q));
  }

  // ---------------------------------------------------------------------
  // How two networks relate

  /** Two networks are nested or disjoint; the one with the longer prefix is the inner one. */
  lemma NestedOrDisjoint(n: Network, m: Network)
    requires Valid(n) && Valid(m) && n.prefix >= m.prefix
    ensures Within(n, m) || Disjoint(n, m)
  {
    AlignedFiner(m.base, n.prefix, m.prefix);
    var s := Size(n.prefix);
    if n.base < m.base {
      Gap(n.base, m.base, s);
    } else if n.base < End(m) {
      Gap(n.base, End(m), s);
    }
  }

  /** Two valid networks are nested one way or the other, or disjoint. */
  lemma NestedEitherWay(n: Network, m: Network)
    requires Valid(n) && Valid(m)
    ensures Within(n, m) || Within(m, n) || Disjoint(n, m)
  {
    if n.prefix >= m.prefix {
      NestedOrDisjoint(n, m);
    } else {
      NestedOrDisjoint(m, n);
    }
  }

  /** Two networks that share an address are nested. */
  lemma SharedAddress(n: Network, m: Network, a: nat)
    requires Valid(n) && Valid(m) && n.prefix >= m.prefix
    requires Contains(n, a) && Contains(m, a)
    ensures Within(n, m)
  {
    NestedOrDisjoint(n, m);
  }

  /** Nesting decides the order of prefix lengths, and equal prefixes mean equal networks. */
  lemma WithinPrefix(n: Network, m: Network)
    requires Valid(n) && Valid(m) && Within(n, m)
    ensures n.prefix >= m.prefix
    ensures n.prefix == m.prefix ==> n == m
  {
    if n.prefix < m.prefix {
      SizeStrict(n.prefix, m.prefix);
    }
  }

  /** The two halves of a supernet hold all of its addresses between them. */
  lemma HalvesFill(n: Network, m: Network, a: nat)
    requires Siblings(n, m) && Contains(Supernet(n), a)
    ensures Contains(n, a) || Contains(m, a)
  {
    NestedOrDisjoint(n, m);
    if Within(n, m) {
      WithinPrefix(n, m);
    }
    assert Size(n.prefix - 1) == 2 * Size(n.prefix);
  }

  /** The lower and upper halves of a network one bit shorter than 32. */
  lemma Halves(x: Network) returns (lo: Network, hi: Network)
    requires Valid(x) && x.prefix < 32
    ensures lo == Network(x.base, x.prefix + 1) && hi == Network(End(lo), x.prefix + 1)
    ensures Siblings(lo, hi) && Supernet(lo) == x
    ensures End(hi) == End(x)
  {
    var s := Size(x.prefix + 1);
    var big := Size(x.prefix);
    assert big == 2 * s;
    lo := Network(x.base, x.prefix + 1);
    hi := Network(x.base + s, x.prefix + 1);
    var t := x.base / big;
    HalfMultiples(x.base, s, t);
    assert Valid(lo) && Valid(hi);
    assert Supernet(lo) == x;
    assert Supernet(hi) == x;
  }

  /** A multiple of 2 * s and the point s above it are multiples of s, the second s above a multiple of 2 * s. */
  lemma HalfMultiples(b: int, s: int, t: int)
    requires s > 0 && b % (2 * s) == 0 && t == b / (2 * s)
    ensures b % s == 0 && (b + s) % s == 0 && (b + s) % (2 * s) == s
  {
    assert b == (2 * s) * t;
    assert b == s * (2 * t);
    MulMod(s, 2 * t);
    assert b + s == s * (2 * t + 1);
    MulMod(s, 2 * t + 1);
    DivModUnique(b + s, 2 * s, t, s);
  }

  /** A network that holds one half of `x` but not all of `x` is that half. */
  lemma HalfOnly(x: Network, h: Network, m: Network)
    requires Valid(x) && Valid(m) && Valid(h) && h.prefix == x.prefix + 1 && Within(h, x)
    requires Within(h, m) && !Within(x, m)
    ensures m == h
  {
    NestedEitherWay(x, m);
    WithinPrefix(h, m);
    WithinPrefix(m, x);
  }

  /** A network strictly inside another can be widened by one bit and stay inside it. */
  lemma SupernetWithin(n: Network, m: Network)
    requires Valid(n) && Valid(m) && Within(n, m) && n != m
    ensures n.prefix >= 1 && Within(Supernet(n), m)
  {
    WithinPrefix(n, m);
    SharedAddress(Supernet(n), m, n.base);
  }
}
