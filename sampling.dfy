/** The draws of `Main` that choose what each event is about: a client from
    the pool and a domain from the ranked list (or an unknown one). The
    random source is replaced by the draws it would have produced. */
module Sampling {
  import opened JavaLang

  /** One row of the ranking: parsing of the CSV text is not modelled. */
  datatype PageRankEntry = PageRankEntry(rank: int, domain: string, openPageRank: real)

  /** `getNext`: maps the uniform draw `r` in [0, 1) to
      `floor(size - (1 - r³)·size)`, in exact real arithmetic. The result is
      `floor(size·r³)`, so it already lies in [0, size) for a non-empty list
      and the code has no clamp. */
  function NextIndex(size: nat, r: real): (i: int)
    requires 0.0 <= r < 1.0
    ensures i as real <= size as real * (r * r * r) < i as real + 1.0
    ensures 0 <= i
    ensures size > 0 ==> i < size
    ensures size == 0 ==> i == 0
  {
    ScaledCube(size, r);
    (size as real - (1.0 - r * r * r) * size as real).Floor
  }

  lemma ScaledCube(size: nat, r: real)
    requires 0.0 <= r < 1.0
    ensures size as real - (1.0 - r * r * r) * size as real == size as real * (r * r * r)
    ensures 0.0 <= size as real * (r * r * r)
    ensures size > 0 ==> (size as real * (r * r * r)).Floor < size
  {
    CubeBelowOne(r);
    var n := size as real;
    if size > 0 {
      assert n * (r * r * r) < n * 1.0 by {
        assert n * 1.0 - n * (r * r * r) == n * (1.0 - r * r * r);
        PositiveProduct(n, 1.0 - r * r * r);
      }
      assert (n * (r * r * r)).Floor as real <= n * (r * r * r);
    }
    NonNegativeProduct(n, r * r * r);
  }

  lemma PositiveProduct(x: real, y: real)
    requires x > 0.0 && y > 0.0
    ensures x * y > 0.0
  {
  }

  lemma NonNegativeProduct(x: real, y: real)
    requires x >= 0.0 && y >= 0.0
    ensures x * y >= 0.0
  {
  }

  lemma CubeBelowOne(r: real)
    requires 0.0 <= r < 1.0
    ensures 0.0 <= r * r * r <= r < 1.0
    ensures r > 0.0 ==> r * r * r < r
  {
    NonNegativeProduct(r, r);
    assert r * r <= r by { MulLeq(r, r, 1.0); }
    NonNegativeProduct(r * r, r);
    assert r * r * r <= r * r by { MulLeq(r * r, r, 1.0); }
    if r > 0.0 {
      assert r * r < r by {
        assert r - r * r == r * (1.0 - r);
        PositiveProduct(r, 1.0 - r);
      }
    }
  }

  lemma MulLeq(x: real, y: real, z: real)
    requires x >= 0.0 && y <= z
    ensures x * y <= x * z
  {
    assert x * z - x * y == x * (z - y);
    NonNegativeProduct(x, z - y);
  }

  /** The draw-to-index map is monotone: a larger draw never yields a
      better-ranked (smaller) index. */
  lemma NextIndexMonotone(size: nat, r1: real, r2: real)
    requires 0.0 <= r1 <= r2 < 1.0
    ensures NextIndex(size, r1) <= NextIndex(size, r2)
  {
    var n := size as real;
    assert r1 * r1 <= r2 * r2 by {
      MulLeq(r1, r1, r2);
      MulLeq(r2, r1, r2);
    }
    assert r1 * r1 * r1 <= r2 * r2 * r2 by {
      NonNegativeProduct(r1, r1);
      MulLeq(r1 * r1, r1, r2);
      NonNegativeProduct(r2, r2);
      assert r1 * r1 * r2 <= r2 * r2 * r2 by {
        MulLeq(r2, r1 * r1, r2 * r2);
      }
    }
    MulLeq(n, r1 * r1 * r1, r2 * r2 * r2);
  }

  /** Rank bias: the index never exceeds the index `floor(size·r)` that a
      uniform choice would make from the same draw, and is strictly smaller
      for the draw `r = k / size` (0 < k < size), where the uniform choice
      reaches `k` but this one stays below it. */
  lemma NextIndexRankBiased(size: nat, r: real)
    requires 0.0 <= r < 1.0
    ensures NextIndex(size, r) <= (size as real * r).Floor
  {
    CubeBelowOne(r);
    MulLeq(size as real, r * r * r, r);
  }

  lemma NextIndexBelowUniform(size: nat, k: nat)
    requires 0 < k < size
    ensures NextIndex(size, k as real / size as real) < k
    ensures (size as real * (k as real / size as real)).Floor == k
  {
    var n, r := size as real, k as real / size as real;
    assert n * r == k as real;
    assert 0.0 < r < 1.0;
    CubeBelowOne(r);
    assert n * (r * r * r) < k as real by {
      assert n * r - n * (r * r * r) == n * (r - r * r * r);
      PositiveProduct(n, r - r * r * r);
    }
    var i := NextIndex(size, r);
    assert i as real <= n * (r * r * r);
    assert i as real < k as real;
  }

  /** Three ranked domains and the draws 0.0, 0.5 and 0.99 give the indices
      0, 0 and 2. */
  lemma NextIndexSmallExample()
    ensures NextIndex(3, 0.0) == 0
    ensures NextIndex(3, 0.5) == 0
    ensures NextIndex(3, 0.99) == 2
  {
    assert 3.0 * (0.5 * 0.5 * 0.5) == 0.375;
    assert 3.0 * (0.99 * 0.99 * 0.99) == 2.910897;
  }

  /** `computeClientIp`: the client at the drawn position of the pool.
      `nextInt(size)` draws a position in [0, size) and throws
      IllegalArgumentException when the pool is empty. */
  function ComputeClientIp(clientIps: seq<string>, draw: int): (r: Result<string>)
    requires clientIps != [] ==> 0 <= draw < |clientIps|
    ensures r.Failure? <==> clientIps == []
    ensures r.Failure? ==> r.error == IllegalArgument
    ensures r.Success? ==> r.value in clientIps && r.value == clientIps[draw]
  {
    if |clientIps| == 0 then Failure(IllegalArgument) else Success(clientIps[draw])
  }

  /** Every client of the pool can be chosen by some draw. */
  lemma EveryClientReachable(clientIps: seq<string>, ip: string)
    requires ip in clientIps
    ensures exists d :: 0 <= d < |clientIps| && ComputeClientIp(clientIps, d) == Success(ip)
  {
    var d :| 0 <= d < |clientIps| && clientIps[d] == ip;
    assert ComputeClientIp(clientIps, d) == Success(ip);
  }

  /** Which domain `computeDomain` settles on: an unknown one (the faker's
      name) or the position of a ranked one. */
  datatype DomainChoice = Unknown(name: string) | Ranked(index: int)

  /** The decision of `computeDomain` for the unknown-site draw `u` and the
      rank draw `r`; the rank draw is only taken when `u >= pUnknown`. */
  function ChooseDomain(pUnknown: real, size: nat, u: real, r: real, fake: string): (c: DomainChoice)
    requires 0.0 <= r < 1.0
    ensures c.Unknown? <==> u < pUnknown
    ensures c.Unknown? ==> c.name == fake
    ensures c.Ranked? ==> 0 <= c.index && (c.index < size <==> size > 0)
  {
    if u < pUnknown then Unknown(fake) else Ranked(NextIndex(size, r))
  }
}
