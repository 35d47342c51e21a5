/** The pick-statistics accumulator (`Stats`): bucket counters over every
    ranked-domain pick, run metadata, and the SI byte-size scaling used by
    its report. */
module Statistics {
  import opened JavaLang

  /** The six pick counters of `Stats`. In Java they are `double`s (and a
      `long` for `picks`) that only ever grow by one. */
  datatype PickCounts = PickCounts(picks: nat, top10: nat, top100: nat, top1000: nat, quartile: nat, half: nat)

  const Zero := PickCounts(0, 0, 0, 0, 0, 0)

  /** Each bucket is no larger than the wider bucket of its family, and every
      bucket is no larger than the number of picks. */
  predicate Ordered(c: PickCounts) {
    c.top10 <= c.top100 <= c.top1000 <= c.picks && c.quartile <= c.half <= c.picks
  }

  function Bump(n: nat, hit: bool): nat {
    if hit then n + 1 else n
  }

  /** The counters after `registerPick(pick, options)`; `options / 4` and
      `options / 2` are Java's truncating `long` divisions. */
  function Tally(c: PickCounts, pick: int, options: int): (r: PickCounts)
    ensures r.picks == c.picks + 1
    ensures (pick >= 0 || options >= 0) && Ordered(c) ==> Ordered(r)
  {
    PickCounts(c.picks + 1,
               Bump(c.top10, pick < 10),
               Bump(c.top100, pick < 100),
               Bump(c.top1000, pick < 1000),
               Bump(c.quartile, pick < TruncDiv(options, 4)),
               Bump(c.half, pick < TruncDiv(options, 2)))
  }

  /** Each bucket grows by exactly one when the pick falls below its
      threshold, and stays put otherwise. */
  lemma TallyBuckets(c: PickCounts, pick: int, options: int)
    ensures var r := Tally(c, pick, options);
      && (r.top10 == c.top10 + 1 <==> pick < 10) && (r.top10 == c.top10 <==> pick >= 10)
      && (r.top100 == c.top100 + 1 <==> pick < 100) && (r.top100 == c.top100 <==> pick >= 100)
      && (r.top1000 == c.top1000 + 1 <==> pick < 1000) && (r.top1000 == c.top1000 <==> pick >= 1000)
      && (r.quartile == c.quartile + 1 <==> pick < TruncDiv(options, 4))
      && (r.quartile == c.quartile <==> pick >= TruncDiv(options, 4))
      && (r.half == c.half + 1 <==> pick < TruncDiv(options, 2))
      && (r.half == c.half <==> pick >= TruncDiv(options, 2))
  {
  }

  /** The two bucket families are independent: with fewer than 40 options a
      pick can be in the top ten without being in the top quartile. */
  lemma BucketsNotNested(c: PickCounts, pick: int, options: int)
    requires 0 <= options < 40 && options / 4 <= pick < 10
    ensures Tally(c, pick, options).top10 == c.top10 + 1
    ensures Tally(c, pick, options).quartile == c.quartile
  {
  }

  /** The quartile/half order needs a non-negative pick or option count:
      `registerPick(-2, -5)` counts the pick into the quartile but not the half. */
  lemma QuartileAboveHalfWhenBothNegative()
    ensures !Ordered(Tally(Zero, -2, -5))
  {
    assert TruncDiv(-5, 4) == -1;
    assert TruncDiv(-5, 2) == -2;
  }

  /** The counters after registering `picks` in order, starting from `c`. */
  function TallyAll(c: PickCounts, picks: seq<int>, options: int): PickCounts
  {
    if picks == [] then c
    else Tally(TallyAll(c, picks[..|picks| - 1], options), picks[|picks| - 1], options)
  }

  /** How many of `picks` lie below `bound`: the reference count for a bucket. */
  function CountBelow(picks: seq<int>, bound: int): (n: nat)
    ensures n <= |picks|
  {
    if picks == [] then 0
    else (if picks[0] < bound then 1 else 0) + CountBelow(picks[1..], bound)
  }

  lemma {:induction false} CountBelowAppend(picks: seq<int>, x: int, bound: int)
    ensures CountBelow(picks + [x], bound) == CountBelow(picks, bound) + (if x < bound then 1 else 0)
  {
    if picks != [] {
      assert (picks + [x])[1..] == picks[1..] + [x];
      CountBelowAppend(picks[1..], x, bound);
    }
  }

  /** Over a whole run, every counter is the number of picks below its
      threshold, and `picks` is the number of registered picks. */
  lemma {:induction false} TallyAllCounts(c: PickCounts, picks: seq<int>, options: int)
    ensures var r := TallyAll(c, picks, options);
      && r.picks == c.picks + |picks|
      && r.top10 == c.top10 + CountBelow(picks, 10)
      && r.top100 == c.top100 + CountBelow(picks, 100)
      && r.top1000 == c.top1000 + CountBelow(picks, 1000)
      && r.quartile == c.quartile + CountBelow(picks, TruncDiv(options, 4))
      && r.half == c.half + CountBelow(picks, TruncDiv(options, 2))
  {
    if picks != [] {
      var front, x := picks[..|picks| - 1], picks[|picks| - 1];
      assert picks == front + [x];
      TallyAllCounts(c, front, options);
      CountBelowAppend(front, x, 10);
      CountBelowAppend(front, x, 100);
      CountBelowAppend(front, x, 1000);
      CountBelowAppend(front, x, TruncDiv(options, 4));
      CountBelowAppend(front, x, TruncDiv(options, 2));
    }
  }

  lemma {:induction false} CountBelowAllBelow(picks: seq<int>, bound: int)
    requires forall k :: 0 <= k < |picks| ==> picks[k] < bound
    ensures CountBelow(picks, bound) == |picks|
  {
    if picks != [] {
      CountBelowAllBelow(picks[1..], bound);
    }
  }

  lemma {:induction false} CountBelowNoneBelow(picks: seq<int>, bound: int)
    requires forall k :: 0 <= k < |picks| ==> picks[k] >= bound
    ensures CountBelow(picks, bound) == 0
  {
    if picks != [] {
      CountBelowNoneBelow(picks[1..], bound);
    }
  }

  /** After `k` picks of the top-ranked domain from a fresh accumulator, every
      counter equals `k` when there are at least four options; with two or
      three options the quartile threshold is 0 and the quartile stays empty. */
  lemma AllTopPicks(k: nat, options: int)
    requires options >= 2
    ensures var r := TallyAll(Zero, seq(k, _ => 0), options);
      && r.picks == r.top10 == r.top100 == r.top1000 == r.half == k
      && r.quartile == (if options >= 4 then k else 0)
  {
    var picks := seq(k, _ => 0);
    TallyAllCounts(Zero, picks, options);
    CountBelowAllBelow(picks, 10);
    CountBelowAllBelow(picks, 100);
    CountBelowAllBelow(picks, 1000);
    CountBelowAllBelow(picks, TruncDiv(options, 2));
    if options >= 4 {
      CountBelowAllBelow(picks, TruncDiv(options, 4));
    } else {
      CountBelowNoneBelow(picks, TruncDiv(options, 4));
    }
  }

  /** The SI prefixes the report's byte sizes advance through. */
  const Prefixes: string := "kMGTPE"

  /** A byte count as the report renders it: `n B` below a thousand, else
      `value / 1000.0` with the prefix at position `exponent` of `Prefixes`. */
  datatype ByteCount = Plain(bytes: int) | Scaled(value: int, exponent: nat, prefix: char)

  function Pow1000(k: nat): (p: nat)
    ensures p >= 1
  {
    if k == 0 then 1 else 1000 * Pow1000(k - 1)
  }

  /** A `long` divided by 1000 five times lies inside ±999 950, so the
      scaling loop stops by the prefix 'E'. */
  lemma LongFitsExa(bytes: int)
    requires IsLong(bytes)
    ensures -999_950 < TruncDiv(bytes, Pow1000(5)) < 999_950
  {
    assert Pow1000(5) == 1_000_000_000_000_000 by {
      assert Pow1000(2) == 1_000_000;
      assert Pow1000(4) == 1_000_000_000_000;
    }
    var q := TruncDiv(bytes, Pow1000(5));
    if q >= 999_950 {
      MulMonotone(1_000_000_000_000_000, 999_950, q);
    } else if q <= -999_950 {
      MulMonotone(1_000_000_000_000_000, -q, 999_950);
    }
  }

  /** One more division by 1000 is one more power of 1000 in the divisor. */
  lemma TruncDivStep(bytes: int, k: nat)
    ensures TruncDiv(TruncDiv(bytes, Pow1000(k)), 1000) == TruncDiv(bytes, Pow1000(k + 1))
  {
    TruncDivTwice(bytes, Pow1000(k), 1000);
    assert Pow1000(k) * 1000 == Pow1000(k + 1);
  }

  /** The accumulator itself; the Java fields are public and updated in place. */
  class Stats {
    var top10: nat
    var top100: nat
    var top1000: nat
    var quartile: nat
    var half: nat
    var picks: nat
    /** Milliseconds since 1970-01-01T00:00, or None while the Java field is null. */
    var endTime: Option<int>
    var startTime: Option<int>
    var csvSize: int
    var jsonSize: int
    var jsonBzSize: int
    var userActivitySize: int
    var userActivityBzSize: int
    var percentUnknownSites: real

    /** All numeric fields start at zero and the timestamps at null. */
    constructor ()
      ensures Counts() == Zero
      ensures endTime == None && startTime == None
      ensures csvSize == jsonSize == jsonBzSize == userActivitySize == userActivityBzSize == 0
      ensures percentUnknownSites == 0.0
    {
      top10, top100, top1000, quartile, half, picks := 0, 0, 0, 0, 0, 0;
      endTime, startTime := None, None;
      csvSize, jsonSize, jsonBzSize, userActivitySize, userActivityBzSize := 0, 0, 0, 0, 0;
      percentUnknownSites := 0.0;
    }

    /** The pick counters as one value. */
    function Counts(): PickCounts
      reads this
    {
      PickCounts(picks, top10, top100, top1000, quartile, half)
    }

    /** `registerPick`: counts one more pick and each bucket it falls in; the
        frame says that no other field changes. */
    method RegisterPick(pick: int, options: int)
      modifies this`picks, this`top10, this`top100, this`top1000, this`quartile, this`half
      ensures Counts() == Tally(old(Counts()), pick, options)
      ensures (pick >= 0 || options >= 0) && old(Ordered(Counts())) ==> Ordered(Counts())
    {
      picks := picks + 1;
      if pick < 10 {
        top10 := top10 + 1;
      }
      if pick < 100 {
        top100 := top100 + 1;
      }
      if pick < 1000 {
        top1000 := top1000 + 1;
      }
      if pick < TruncDiv(options, 4) {
        quartile := quartile + 1;
      }
      if pick < TruncDiv(options, 2) {
        half := half + 1;
      }
    }

    /** The integer part of `humanReadableByteCountSI`: below a thousand in
        magnitude the plain count; otherwise the count divided (truncating)
        by 1000 until it lies strictly inside ±999 950, with the prefix cursor
        advanced once per division. The cursor never passes 'E'. */
    static method HumanReadableByteCountSI(bytes: int) returns (r: ByteCount)
      requires IsLong(bytes)
      ensures (-1000 < bytes < 1000) <==> r.Plain?
      ensures r.Plain? ==> r.bytes == bytes
      ensures r.Scaled? ==> r.exponent < |Prefixes| && r.prefix == Prefixes[r.exponent]
      ensures r.Scaled? ==> r.value == TruncDiv(bytes, Pow1000(r.exponent)) && -999_950 < r.value < 999_950
      ensures r.Scaled? ==> forall j :: 0 <= j < r.exponent ==> Abs(TruncDiv(bytes, Pow1000(j))) >= 999_950
      ensures 1000 <= Abs(bytes) < 999_950 ==> r == Scaled(bytes, 0, 'k')
    {
      if -1000 < bytes && bytes < 1000 {
        return Plain(bytes);
      }
      var scaled, cursor := bytes, 0;
      LongFitsExa(bytes);
      while scaled <= -999_950 || scaled >= 999_950
        invariant 0 <= cursor <= 5
        invariant scaled == TruncDiv(bytes, Pow1000(cursor))
        invariant forall j :: 0 <= j < cursor ==> Abs(TruncDiv(bytes, Pow1000(j))) >= 999_950
        decreases 5 - cursor
      {
        TruncDivStep(bytes, cursor);
        scaled := TruncDiv(scaled, 1000);
        cursor := cursor + 1;
      }
      r := Scaled(scaled, cursor, Prefixes[cursor]);
    }
  }
}
