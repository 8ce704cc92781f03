/**
 The sliding average behind `bytes_per_second`: a bounded deque of rates that
 refines "the last `window` rates ever pushed".
 */
module MovingAverage {

  const U64_MAX := 0xFFFF_FFFF_FFFF_FFFF
  const WINDOW := 30

  /** `(bytes / elapsed) as u64`: truncating, and saturating at the top of the type. */
  function Rate(bytes: nat, elapsed: real): (r: nat)
    requires elapsed > 0.0
  {
    var q := (bytes as real / elapsed).Floor;
    if q <= 0 then 0 else if q >= U64_MAX then U64_MAX else q
  }

  /** The rate is the whole number of bytes per second, unless it is too large for the type. */
  lemma RateIs(bytes: nat, elapsed: real)
    requires elapsed > 0.0
    ensures var r := Rate(bytes, elapsed);
      && r <= 0xFFFF_FFFF_FFFF_FFFF
      && r as real * elapsed <= bytes as real
      && (r < 0xFFFF_FFFF_FFFF_FFFF ==> bytes as real < r as real * elapsed + elapsed)
  {
    DivideReal(bytes as real, elapsed, Rate(bytes, elapsed) as real);
  }

  lemma DivideReal(x: real, y: real, r: real)
    requires x >= 0.0 && y > 0.0
    ensures r <= x / y ==> r * y <= x
    ensures x / y < r + 1.0 ==> x < r * y + y
  {
    var q := x / y;
    assert q * y == x;
    MoreTimes(r, q, y);
    MoreTimes(q, r + 1.0, y);
    assert (r + 1.0) * y == r * y + y;
  }

  lemma MoreTimes(a: real, b: real, elapsed: real)
    requires elapsed > 0.0
    ensures a <= b ==> a * elapsed <= b * elapsed
    ensures a < b ==> a * elapsed < b * elapsed
  {
  }

  function Sum(s: seq<nat>): nat {
    if s == [] then 0 else Sum(s[..|s| - 1]) + s[|s| - 1]
  }

  /** The floored mean, and 0 for no samples. */
  function Mean(s: seq<nat>): nat {
    if s == [] then 0 else Sum(s) / |s|
  }

  function LastN<T>(s: seq<T>, n: nat): seq<T> {
    if |s| <= n then s else s[|s| - n..]
  }

  /** The rates a list of pushes contributes: one for each push with a positive elapsed time. */
  function Rates(pushes: seq<(nat, real)>): seq<nat> {
    if pushes == [] then []
    else
      var (bytes, elapsed) := pushes[|pushes| - 1];
      Rates(pushes[..|pushes| - 1]) + (if elapsed > 0.0 then [Rate(bytes, elapsed)] else [])
  }

  class MovingAverageCalculator {
    var samples: seq<nat>
    const window: nat
    /** Everything pushed so far. */
    ghost var pushes: seq<(nat, real)>

    ghost predicate Valid()
      reads this
    {
      samples == LastN(Rates(pushes), window)
    }

    /** The average is over the last `n` rates. */
    ghost predicate Covers(n: nat)
      reads this
    {
      Valid() && window == n
    }

    constructor (window: nat)
      ensures Valid() && pushes == [] && this.window == window
    {
      this.window := window;
      samples := [];
      pushes := [];
    }

    method Push(bytes: nat, elapsed: real) returns (average: nat)
      requires Valid()
      modifies this
      ensures Valid() && pushes == old(pushes) + [(bytes, elapsed)]
      ensures average == Mean(LastN(Rates(pushes), window))
      ensures elapsed <= 0.0 ==> samples == old(samples)
      ensures elapsed > 0.0 && window > 0 ==>
        && |samples| == (if |old(samples)| < window then |old(samples)| + 1 else window)
        && samples[|samples| - 1] == Rate(bytes, elapsed)
    {
      pushes := pushes + [(bytes, elapsed)];
      assert pushes[..|pushes| - 1] == old(pushes);
      if elapsed <= 0.0 {
        average := CurrentAverage();
        return;
      }
      var bps := Rate(bytes, elapsed);
      SlideWindow(Rates(old(pushes)), bps, window);
      samples := samples + [bps];
      if |samples| > window {
        samples := samples[1..];
      }
      average := CurrentAverage();
    }

    method CurrentAverage() returns (average: nat)
      ensures average == Mean(samples)
    {
      if samples == [] {
        return 0;
      }
      var sum := 0;
      for i := 0 to |samples|
        invariant sum == Sum(samples[..i])
      {
        sum := sum + samples[i];
        assert samples[..i + 1][..i] == samples[..i];
      }
      assert samples[..|samples|] == samples;
      return sum / |samples|;
    }
  }

  /** Pushing at the back and dropping one at the front keeps exactly the last `n`. */
  lemma SlideWindow<T>(all: seq<T>, x: T, n: nat)
    ensures var w := LastN(all, n) + [x];
      LastN(all + [x], n) == if |w| > n then w[1..] else w
  {
  }

  lemma MulSucc(a: int, n: nat)
    ensures a * (n + 1) == a * n + a
  {
  }

  lemma {:induction false} SumBounds(s: seq<nat>, lo: nat, hi: nat)
    requires forall i :: 0 <= i < |s| ==> lo <= s[i] <= hi
    ensures lo * |s| <= Sum(s) <= hi * |s|
  {
    if s == [] {
    } else {
      var n := |s| - 1;
      SumBounds(s[..n], lo, hi);
      MulSucc(lo, n);
      MulSucc(hi, n);
    }
  }

  lemma MulMonotone(a: int, b: int, n: nat)
    requires a <= b
    ensures a * n <= b * n
  {
  }

  lemma DivideBounds(x: nat, n: nat, lo: nat, hi: nat)
    requires n > 0 && lo * n <= x <= hi * n
    ensures lo <= x / n <= hi
  {
    var q := x / n;
    assert q * n <= x < (q + 1) * n;
    if q < lo {
      MulMonotone(q + 1, lo, n);
    }
    if q > hi {
      MulMonotone(hi + 1, q, n);
    }
  }

  lemma DivideFloors(x: nat, n: nat)
    requires n > 0
    ensures x / n * n <= x < x / n * n + n
  {
  }

  /** The reported speed never leaves the range of the rates it averages. */
  lemma MeanBounds(s: seq<nat>, lo: nat, hi: nat)
    requires s != [] && forall i :: 0 <= i < |s| ==> lo <= s[i] <= hi
    ensures lo <= Mean(s) <= hi
    ensures Mean(s) * |s| <= Sum(s) < Mean(s) * |s| + |s|
  {
    SumBounds(s, lo, hi);
    DivideBounds(Sum(s), |s|, lo, hi);
    DivideFloors(Sum(s), |s|);
  }

  lemma ScaleBound(q: real, elapsed: real)
    requires q >= 0.0 && elapsed >= 0.001
    ensures q * elapsed >= q * 0.001
  {
  }

  lemma RateBound(bytes: nat, elapsed: real)
    requires bytes <= 65536 && elapsed >= 0.001
    ensures Rate(bytes, elapsed) <= 65_536_000
  {
    var q := bytes as real / elapsed;
    assert q * elapsed == bytes as real;
    ScaleBound(q, elapsed);
  }

  lemma {:induction false} RatesBound(pushes: seq<(nat, real)>)
    requires forall i :: 0 <= i < |pushes| ==> pushes[i].0 <= 65536 && pushes[i].1 >= 0.001
    ensures forall i :: 0 <= i < |Rates(pushes)| ==> Rates(pushes)[i] <= 65_536_000
  {
    if pushes == [] {
    } else {
      var n := |pushes| - 1;
      RatesBound(pushes[..n]);
      RateBound(pushes[n].0, pushes[n].1);
    }
  }

  /** With the sender's chunk size and the clamped clock, the u64 sum over the window cannot overflow. */
  lemma WindowSumFits(pushes: seq<(nat, real)>)
    requires forall i :: 0 <= i < |pushes| ==> pushes[i].0 <= 65536 && pushes[i].1 >= 0.001
    ensures Sum(LastN(Rates(pushes), WINDOW)) <= 1_966_080_000 < U64_MAX
  {
    RatesBound(pushes);
    SumBounds(LastN(Rates(pushes), WINDOW), 0, 65_536_000);
  }
}
