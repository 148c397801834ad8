/** Bucket arithmetic of data_feed/candle_aggregator.py: N-minute buckets anchored at the
    09:15 session open of each day.
 */
module Buckets {

  const MINUTE: int := 60_000_000
  const DAY: int := 1440 * MINUTE
  const SESSION_START_MINUTES: int := 9 * 60 + 15
  const SESSION_START: int := SESSION_START_MINUTES * MINUTE

  function Midnight(t: int): int { t - t % DAY }

  function BucketStart(t: int, n: int): int
    requires n >= 1
  {
    var offset := t - Midnight(t) - SESSION_START;
    var index := offset / (n * MINUTE);
    Midnight(t) + SESSION_START + index * (n * MINUTE)
  }

  /** The naive bucketing the source replaced. */
  function MidnightAnchoredStart(t: int, n: int): int
    requires n >= 1
  {
    Midnight(t) + (t - Midnight(t)) / (n * MINUTE) * (n * MINUTE)
  }

  /** `s` is a session-anchored boundary of the day of `t` and its bucket holds `t`. */
  predicate IsBucketOf(s: int, t: int, n: int)
    requires n >= 1
  {
    && s <= t < s + n * MINUTE
    && (s - (t - t % DAY) - 555 * MINUTE) % (n * MINUTE) == 0
  }

  // ---------------------------------------------------------------- floor arithmetic

  lemma MulMonotone(a: int, b: int, w: int)
    requires w >= 0 && a <= b
    ensures a * w <= b * w
  {
  }

  lemma DivLower(x: int, k: int, w: int)
    requires w > 0 && k * w <= x
    ensures k <= x / w
  {
    if k > x / w {
      MulMonotone(x / w + 1, k, w);
      assert false;
    }
  }

  lemma DivUpper(x: int, k: int, w: int)
    requires w > 0 && x < k * w + w
    ensures x / w <= k
  {
    if x / w > k {
      MulMonotone(k + 1, x / w, w);
      assert false;
    }
  }

  lemma FloorMonotone(x: int, y: int, w: int)
    requires w > 0 && x <= y
    ensures x / w <= y / w
    ensures x / w * w <= y / w * w
  {
    DivLower(y, x / w, w);
    MulMonotone(x / w, y / w, w);
  }

  lemma UniqueFloor(x: int, k: int, w: int)
    requires w > 0 && k * w <= x < k * w + w
    ensures x / w == k && x % w == x - k * w
  {
    DivLower(x, k, w);
    DivUpper(x, k, w);
  }

  lemma ScaledMod(x: int, n: int, m: int)
    requires n > 0 && m > 0
    ensures (x * m) % (n * m) == m * (x % n)
  {
    var q, r := x / n, x % n;
    assert x * m == q * (n * m) + r * m by { assert x == q * n + r; }
    MulMonotone(0, r, m);
    MulMonotone(r + 1, n, m);
    UniqueFloor(x * m, q, n * m);
  }

  lemma SplitDay(d: int, r: int)
    requires 0 <= r < DAY
    ensures Midnight(d * DAY + r) == d * DAY
  {
    UniqueFloor(d * DAY + r, d, DAY);
  }

  // ---------------------------------------------------------------- what a bucket is

  /** The bucket start is the one session-anchored boundary whose window holds `t`. */
  lemma BucketCharacterised(t: int, n: int, s: int)
    requires n >= 1
    ensures IsBucketOf(s, t, n) <==> s == BucketStart(t, n)
  {
    var w := n * MINUTE;
    var anchor := Midnight(t) + SESSION_START;
    var k := (t - anchor) / w;
    assert t - anchor == k * w + (t - anchor) % w;
    UniqueFloor(k * w, k, w);
    if IsBucketOf(s, t, n) {
      var j := (s - anchor) / w;
      assert s - anchor == j * w;
      UniqueFloor(t - anchor, j, w);
    }
  }

  lemma AnchoringIsNoOp(t: int, n: int)
    requires n >= 1 && SESSION_START_MINUTES % n == 0
    ensures BucketStart(t, n) == MidnightAnchoredStart(t, n)
  {
    var w := n * MINUTE;
    var k := SESSION_START_MINUTES / n;
    assert SESSION_START == k * w by { assert k * n == SESSION_START_MINUTES; }
    var x := t - Midnight(t);
    var q := (x - SESSION_START) / w;
    assert q * w <= x - k * w < q * w + w;
    assert (q + k) * w == q * w + k * w;
    UniqueFloor(x, q + k, w);
  }

  lemma AnchoringMatters(n: int)
    requires n >= 1 && SESSION_START_MINUTES % n != 0
    ensures BucketStart(SESSION_START, n) != MidnightAnchoredStart(SESSION_START, n)
  {
    SplitDay(0, SESSION_START);
    UniqueFloor(0, 0, n * MINUTE);
    ScaledMod(SESSION_START_MINUTES, n, MINUTE);
    var w := n * MINUTE;
    assert SESSION_START / w * w == SESSION_START - SESSION_START % w;
  }

  /** Anchoring at the session open changes nothing exactly when N divides 555. */
  lemma AnchoringIsNoOpIff(n: int)
    requires n >= 1
    ensures (forall t :: BucketStart(t, n) == MidnightAnchoredStart(t, n))
       <==> 555 % n == 0
  {
    if SESSION_START_MINUTES % n == 0 {
      forall t ensures BucketStart(t, n) == MidnightAnchoredStart(t, n) {
        AnchoringIsNoOp(t, n);
      }
    } else {
      AnchoringMatters(n);
    }
  }

  // ---------------------------------------------------------------- monotonicity

  lemma MonotoneWithinDay(a: int, b: int, n: int)
    requires n >= 1 && a <= b && Midnight(a) == Midnight(b)
    ensures BucketStart(a, n) <= BucketStart(b, n)
  {
    var base := Midnight(a) + SESSION_START;
    FloorMonotone(a - base, b - base, n * MINUTE);
  }

  /** The last bucket of a day does not start after the first bucket of the next. */
  predicate SeamOk(n: int)
    requires n >= 1
  {
    (-885) % n + (-555) % n <= n
  }

  lemma LastBucketOfDay(d: int, n: int)
    requires n >= 1
    ensures BucketStart(d * DAY + DAY - 1, n) == d * DAY + DAY - n * MINUTE + MINUTE * ((-885) % n)
  {
    var w := n * MINUTE;
    SplitDay(d, DAY - 1);
    assert d * DAY + (DAY - 1) == d * DAY + DAY - 1;
    var x := 885 * MINUTE;
    ScaledMod(-885, n, MINUTE);
    var r := (-x) % w;
    var q := (-x) / w;
    assert -x == q * w + r;
    assert (-q - 1) * w == -(q * w) - w;
    UniqueFloor(x - 1, -q - 1, w);
    assert (x - 1) / w * w == x + r - w;
  }

  lemma FirstBucketOfDay(d: int, n: int)
    requires n >= 1
    ensures BucketStart(d * DAY, n) == d * DAY - MINUTE * ((-555) % n)
  {
    SplitDay(d, 0);
    ScaledMod(-555, n, MINUTE);
    assert (-SESSION_START) / (n * MINUTE) * (n * MINUTE)
        == -SESSION_START - (-SESSION_START) % (n * MINUTE);
  }

  lemma MonotoneAcrossDays(a: int, b: int, n: int)
    requires n >= 1 && SeamOk(n) && a <= b
    ensures BucketStart(a, n) <= BucketStart(b, n)
  {
    var da, db := a / DAY, b / DAY;
    assert a == da * DAY + a % DAY && b == db * DAY + b % DAY;
    FloorMonotone(a, b, DAY);
    if da == db {
      MonotoneWithinDay(a, b, n);
    } else {
      var endA := da * DAY + DAY - 1;
      SplitDay(da, DAY - 1);
      SplitDay(db, 0);
      MonotoneWithinDay(a, endA, n);
      MonotoneWithinDay(db * DAY, b, n);
      LastBucketOfDay(da, n);
      FirstBucketOfDay(db, n);
      assert (da + 1) * DAY <= db * DAY;
    }
  }

  /** Bucketing preserves time order exactly for the lengths that satisfy `SeamOk`. */
  lemma MonotoneIffSeamOk(n: int)
    requires n >= 1
    ensures (forall a, b | a <= b :: BucketStart(a, n) <= BucketStart(b, n)) <==> SeamOk(n)
  {
    if SeamOk(n) {
      forall a, b | a <= b ensures BucketStart(a, n) <= BucketStart(b, n) {
        MonotoneAcrossDays(a, b, n);
      }
    } else {
      LastBucketOfDay(0, n);
      FirstBucketOfDay(1, n);
      assert BucketStart(DAY - 1, n) > BucketStart(DAY, n);
    }
  }

  /** The configured timeframes are order preserving; seven minutes would not be. */
  lemma ConfiguredTimeframes()
    ensures SeamOk(3) && SeamOk(5) && SeamOk(15) && SeamOk(75)
    ensures !SeamOk(7)
    ensures exists a, b :: a <= b && BucketStart(a, 7) > BucketStart(b, 7)
  {
    MonotoneIffSeamOk(7);
  }

  // ---------------------------------------------------------------- nesting

  /** When N divides 15 every bucket lies within one day. */
  lemma BucketStaysInDay(t: int, n: int)
    requires n >= 1 && 15 % n == 0
    ensures Midnight(BucketStart(t, n)) == Midnight(t)
  {
    var w, f := n * MINUTE, 15 / n;
    assert SESSION_START == (37 * f) * w by { assert n * f == 15; }
    var k := (t - Midnight(t) - SESSION_START) / w;
    var j := k + 37 * f;
    assert j * w == k * w + (37 * f) * w;
    BucketCharacterised(t, n, BucketStart(t, n));
    if j < 0 {
      MulMonotone(j + 1, 0, w);
      assert false;
    }
    MulMonotone(0, j, w);
    assert t == t / DAY * DAY + t % DAY;
    SplitDay(t / DAY, j * w);
  }

  /** A multiple of `g * w` at or below `x` is also at or below the `w`-floor of `x`. */
  lemma FloorInFloor(x: int, g: int, w: int)
    requires g >= 1 && w > 0 && g * w > 0
    ensures x / w * w / (g * w) == x / (g * w)
  {
    var u := g * w;
    var q := x / u;
    assert q * u == (q * g) * w;
    DivLower(x, q * g, w);
    MulMonotone(q * g, x / w, w);
    UniqueFloor(x / w * w, q, u);
  }

  /** Buckets nest: when N divides both 15 and M, bucketing by N first loses nothing. */
  lemma BucketsNest(t: int, n: int, m: int)
    requires n >= 1 && m >= 1 && 15 % n == 0 && m % n == 0
    ensures BucketStart(BucketStart(t, n), m) == BucketStart(t, m)
  {
    BucketStaysInDay(t, n);
    var w, g := n * MINUTE, m / n;
    assert m == g * n;
    assert m * MINUTE == g * w;
    FloorInFloor(t - Midnight(t) - SESSION_START, g, w);
  }
}
