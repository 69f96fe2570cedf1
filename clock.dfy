/** Wall-clock arithmetic of the 5-minute schedule.

    An instant is an integer number of microseconds on a timeline whose origin
    lies on an hour boundary (a UTC epoch, no leap seconds), so the minute of the
    hour, the second of the minute and the microsecond of the second of a Python
    `datetime` are fixed digits of that number. */
module Clock {

  const MicrosPerSecond: int := 1_000_000
  const MicrosPerMinute: int := 60 * MicrosPerSecond

  /** `timedelta(minutes=5)`: the averaging window and the boundary spacing. */
  const Window: int := 5 * MicrosPerMinute

  function Microsecond(t: int): int { t % MicrosPerSecond }
  function Second(t: int): int { (t / MicrosPerSecond) % 60 }
  function Minute(t: int): int { (t / MicrosPerMinute) % 60 }

  /** A boundary: the minute is a multiple of 5, seconds and microseconds are 0. */
  predicate IsBoundary(t: int)
  {
    Minute(t) % 5 == 0 && Second(t) == 0 && Microsecond(t) == 0
  }

  /** `t.replace(minute=t.minute - t.minute % 5, second=0, microsecond=0)`. */
  function FloorToBoundary(t: int): (r: int)
    ensures IsBoundary(r)
    ensures r <= t < r + Window
  {
    FloorIsModulo(t);
    FloorIsBoundary(t);
    t - (Minute(t) % 5) * MicrosPerMinute - Second(t) * MicrosPerSecond - Microsecond(t)
  }

  /** Startup of the averaging variants: the floored instant plus 5 minutes. */
  function NextBoundary(t: int): (r: int)
    ensures IsBoundary(r)
    ensures t < r <= t + Window
  {
    BoundaryShift(FloorToBoundary(t), 1);
    FloorToBoundary(t) + Window
  }

  /** The sleep before a boundary: `boundary - now` when positive, else none. */
  function Wait(boundary: int, now: int): (w: int)
    ensures w >= 0
    ensures w == 0 <==> boundary <= now
    ensures w > 0 ==> now + w == boundary
  {
    if boundary - now > 0 then boundary - now else 0
  }

  /** The k-th boundary after `start`, each one 5 minutes after the previous. */
  function BoundaryAfter(start: int, k: nat): (r: int)
    ensures IsBoundary(start) ==> IsBoundary(r)
    ensures start <= r && (k > 0 <==> start < r)
  {
    BoundaryShift(start, k);
    start + k * Window
  }

  /** Each further window moves the stamp on by exactly 5 minutes. */
  lemma BoundaryAfterStep(start: int, k: nat)
    ensures BoundaryAfter(start, k + 1) == BoundaryAfter(start, k) + Window
  {
  }

  // ---------------------------------------------------------------------------
  // Arithmetic behind the definitions above.

  /** Flooring the minute digit and zeroing the lower digits is the same as
      dropping the remainder modulo 5 minutes. */
  lemma FloorIsModulo(t: int)
    ensures t - (Minute(t) % 5) * MicrosPerMinute - Second(t) * MicrosPerSecond - Microsecond(t)
            == t - t % Window
    ensures 0 <= t % Window < Window
  {
    var s := t / MicrosPerSecond;
    var m := s / 60;
    assert t == s * MicrosPerSecond + Microsecond(t);
    assert s == m * 60 + Second(t);
    assert m == t / MicrosPerMinute by { DivDiv(t, MicrosPerSecond, 60); }
    assert Minute(t) % 5 == m % 5 by { ModMod(m, 5, 12); }
    assert m == (m / 5) * 5 + m % 5;
    assert m / 5 == t / Window by { DivDiv(t, MicrosPerMinute, 5); }
    assert t == (t / Window) * Window + t % Window;
  }

  /** A boundary is exactly a multiple of the window length. */
  lemma BoundaryIsMultiple(t: int)
    ensures IsBoundary(t) <==> t % Window == 0
  {
    FloorIsModulo(t);
    var m := t / MicrosPerMinute;
    DivDiv(t, MicrosPerSecond, 60);
    ModMod(m, 5, 12);
    if t % Window == 0 {
      assert t == (t / Window) * Window;
      DivDiv(t, MicrosPerMinute, 5);
      assert m == (t / Window) * 5 + m % 5;
    }
  }

  lemma BoundaryShift(t: int, k: int)
    ensures IsBoundary(t) ==> IsBoundary(t + k * Window)
  {
    BoundaryIsMultiple(t);
    BoundaryIsMultiple(t + k * Window);
    if t % Window == 0 {
      assert t == (t / Window) * Window;
      assert t + k * Window == (t / Window + k) * Window;
      ModOfMultiple(t / Window + k, Window);
    }
  }

  lemma FloorIsBoundary(t: int)
    ensures IsBoundary(t - t % Window)
  {
    assert t - t % Window == (t / Window) * Window;
    ModOfMultiple(t / Window, Window);
    BoundaryIsMultiple(t - t % Window);
  }

  lemma ModOfMultiple(q: int, d: int)
    requires d > 0
    ensures (q * d) % d == 0
  {
    DivUnique(q * d, d, q, 0);
  }

  lemma DivDiv(x: int, a: int, b: int)
    requires a > 0 && b > 0
    ensures x / a / b == x / (a * b)
  {
    var q := x / a / b;
    var r := (x / a) % b;
    assert x / a == q * b + r;
    assert x == (q * b + r) * a + x % a;
    assert x == q * (a * b) + (r * a + x % a);
    assert 0 <= r * a + x % a < a * b by {
      assert r * a <= (b - 1) * a;
    }
    DivUnique(x, a * b, q, r * a + x % a);
  }

  lemma DivUnique(x: int, d: int, q: int, r: int)
    requires d > 0 && 0 <= r < d && x == q * d + r
    ensures x / d == q && x % d == r
  {
    var q' := x / d;
    var r' := x % d;
    assert x == q' * d + r';
    assert (q - q') * d == q * d - q' * d;
    assert (q' - q) * d == q' * d - q * d;
    MulAtLeast(q - q', d);
    MulAtLeast(q' - q, d);
  }

  lemma MulAtLeast(k: int, d: int)
    requires d > 0
    ensures k >= 1 ==> k * d >= d
  {
    assert k * d == (k - 1) * d + d;
  }

  lemma ModMod(m: int, a: int, b: int)
    requires a > 0 && b > 0
    ensures (m % (a * b)) % a == m % a
  {
    var q := m / (a * b);
    var r := m % (a * b);
    assert m == q * (a * b) + r;
    assert m == (q * b + r / a) * a + r % a;
    DivUnique(m, a, q * b + r / a, r % a);
  }

  /** Startup at 10:02:17 schedules the first window for 10:05:00, and at
      10:07:40 the next boundary is still 10:10:00, never 10:12:40. */
  lemma ExampleSchedule()
    ensures NextBoundary((10 * 60 + 2) * MicrosPerMinute + 17 * MicrosPerSecond)
            == (10 * 60 + 5) * MicrosPerMinute
    ensures BoundaryAfter((10 * 60 + 5) * MicrosPerMinute, 1) == (10 * 60 + 10) * MicrosPerMinute
  {
  }
}
