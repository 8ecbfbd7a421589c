/**
 * The relative time shown under posts and community messages (`formatTime`,
 * written out identically in the communities page and in the post card) and
 * the nanosecond-to-millisecond conversion the event dates share with it.
 * The clock is a parameter: `now` is `Date.now()` in milliseconds.
 */
module TimeFormat {
  import opened Common
  import opened Text

  const NsPerMs: nat := 1_000_000
  const MinuteMs: nat := 60_000
  const HourMs: nat := 3_600_000
  const DayMs: nat := 86_400_000

  /** `ns / BigInt(1_000_000)`: `BigInt` division truncates toward zero. */
  function NsToMs(ns: int): (ms: int)
    ensures ns >= 0 ==> 0 <= ms && ms * NsPerMs <= ns < (ms + 1) * NsPerMs
    ensures ns < 0 ==> ms <= 0 && (ms - 1) * NsPerMs < ns <= ms * NsPerMs
  {
    if ns >= 0 then ns / NsPerMs else 0 - (0 - ns) / NsPerMs
  }

  /** A millisecond instant scaled up to nanoseconds converts back to itself, before 1970 too. */
  lemma MsRoundTrip(ms: int)
    ensures NsToMs(ms * NsPerMs) == ms
  {
    var r := NsToMs(ms * NsPerMs);
    if ms >= 0 {
      assert r * NsPerMs <= ms * NsPerMs < (r + 1) * NsPerMs;
    } else {
      assert (r - 1) * NsPerMs < ms * NsPerMs <= r * NsPerMs;
    }
  }

  /** What the label says: how long ago, in the largest unit that fits. */
  datatype Elapsed = JustNow | MinutesAgo(n: nat) | HoursAgo(n: nat) | DaysAgo(n: nat)

  /**
   * The bucket for `diff` milliseconds: under a minute (the future included)
   * is "just now"; otherwise the whole number of minutes below an hour, of
   * hours below a day, else of days.
   */
  function ElapsedSince(diff: int): (e: Elapsed)
    ensures e.JustNow? <==> diff < MinuteMs
    ensures e.MinutesAgo? <==> MinuteMs <= diff < HourMs
    ensures e.HoursAgo? <==> HourMs <= diff < DayMs
    ensures e.DaysAgo? <==> DayMs <= diff
    ensures e.MinutesAgo? ==> 1 <= e.n <= 59 && e.n * MinuteMs <= diff < (e.n + 1) * MinuteMs
    ensures e.HoursAgo? ==> 1 <= e.n <= 23 && e.n * HourMs <= diff < (e.n + 1) * HourMs
    ensures e.DaysAgo? ==> 1 <= e.n && e.n * DayMs <= diff < (e.n + 1) * DayMs
  {
    if diff < MinuteMs then JustNow
    else if diff < HourMs then MinutesAgo(diff / MinuteMs)
    else if diff < DayMs then HoursAgo(diff / HourMs)
    else DaysAgo(diff / DayMs)
  }

  /** The position of a bucket in the order time passes. */
  function Rank(e: Elapsed): nat {
    match e
    case JustNow => 0
    case MinutesAgo(_) => 1
    case HoursAgo(_) => 2
    case DaysAgo(_) => 3
  }

  /** Label `a` reads as no later than `b`: an earlier bucket, or the same bucket with no larger count. */
  predicate NoLater(a: Elapsed, b: Elapsed) {
    Rank(a) < Rank(b) || (Rank(a) == Rank(b) && (a.JustNow? || a.n <= b.n))
  }

  /** As the clock moves forward the label of a fixed message never goes back. */
  lemma ElapsedMonotone(d1: int, d2: int)
    requires d1 <= d2
    ensures NoLater(ElapsedSince(d1), ElapsedSince(d2))
  {
    var a, b := ElapsedSince(d1), ElapsedSince(d2);
    if a.MinutesAgo? && b.MinutesAgo? {
      assert a.n * MinuteMs < (b.n + 1) * MinuteMs;
    } else if a.HoursAgo? && b.HoursAgo? {
      assert a.n * HourMs < (b.n + 1) * HourMs;
    } else if a.DaysAgo? && b.DaysAgo? {
      assert a.n * DayMs < (b.n + 1) * DayMs;
    }
  }

  /** The text of a label: "just now", "`n`m ago", "`n`h ago" or "`n`d ago". */
  function Label(e: Elapsed): string {
    match e
    case JustNow => "just now"
    case MinutesAgo(n) => NatToDecimal(n) + "m ago"
    case HoursAgo(n) => NatToDecimal(n) + "h ago"
    case DaysAgo(n) => NatToDecimal(n) + "d ago"
  }

  /** Reads a label back. */
  function ParseLabel(s: string): (r: Option<Elapsed>)
    ensures r.Some? && !r.value.JustNow? ==> |s| >= 5 && IsDigits(s[..|s| - 5])
  {
    if s == "just now" then Some(JustNow)
    else if |s| < 5 then None
    else
      var count, unit := ParseBigInt(s[..|s| - 5]), s[|s| - 5..];
      if count.None? then None
      else if unit == "m ago" then Some(MinutesAgo(count.value))
      else if unit == "h ago" then Some(HoursAgo(count.value))
      else if unit == "d ago" then Some(DaysAgo(count.value))
      else None
  }

  /** Every label reads back to its bucket and count, so different buckets or counts never share a text. */
  lemma LabelRoundTrip(e: Elapsed)
    ensures ParseLabel(Label(e)) == Some(e)
  {
    if !e.JustNow? {
      var digits := NatToDecimal(e.n);
      var s := Label(e);
      assert s[..|s| - 5] == digits;
      ParseBigIntOfToString(e.n);
      assert s != "just now" by {
        assert IsDigit(s[0]);
      }
    }
  }

  /** `formatTime(timestamp)` at clock reading `now`. */
  function FormatTime(timestamp: int, now: int): (s: string)
    ensures s == Label(ElapsedSince(now - NsToMs(timestamp)))
    ensures ParseLabel(s) == Some(ElapsedSince(now - NsToMs(timestamp)))
  {
    LabelRoundTrip(ElapsedSince(now - NsToMs(timestamp)));
    Label(ElapsedSince(now - NsToMs(timestamp)))
  }

  /** A timestamp at or after the current instant reads "just now". */
  lemma FutureIsJustNow(timestamp: int, now: int)
    requires timestamp >= now * NsPerMs
    ensures FormatTime(timestamp, now) == "just now"
  {
    var ms := NsToMs(timestamp);
    if timestamp >= 0 {
      assert now * NsPerMs < (ms + 1) * NsPerMs;
    } else {
      assert now * NsPerMs <= timestamp <= ms * NsPerMs;
    }
    assert now - ms < MinuteMs;
  }
}
