/** Staging evidence: the observation window, its calendar days and the daily samples. */
module Readiness {
  import opened Basics
  import opened Sequences

  const MIN_WINDOW: int := 1_209_600_000_000
  const MIN_REQUESTS: int := 1000
  const DAY_LENGTH: int := 86_400_000_000

  /** Instants and days may lie before 1970; Dafny's division rounds down here. */
  function DayOf(t: int): int {
    t / DAY_LENGTH
  }

  /** A daily sample; `None` is a date that is not written as YYYY-MM-DD or a count that is no integer. */
  datatype Sample = Sample(day: Option<int>, count: Option<int>)

  datatype Evidence = Evidence(start: int, end: int, declared: int, requests: int, sampled: int, samples: seq<Sample>)

  predicate Touches(start: int, end: int, day: int) {
    DayOf(start) <= day && end > start && day <= DayOf(end - 1)
  }

  /** The day loop: exactly the calendar days with an instant in the window, in order. */
  method ExpectedDays(start: int, end: int) returns (days: seq<int>)
    requires start < end
    ensures |days| == DayOf(end - 1) - DayOf(start) + 1
    ensures forall i | 0 <= i < |days| :: days[i] == DayOf(start) + i
  {
    days := [];
    var day := DayOf(start);
    DaysAscend(start, end - 1);
    while day <= DayOf(end - 1)
      invariant DayOf(start) <= day <= DayOf(end - 1) + 1
      invariant |days| == day - DayOf(start)
      invariant forall i | 0 <= i < |days| :: days[i] == DayOf(start) + i
    {
      days := days + [day];
      day := day + 1;
    }
  }

  lemma DaysAscend(s: int, t: int)
    requires s <= t
    ensures DayOf(s) <= DayOf(t)
  {
  }

  /** The consecutive days from one to another are those that contain an instant of the window. */
  lemma DaysAreCalendarDays(start: int, end: int, day: int)
    requires start < end
    ensures Touches(start, end, day) <==> exists t :: start <= t < end && DayOf(t) == day
  {
    if Touches(start, end, day) {
      var t := if day == DayOf(start) then start else day * DAY_LENGTH;
      assert DayOf(day * DAY_LENGTH) == day;
      if day > DayOf(start) {
        if day * DAY_LENGTH >= end {
          DaysAscend(end - 1, day * DAY_LENGTH - 1);
        }
        if day * DAY_LENGTH < start {
          DaysAscend(day * DAY_LENGTH, start);
        }
      }
      assert start <= t < end && DayOf(t) == day;
    } else if t :| start <= t < end && DayOf(t) == day {
      DaysAscend(start, t);
      DaysAscend(t, end - 1);
    }
  }

  function Count(): Sample -> int {
    (s: Sample) => if s.count.Some? then s.count.value else 0
  }

  /** The samples are one per day of the window, in order, each with a positive count. */
  predicate Covers(e: Evidence) {
    && e.start < e.end && |e.samples| == DayOf(e.end - 1) - DayOf(e.start) + 1
    && forall i | 0 <= i < |e.samples| ::
         e.samples[i].day == Some(DayOf(e.start) + i) && e.samples[i].count.Some? && e.samples[i].count.value > 0
  }

  predicate Acceptable(e: Evidence, now: int) {
    && e.start <= now && e.end <= now && e.declared <= e.start && e.end - e.start >= MIN_WINDOW
    && e.requests == e.sampled >= MIN_REQUESTS && Covers(e) && Sum(e.samples, Count()) == e.sampled
  }

  /** The window and sample checks accept exactly the acceptable evidence. */
  method EvaluateSamples(e: Evidence, now: int) returns (ok: bool)
    ensures ok <==> Acceptable(e, now)
  {
    if e.start > now || e.end > now || e.declared > now {
      return false;
    }
    if e.end <= e.start || e.end - e.start < MIN_WINDOW || e.declared > e.start {
      return false;
    }
    if e.requests < MIN_REQUESTS || e.sampled < MIN_REQUESTS || e.requests != e.sampled {
      return false;
    }
    var expected := ExpectedDays(e.start, e.end);
    var observed, total := [], 0;
    for i := 0 to |e.samples|
      invariant |observed| == i && total == Sum(e.samples[..i], Count())
      invariant forall k | 0 <= k < i ::
        e.samples[k].day == Some(observed[k]) && e.samples[k].count.Some? && e.samples[k].count.value > 0
    {
      assert e.samples[..i + 1][..i] == e.samples[..i];
      var sample := e.samples[i];
      if sample.day.None? || sample.count.None? || sample.count.value <= 0 {
        return false;
      }
      observed := observed + [sample.day.value];
      total := total + sample.count.value;
    }
    assert e.samples[..|e.samples|] == e.samples;
    ok := observed == expected && total == e.sampled;
    assert Covers(e) ==> observed == expected;
  }

  /** Accepted evidence has at least fourteen consecutive days without a gap, each with a positive
      count, adding up to at least a thousand requests. */
  lemma AcceptanceMeans(e: Evidence, now: int)
    requires Acceptable(e, now)
    ensures |e.samples| >= 14 && Sum(e.samples, Count()) == e.requests == e.sampled && e.requests >= 1000
    ensures e.declared <= e.start && e.start + 14 * 86_400_000_000 <= e.end <= now
    ensures forall i | 0 <= i < |e.samples| :: e.samples[i].count.value > 0 && e.samples[i].day == Some(DayOf(e.start) + i)
  {
    FourteenDays(e.start, e.end);
  }

  /** Every instant of the window falls on a sampled day, and every sampled day has one. */
  lemma EveryInstantSampled(e: Evidence, now: int, day: int)
    requires Acceptable(e, now)
    ensures (exists t :: e.start <= t < e.end && DayOf(t) == day) <==> exists s | s in e.samples :: s.day == Some(day)
  {
    DaysAreCalendarDays(e.start, e.end, day);
    if Touches(e.start, e.end, day) {
      assert e.samples[day - DayOf(e.start)] in e.samples;
    }
  }

  lemma FourteenDays(start: int, end: int)
    requires end - start >= MIN_WINDOW
    ensures DayOf(end - 1) - DayOf(start) + 1 >= 14
  {
  }
}
