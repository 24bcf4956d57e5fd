/** Eager materialisation of a recurring event: one base event becomes the base
    followed by dated copies, each `frequency` days, weeks or months after the
    previous one, until the inclusive end date is passed or the occurrence cap
    (`endAfterOccurrences`, or 50 when that is absent or zero) is reached. */
module Recurrence {
  import opened CalendarTypes
  import opened Sequences

  /** date-fns `addMonths` (with its end-of-month clamping), supplied by the caller. */
  type MonthAdder = (Date, int) -> Date

  function AddDays(d: Date, n: int): Date { d + n }

  function AddWeeks(d: Date, n: int): Date { d + 7 * n }

  /** The cap used when `endAfterOccurrences` is absent or zero. */
  const DefaultOccurrenceCap := 50

  /** `endAfterOccurrences || 50`: the number of occurrences, base included,
      that the generator may produce at most. */
  function OccurrenceCap(p: RecurrencePattern): int {
    match p.endAfterOccurrences
    case None => DefaultOccurrenceCap
    case Some(n) => if n == 0 then DefaultOccurrenceCap else n
  }

  function Max(a: int, b: int): int { if a < b then b else a }

  /** One step of the generator's `switch`; `custom` has no step. */
  function Advance(t: RecType, d: Date, f: int, addMonths: MonthAdder): Date
    requires t != Custom
  {
    match t
    case Daily => AddDays(d, f)
    case Weekly => AddWeeks(d, f)
    case Monthly => addMonths(d, f)
  }

  /** The date of occurrence `k`, counting the base as occurrence 0: each date
      is computed from the previous one (so monthly clamping accumulates). */
  function NthDate(p: RecurrencePattern, start: Date, k: nat, addMonths: MonthAdder): Date
    requires p.recType != Custom
  {
    if k == 0 then start else Advance(p.recType, NthDate(p, start, k - 1, addMonths), p.frequency, addMonths)
  }

  /** `endDate && isAfter(currentDate, endDate)`. */
  predicate PastEnd(p: RecurrencePattern, d: Date) {
    p.endDate.Some? && d > p.endDate.value
  }

  /** How many copies, from occurrence `k` on, come before the cap is reached or
      a date passes the end date. */
  function CopiesFrom(p: RecurrencePattern, start: Date, addMonths: MonthAdder, k: nat): nat
    requires p.recType != Custom
    decreases OccurrenceCap(p) - k
  {
    if k >= OccurrenceCap(p) || PastEnd(p, NthDate(p, start, k, addMonths)) then 0
    else 1 + CopiesFrom(p, start, addMonths, k + 1)
  }

  function CopyCount(p: RecurrencePattern, start: Date, addMonths: MonthAdder): nat
    requires p.recType != Custom
  {
    CopiesFrom(p, start, addMonths, 1)
  }

  /** The id of copy `k`: the template literal `${id}-${k}`. */
  function CopyId(baseId: string, k: nat): string {
    baseId + "-" + DecimalString(k)
  }

  /** Copy `k` of `e`, dated `d`: the spread `{...event, id, startDate, endDate, parentEventId}`. */
  function Copy(e: Event, k: nat, d: Date): Event {
    e.(id := CopyId(e.id, k), startDate := d, endDate := d, parentEventId := Some(e.id))
  }

  /** The generator produces copies only for a recurring event with a pattern whose
      type is daily, weekly or monthly. */
  predicate Expands(e: Event) {
    e.isRecurring && e.recurrence.Some? && e.recurrence.value.recType != Custom
  }

  /** The first `n` copies of `e`. */
  function Copies(e: Event, n: nat, addMonths: MonthAdder): (r: seq<Event>)
    requires Expands(e)
  {
    seq(n, i requires 0 <= i < n => Copy(e, i + 1, NthDate(e.recurrence.value, e.startDate, i + 1, addMonths)))
  }

  /** What `generateRecurringEvents` returns for `e`. */
  function Series(e: Event, addMonths: MonthAdder): (r: seq<Event>)
    ensures |r| >= 1 && r[0] == e
    ensures !e.isRecurring || e.recurrence.None? || e.recurrence.value.recType == Custom ==> r == [e]
    ensures forall k :: 1 <= k < |r| ==> r[k] == Copy(e, k, r[k].startDate)
  {
    if Expands(e) then [e] + Copies(e, CopyCount(e.recurrence.value, e.startDate, addMonths), addMonths)
    else [e]
  }

  lemma CopiesSnoc(e: Event, n: nat, d: Date, addMonths: MonthAdder)
    requires Expands(e)
    requires d == NthDate(e.recurrence.value, e.startDate, n + 1, addMonths)
    ensures Copies(e, n + 1, addMonths) == Copies(e, n, addMonths) + [Copy(e, n + 1, d)]
  {
  }

  /** `generateRecurringEvents`: the loop of the source, proved to compute `Series`. */
  method GenerateRecurringEvents(event: Event, addMonths: MonthAdder) returns (recurringEvents: seq<Event>)
    ensures recurringEvents == Series(event, addMonths)
  {
    if !event.isRecurring || event.recurrence.None? {
      return [event];
    }
    recurringEvents := [event];
    var pattern := event.recurrence.value;
    var currentDate := event.startDate;
    var occurrenceCount := 1;
    while occurrenceCount < OccurrenceCap(pattern)
      invariant 1 <= occurrenceCount
      invariant pattern.recType == Custom ==> recurringEvents == [event]
      invariant pattern.recType != Custom ==>
        && currentDate == NthDate(pattern, event.startDate, occurrenceCount - 1, addMonths)
        && recurringEvents == [event] + Copies(event, occurrenceCount - 1, addMonths)
        && CopyCount(pattern, event.startDate, addMonths)
           == occurrenceCount - 1 + CopiesFrom(pattern, event.startDate, addMonths, occurrenceCount)
    {
      match pattern.recType {
        case Daily => currentDate := AddDays(currentDate, pattern.frequency);
        case Weekly => currentDate := AddWeeks(currentDate, pattern.frequency);
        case Monthly => currentDate := addMonths(currentDate, pattern.frequency);
        case Custom => return recurringEvents;
      }

      if pattern.endDate.Some? && currentDate > pattern.endDate.value {
        break;
      }

      var recurringEvent := event.(
        id := event.id + "-" + DecimalString(occurrenceCount),
        startDate := currentDate,
        endDate := currentDate,
        parentEventId := Some(event.id));
      CopiesSnoc(event, occurrenceCount - 1, currentDate, addMonths);
      recurringEvents := recurringEvents + [recurringEvent];
      occurrenceCount := occurrenceCount + 1;
    }
  }

  // ---------------------------------------------------------------------------
  // Properties of the series

  lemma {:induction false} CopiesFromBound(p: RecurrencePattern, start: Date, addMonths: MonthAdder, k: nat)
    requires p.recType != Custom
    ensures CopiesFrom(p, start, addMonths, k) <= Max(0, OccurrenceCap(p) - k)
    decreases OccurrenceCap(p) - k
  {
    if k < OccurrenceCap(p) && !PastEnd(p, NthDate(p, start, k, addMonths)) {
      CopiesFromBound(p, start, addMonths, k + 1);
    }
  }

  /** The generator never returns more than `max(1, endAfterOccurrences || 50)` events. */
  lemma SeriesLength(e: Event, addMonths: MonthAdder)
    requires e.recurrence.Some?
    ensures |Series(e, addMonths)| <= Max(1, OccurrenceCap(e.recurrence.value))
  {
    if Expands(e) {
      CopiesFromBound(e.recurrence.value, e.startDate, addMonths, 1);
    }
  }

  lemma {:induction false} CopiesFromWithoutEnd(p: RecurrencePattern, start: Date, addMonths: MonthAdder, k: nat)
    requires p.recType != Custom && p.endDate.None?
    ensures CopiesFrom(p, start, addMonths, k) == Max(0, OccurrenceCap(p) - k)
    decreases OccurrenceCap(p) - k
  {
    if k < OccurrenceCap(p) {
      CopiesFromWithoutEnd(p, start, addMonths, k + 1);
    }
  }

  /** Without an end date a daily, weekly or monthly series has exactly
      `endAfterOccurrences || 50` events (one when that number is below one). */
  lemma SeriesLengthWithoutEndDate(e: Event, addMonths: MonthAdder)
    requires Expands(e) && e.recurrence.value.endDate.None?
    ensures |Series(e, addMonths)| == Max(1, OccurrenceCap(e.recurrence.value))
  {
    CopiesFromWithoutEnd(e.recurrence.value, e.startDate, addMonths, 1);
  }

  /** Occurrence `k` is produced: it is below the cap and not past the end date. */
  predicate Produced(p: RecurrencePattern, start: Date, addMonths: MonthAdder, k: nat)
    requires p.recType != Custom
  {
    k < OccurrenceCap(p) && !PastEnd(p, NthDate(p, start, k, addMonths))
  }

  lemma {:induction false} CopiesFromStops(p: RecurrencePattern, start: Date, addMonths: MonthAdder, k: nat)
    requires p.recType != Custom
    ensures forall j: nat :: k <= j < k + CopiesFrom(p, start, addMonths, k) ==> Produced(p, start, addMonths, j)
    ensures !Produced(p, start, addMonths, k + CopiesFrom(p, start, addMonths, k))
    decreases OccurrenceCap(p) - k
  {
    if Produced(p, start, addMonths, k) {
      CopiesFromStops(p, start, addMonths, k + 1);
    }
  }

  /** With an end date, no copy is dated after it; and when the series is shorter
      than the cap, the next date in the pattern is past the end date: generation
      stops at the first date past it. */
  lemma SeriesRespectsEndDate(e: Event, addMonths: MonthAdder)
    requires Expands(e)
    ensures var p, r := e.recurrence.value, Series(e, addMonths);
      && (p.endDate.Some? ==> forall k :: 1 <= k < |r| ==> r[k].startDate <= p.endDate.value)
      && (|r| < OccurrenceCap(p) ==> PastEnd(p, NthDate(p, e.startDate, |r|, addMonths)))
  {
    var p := e.recurrence.value;
    CopiesFromStops(p, e.startDate, addMonths, 1);
    var r := Series(e, addMonths);
    forall k | 1 <= k < |r| ensures !PastEnd(p, r[k].startDate) {
      assert r[k] == Copies(e, CopyCount(p, e.startDate, addMonths), addMonths)[k - 1];
      assert Produced(p, e.startDate, addMonths, k);
    }
  }

  lemma {:induction false} DailyNthDate(p: RecurrencePattern, start: Date, k: nat, addMonths: MonthAdder)
    requires p.recType == Daily
    ensures NthDate(p, start, k, addMonths) == start + k * p.frequency
  {
    if k > 0 {
      DailyNthDate(p, start, k - 1, addMonths);
    }
  }

  lemma {:induction false} WeeklyNthDate(p: RecurrencePattern, start: Date, k: nat, addMonths: MonthAdder)
    requires p.recType == Weekly
    ensures NthDate(p, start, k, addMonths) == start + 7 * k * p.frequency
  {
    if k > 0 {
      WeeklyNthDate(p, start, k - 1, addMonths);
    }
  }

  /** Each copy is dated one step (`addDays`, `addWeeks` or `addMonths` by the
      frequency) after the event before it, which makes copy `k` occurrence `k`:
      `start + k·frequency` days (daily) or `start + 7·k·frequency` days (weekly).
      Its end date equals its start date. */
  lemma SeriesDates(e: Event, addMonths: MonthAdder)
    requires Expands(e)
    ensures var p, r := e.recurrence.value, Series(e, addMonths);
      forall k :: 1 <= k < |r| ==>
        && r[k].endDate == r[k].startDate
        && r[k].startDate == Advance(p.recType, r[k - 1].startDate, p.frequency, addMonths)
        && r[k].startDate == NthDate(p, e.startDate, k, addMonths)
        && (p.recType == Daily ==> r[k].startDate == e.startDate + k * p.frequency)
        && (p.recType == Weekly ==> r[k].startDate == e.startDate + 7 * k * p.frequency)
  {
    var p, r := e.recurrence.value, Series(e, addMonths);
    var copies := Copies(e, CopyCount(p, e.startDate, addMonths), addMonths);
    forall k | 1 <= k < |r|
      ensures r[k].endDate == r[k].startDate
      ensures r[k].startDate == Advance(p.recType, r[k - 1].startDate, p.frequency, addMonths)
      ensures r[k].startDate == NthDate(p, e.startDate, k, addMonths)
      ensures p.recType == Daily ==> r[k].startDate == e.startDate + k * p.frequency
      ensures p.recType == Weekly ==> r[k].startDate == e.startDate + 7 * k * p.frequency
    {
      assert r[k] == copies[k - 1];
      assert r[k].startDate == NthDate(p, e.startDate, k, addMonths);
      if k > 1 {
        assert r[k - 1] == copies[k - 2];
        assert r[k - 1].startDate == NthDate(p, e.startDate, k - 1, addMonths);
      }
      if p.recType == Daily {
        DailyNthDate(p, e.startDate, k, addMonths);
      } else if p.recType == Weekly {
        WeeklyNthDate(p, e.startDate, k, addMonths);
      }
    }
  }

  /** Every step moves forward: a positive frequency, and for monthly patterns a
      month adder that moves forward on that frequency. */
  ghost predicate MovesForward(p: RecurrencePattern, addMonths: MonthAdder) {
    p.frequency >= 1 && (p.recType == Monthly ==> forall d :: addMonths(d, p.frequency) > d)
  }

  lemma {:induction false} NthDateIncreasing(p: RecurrencePattern, start: Date, i: nat, j: nat, addMonths: MonthAdder)
    requires p.recType != Custom && MovesForward(p, addMonths) && i < j
    ensures NthDate(p, start, i, addMonths) < NthDate(p, start, j, addMonths)
    decreases j
  {
    var prev := NthDate(p, start, j - 1, addMonths);
    assert NthDate(p, start, j, addMonths) > prev by {
      if p.recType == Monthly {
        assert addMonths(prev, p.frequency) > prev;
      }
    }
    if i < j - 1 {
      NthDateIncreasing(p, start, i, j - 1, addMonths);
    }
  }

  /** When every step moves forward the series is in strictly increasing date order. */
  lemma SeriesIncreasing(e: Event, addMonths: MonthAdder)
    requires Expands(e) && MovesForward(e.recurrence.value, addMonths)
    ensures var r := Series(e, addMonths);
      forall i, j :: 0 <= i < j < |r| ==> r[i].startDate < r[j].startDate
  {
    var p, r := e.recurrence.value, Series(e, addMonths);
    forall k | 0 <= k < |r| ensures r[k].startDate == NthDate(p, e.startDate, k, addMonths) {
      if k > 0 {
        assert r[k] == Copies(e, CopyCount(p, e.startDate, addMonths), addMonths)[k - 1];
      }
    }
    forall i, j | 0 <= i < j < |r| ensures r[i].startDate < r[j].startDate {
      NthDateIncreasing(p, e.startDate, i, j, addMonths);
    }
  }

  /** Copy ids never collide with the base id nor with each other. */
  lemma CopyIdInjective(baseId: string, i: nat, j: nat)
    requires CopyId(baseId, i) == CopyId(baseId, j)
    ensures i == j
  {
    var prefix := baseId + "-";
    assert CopyId(baseId, i)[|prefix|..] == DecimalString(i);
    assert CopyId(baseId, j)[|prefix|..] == DecimalString(j);
    DecimalStringInjective(i, j);
  }

  /** The events of one series have pairwise different ids. */
  lemma SeriesIdsDistinct(e: Event, addMonths: MonthAdder)
    ensures var r := Series(e, addMonths);
      forall i, j :: 0 <= i < j < |r| ==> r[i].id != r[j].id
  {
    var r := Series(e, addMonths);
    forall i, j | 0 <= i < j < |r| ensures r[i].id != r[j].id {
      assert r[j].id == CopyId(e.id, j);
      if i == 0 {
        assert |r[j].id| > |e.id|;
      } else if r[i].id == r[j].id {
        CopyIdInjective(e.id, i, j);
      }
    }
  }

  /** A weekly event repeating every week for three occurrences, with no end date:
      the base and two copies, one and two weeks later, ids `-1` and `-2`. */
  lemma WeeklyThreeOccurrences(e: Event, addMonths: MonthAdder)
    requires e.isRecurring && e.recurrence.Some?
    requires var p := e.recurrence.value;
      p.recType == Weekly && p.frequency == 1 && p.endDate.None? && p.endAfterOccurrences == Some(3)
    ensures var r := Series(e, addMonths);
      && |r| == 3 && r[0] == e
      && r[1].startDate == r[1].endDate == e.startDate + 7 && r[1].id == e.id + "-1"
      && r[2].startDate == r[2].endDate == e.startDate + 14 && r[2].id == e.id + "-2"
      && r[1].parentEventId == r[2].parentEventId == Some(e.id)
  {
    SeriesLengthWithoutEndDate(e, addMonths);
    SeriesDates(e, addMonths);
    assert DecimalString(1) == "1" && DecimalString(2) == "2";
  }
}
