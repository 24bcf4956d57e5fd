/** The event store behind the calendar: a list of events with operations to add
    an event (materialising its recurring copies), update, delete and reschedule
    events, and to list the events of a day or of a range of days. Each operation
    replaces the whole list by a new one computed from the old. */
module EventStore {
  import opened CalendarTypes
  import opened Sequences
  import opened Recurrence

  // ---------------------------------------------------------------------------
  // Lookups and record builders

  /** `Array.prototype.find` by id: the first event with that id, if any. */
  function Find(s: seq<Event>, id: string): (r: Option<Event>)
    ensures r.None? <==> forall x :: x in s ==> x.id != id
    ensures r.Some? ==>
      && r.value.id == id
      && exists i :: 0 <= i < |s| && s[i] == r.value && forall j :: 0 <= j < i ==> s[j].id != id
  {
    if s == [] then None
    else if s[0].id == id then Some(s[0])
    else
      var r := Find(s[1..], id);
      if r.Some? then
        assert exists i :: 0 <= i < |s| - 1 && s[1..][i] == r.value && forall j :: 0 <= j < i ==> s[1..][j].id != id;
        var i :| 0 <= i < |s| - 1 && s[1..][i] == r.value && forall j :: 0 <= j < i ==> s[1..][j].id != id;
        assert s[i + 1] == r.value && forall j :: 0 <= j < i + 1 ==> s[j].id != id by {
          forall j | 0 < j < i + 1 ensures s[j].id != id {
            assert s[j] == s[1..][j - 1];
          }
        }
        r
      else r
  }

  /** No two events share an id. */
  predicate UniqueIds(s: seq<Event>) {
    forall i, j :: 0 <= i < j < |s| ==> s[i].id != s[j].id
  }

  /** `{ id, ...eventData }`: a new event from a form and a fresh id. */
  function NewEvent(id: string, data: EventFormData): (e: Event)
    ensures e.id == id && FormOf(e) == data
    ensures e.parentEventId.None? && e.recurrenceExceptions.None? && e.recurrenceModifications.None?
  {
    Event(id, data.title, data.description, data.startDate, data.endDate, data.startTime,
          data.endTime, data.color, data.category, data.recurrence, data.isRecurring,
          None, None, None)
  }

  /** `{ ...event, ...eventData }`: the form fields replace the event's own, the
      id and the series bookkeeping fields stay. */
  function Merge(e: Event, data: EventFormData): (r: Event)
    ensures FormOf(r) == data
    ensures r.id == e.id && r.parentEventId == e.parentEventId
    ensures r.recurrenceExceptions == e.recurrenceExceptions
    ensures r.recurrenceModifications == e.recurrenceModifications
  {
    e.(title := data.title, description := data.description, startDate := data.startDate,
       endDate := data.endDate, startTime := data.startTime, endTime := data.endTime,
       color := data.color, category := data.category, recurrence := data.recurrence,
       isRecurring := data.isRecurring)
  }

  // ---------------------------------------------------------------------------
  // The new list each operation computes

  /** The list after `updateEvent(id, data)`. */
  function Updated(s: seq<Event>, id: string, data: EventFormData): (r: seq<Event>)
    ensures |r| == |s|
    ensures forall i :: 0 <= i < |s| && s[i].id == id ==>
      && FormOf(r[i]) == data
      && r[i].id == id && r[i].parentEventId == s[i].parentEventId
      && r[i].recurrenceExceptions == s[i].recurrenceExceptions
      && r[i].recurrenceModifications == s[i].recurrenceModifications
    ensures forall i :: 0 <= i < |s| && s[i].id != id ==> r[i] == s[i]
    ensures (forall x :: x in s ==> x.id != id) ==> r == s
  {
    seq(|s|, i requires 0 <= i < |s| => if s[i].id == id then Merge(s[i], data) else s[i])
  }

  /** The series `deleteEvent(id)` removes: the truthy `parentEventId` of the
      first event with that id. */
  function SeriesOf(s: seq<Event>, id: string): Option<string> {
    match Find(s, id)
    case Some(target) =>
      if target.parentEventId.Some? && target.parentEventId.value != "" then target.parentEventId
      else None
    case None => None
  }

  function NotInSeries(parent: string): Event -> bool {
    (e: Event) => e.parentEventId != Some(parent) && e.id != parent
  }

  function IdIsNot(id: string): Event -> bool {
    (e: Event) => e.id != id
  }

  /** The list after `deleteEvent(id)`. */
  function Deleted(s: seq<Event>, id: string): (r: seq<Event>)
    ensures IsSubsequence(r, s)
    ensures SeriesOf(s, id).Some? ==> var parent := SeriesOf(s, id).value;
      && (forall x :: x in r <==> x in s && x.id != parent && x.parentEventId != Some(parent))
      && (forall x :: multiset(r)[x] == if x.id != parent && x.parentEventId != Some(parent) then multiset(s)[x] else 0)
    ensures SeriesOf(s, id).None? ==> forall x :: x in r <==> x in s && x.id != id
    ensures SeriesOf(s, id).None? ==> forall x :: multiset(r)[x] == if x.id != id then multiset(s)[x] else 0
    ensures Find(s, id).None? ==> r == s
  {
    match SeriesOf(s, id)
    case Some(parent) => FilterMultiplicity(NotInSeries(parent), s); Filter(NotInSeries(parent), s)
    case None => FilterMultiplicity(IdIsNot(id), s); Filter(IdIsNot(id), s)
  }

  /** The list after the move of `rescheduleEvent(id, newDate)`. */
  function Rescheduled(s: seq<Event>, id: string, newDate: Date): (r: seq<Event>)
    ensures |r| == |s|
    ensures forall i :: 0 <= i < |s| && s[i].id == id ==>
      r[i].startDate == newDate && r[i].endDate == newDate
      && r[i].(startDate := s[i].startDate, endDate := s[i].endDate) == s[i]
    ensures forall i :: 0 <= i < |s| && s[i].id != id ==> r[i] == s[i]
  {
    seq(|s|, i requires 0 <= i < |s| => if s[i].id == id then s[i].(startDate := newDate, endDate := newDate) else s[i])
  }

  function ConflictsWith(id: string, newDate: Date, startTime: Option<string>): Event -> bool {
    (e: Event) => e.id != id && e.startDate == newDate && e.startTime == startTime
  }

  /** The events other than `id` already at `newDate` with the same start time
      (two absent start times are equal). */
  function Conflicts(s: seq<Event>, id: string, newDate: Date, startTime: Option<string>): (r: seq<Event>)
    ensures IsSubsequence(r, s)
    ensures forall x :: x in r <==> x in s && x.id != id && x.startDate == newDate && x.startTime == startTime
    ensures forall x :: multiset(r)[x]
                        == if x.id != id && x.startDate == newDate && x.startTime == startTime
                           then multiset(s)[x] else 0
  {
    FilterMultiplicity(ConflictsWith(id, newDate, startTime), s);
    Filter(ConflictsWith(id, newDate, startTime), s)
  }

  function Titles(s: seq<Event>): seq<string> {
    seq(|s|, i requires 0 <= i < |s| => s[i].title)
  }

  const NotFoundMessage := "Event not found"
  const ConflictPrefix := "Event moved but conflicts with: "

  datatype RescheduleResult = RescheduleResult(success: bool, message: Option<string>)

  function StartsOn(date: Date): Event -> bool {
    (e: Event) => e.startDate == date
  }

  function StartsWithin(startDate: Date, endDate: Date): Event -> bool {
    (e: Event) => startDate <= e.startDate <= endDate
  }

  /** `getEventsForDate`: the events starting on `date`, in list order. */
  function EventsOnDate(s: seq<Event>, date: Date): (r: seq<Event>)
    ensures IsSubsequence(r, s)
    ensures forall x :: x in r <==> x in s && x.startDate == date
    ensures forall x :: multiset(r)[x] == if x.startDate == date then multiset(s)[x] else 0
  {
    FilterMultiplicity(StartsOn(date), s);
    Filter(StartsOn(date), s)
  }

  /** `getEventsForDateRange`: the events starting between the two dates, both
      included, in list order. The end dates of events play no part. */
  function EventsInRange(s: seq<Event>, startDate: Date, endDate: Date): (r: seq<Event>)
    ensures IsSubsequence(r, s)
    ensures forall x :: x in r <==> x in s && startDate <= x.startDate <= endDate
    ensures forall x :: multiset(r)[x] == if startDate <= x.startDate <= endDate then multiset(s)[x] else 0
  {
    FilterMultiplicity(StartsWithin(startDate, endDate), s);
    Filter(StartsWithin(startDate, endDate), s)
  }

  // ---------------------------------------------------------------------------
  // The store

  /** The hook's state: the event list, and the month arithmetic it uses. */
  class CalendarEvents {
    var events: seq<Event>
    const addMonths: MonthAdder

    constructor (addMonths: MonthAdder)
      ensures events == [] && this.addMonths == addMonths
    {
      events := [];
      this.addMonths := addMonths;
    }

    /** `addEvent`: `now` stands for `Date.now().toString()`. */
    method AddEvent(eventData: EventFormData, now: string)
      modifies this
      ensures events == old(events) + Series(NewEvent(now, eventData), addMonths)
    {
      var newEvent := NewEvent(now, eventData);
      var eventsToAdd;
      if eventData.isRecurring {
        eventsToAdd := GenerateRecurringEvents(newEvent, addMonths);
      } else {
        eventsToAdd := [newEvent];
      }
      events := events + eventsToAdd;
    }

    method UpdateEvent(eventId: string, eventData: EventFormData)
      modifies this
      ensures events == Updated(old(events), eventId, eventData)
    {
      events := Updated(events, eventId, eventData);
    }

    method DeleteEvent(eventId: string)
      modifies this
      ensures events == Deleted(old(events), eventId)
    {
      events := Deleted(events, eventId);
    }

    /** `rescheduleEvent`: the move always happens when the event exists; the
        conflicts, computed on the list before the move, only shape the message. */
    method RescheduleEvent(eventId: string, newDate: Date) returns (result: RescheduleResult)
      modifies this
      ensures result.success <==> exists x :: x in old(events) && x.id == eventId
      ensures !result.success ==> result.message == Some(NotFoundMessage) && events == old(events)
      ensures result.success ==> events == Rescheduled(old(events), eventId, newDate)
      ensures result.success ==>
        var conflicts := Conflicts(old(events), eventId, newDate, Find(old(events), eventId).value.startTime);
        && (result.message.Some? <==> conflicts != [])
        && (result.message.Some? ==> result.message.value == ConflictPrefix + Join(Titles(conflicts), ", "))
    {
      var eventToReschedule := Find(events, eventId);
      if eventToReschedule.None? {
        return RescheduleResult(false, Some(NotFoundMessage));
      }
      var conflictingEvents := Conflicts(events, eventId, newDate, eventToReschedule.value.startTime);
      events := Rescheduled(events, eventId, newDate);
      result := RescheduleResult(
        true,
        if |conflictingEvents| > 0 then Some(ConflictPrefix + Join(Titles(conflictingEvents), ", ")) else None);
    }

    function GetEventsForDate(date: Date): (r: seq<Event>)
      reads this
      ensures r == EventsOnDate(events, date)
    {
      EventsOnDate(events, date)
    }

    function GetEventsForDateRange(startDate: Date, endDate: Date): (r: seq<Event>)
      reads this
      ensures r == EventsInRange(events, startDate, endDate)
    {
      EventsInRange(events, startDate, endDate)
    }
  }

  // ---------------------------------------------------------------------------
  // Properties relating the operations

  /** A second delete of the same id changes nothing, when ids are unique. */
  lemma DeleteTwice(s: seq<Event>, id: string)
    requires UniqueIds(s)
    ensures Deleted(Deleted(s, id), id) == Deleted(s, id)
  {
    var r := Deleted(s, id);
    match SeriesOf(s, id)
    case None =>
    case Some(parent) =>
      var target := Find(s, id).value;
      var i :| 0 <= i < |s| && s[i] == target;
      forall x | x in r ensures x.id != id {
        var j :| 0 <= j < |s| && s[j] == x;
        assert x.parentEventId != target.parentEventId;
        assert i != j;
      }
    assert Find(r, id).None?;
  }

  /** Deleting a copy removes its base and every copy of the same series. */
  lemma DeleteCopyRemovesSeries(s: seq<Event>, i: nat)
    requires i < |s| && s[i].parentEventId.Some? && s[i].parentEventId.value != ""
    requires forall j :: 0 <= j < i ==> s[j].id != s[i].id
    ensures var parent, r := s[i].parentEventId.value, Deleted(s, s[i].id);
      forall x :: x in r ==> x.id != parent && x.parentEventId != Some(parent)
  {
  }

  /** Deleting a base event (one with no parent) leaves its copies in the store. */
  lemma DeleteBaseKeepsCopies(s: seq<Event>, i: nat)
    requires i < |s| && s[i].parentEventId.None?
    requires forall j :: 0 <= j < i ==> s[j].id != s[i].id
    ensures forall x :: x in s && x.parentEventId == Some(s[i].id) && x.id != s[i].id ==> x in Deleted(s, s[i].id)
  {
  }

  /** Adding an event keeps the ids unique when the fresh id is new and no
      stored id starts with the fresh id followed by `-`. */
  lemma AddKeepsIdsUnique(s: seq<Event>, id: string, data: EventFormData, addMonths: MonthAdder)
    requires UniqueIds(s)
    requires forall x :: x in s ==> x.id != id && !(id + "-" <= x.id)
    ensures UniqueIds(s + Series(NewEvent(id, data), addMonths))
  {
    var e := NewEvent(id, data);
    var t := Series(e, addMonths);
    SeriesIdsDistinct(e, addMonths);
    forall k | 0 <= k < |t| ensures t[k].id == id || id + "-" <= t[k].id {
      if k > 0 {
        assert t[k].id == id + "-" + DecimalString(k);
      }
    }
    var u := s + t;
    forall i, j | 0 <= i < j < |u| ensures u[i].id != u[j].id {
      if j >= |s| && i < |s| {
        assert u[i] in s && u[j] == t[j - |s|];
      } else if i >= |s| {
        assert u[i] == t[i - |s|] && u[j] == t[j - |s|];
      }
    }
  }

  /** Adding events never removes an event from the list of any day; the new
      events of that day come after the old ones. */
  lemma AddKeepsEventsOnDate(s: seq<Event>, t: seq<Event>, date: Date)
    ensures EventsOnDate(s + t, date) == EventsOnDate(s, date) + EventsOnDate(t, date)
  {
    FilterAppend(StartsOn(date), s, t);
  }

  /** Updating keeps every id where it was, so unique ids stay unique. */
  lemma UpdateKeepsIdsUnique(s: seq<Event>, id: string, data: EventFormData)
    requires UniqueIds(s)
    ensures UniqueIds(Updated(s, id, data))
  {
  }

  /** Rescheduling keeps every id where it was, so unique ids stay unique. */
  lemma RescheduleKeepsIdsUnique(s: seq<Event>, id: string, newDate: Date)
    requires UniqueIds(s)
    ensures UniqueIds(Rescheduled(s, id, newDate))
  {
  }

  /** After a move, the moved event is listed on its new date. */
  lemma RescheduledIsOnNewDate(s: seq<Event>, id: string, newDate: Date)
    ensures forall x :: x in Rescheduled(s, id, newDate) && x.id == id ==> x in EventsOnDate(Rescheduled(s, id, newDate), newDate)
  {
  }

  /** Widening a range never drops an event, and keeps the order. */
  lemma WiderRangeKeepsEvents(s: seq<Event>, start1: Date, end1: Date, start2: Date, end2: Date)
    requires start2 <= start1 && end1 <= end2
    ensures IsSubsequence(EventsInRange(s, start1, end1), EventsInRange(s, start2, end2))
  {
    FilterWeaker(StartsWithin(start1, end1), StartsWithin(start2, end2), s);
  }

  /** The events of a day are the events of the one-day range. */
  lemma DateIsOneDayRange(s: seq<Event>, date: Date)
    ensures EventsOnDate(s, date) == EventsInRange(s, date, date)
  {
    FilterSameTest(StartsOn(date), StartsWithin(date, date), s);
  }
}
