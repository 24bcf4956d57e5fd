# Calendar event store, modelled in Dafny

This project models the event store of a personal calendar: the hook
`useCalendarEvents` that holds the list of events, adds events (expanding a
recurring event into dated copies at creation time), updates, deletes and
reschedules them, and answers "which events start on this day / in this range".

- `calendar_types.dfy` (module `CalendarTypes`): the records of
  `src/types/calendar.ts` — `Event`, `RecurrencePattern` (with a `RecType`
  enum daily / weekly / monthly / custom), `EventFormData`, and `EventOverride`
  for the values of `recurrenceModifications`. Optional fields are `Option`s.
  Calendar dates are day ordinals (`Date = int`): the ISO string `yyyy-MM-dd`
  and the day it names are interchangeable, so `format`/`parseISO` are the
  identity, `addDays(d, f)` is `d + f` and `addWeeks(d, f)` is `d + 7f`.
- `sequences.dfy` (module `Sequences`): order-preserving `Filter` (the
  `Array.prototype.filter` the store is built on), a subsequence predicate,
  `Join`, and the decimal rendering of the occurrence counter used in copy ids,
  proved injective.
- `recurrence.dfy` (module `Recurrence`): `generateRecurringEvents`. The
  method `GenerateRecurringEvents` keeps the source's loop (the counter, the
  `switch` on the type with its early return for `custom`, the inclusive
  end-date `break`) and is proved to return `Series(event)`, a declarative
  description of the result; the lemmas state the length bound, the dates, the
  end-date cut-off, the ids and the ordering of the series. date-fns `addMonths`
  is a function value of type `MonthAdder` supplied by the caller, so monthly
  dates are the adder applied step by step, clamping included.
- `event_store.dfy` (module `EventStore`): the new list each operation computes
  (`Updated`, `Deleted`, `Rescheduled`, plus `NewEvent`, `Merge`, `Find`,
  `Conflicts`, `EventsOnDate`, `EventsInRange`), the class `CalendarEvents`
  whose `events` field the methods `AddEvent`, `UpdateEvent`, `DeleteEvent` and
  `RescheduleEvent` replace, and lemmas relating the operations (idempotent
  delete, series delete, id uniqueness kept, queries after add and move, range
  widening).

The fresh id that the source takes from `Date.now()` is the parameter `now` of
`AddEvent`; the month arithmetic is the constant `addMonths` the store is
constructed with.

The model follows the code: recurrence is eager (a recurring event is stored as
its base plus up to `(endAfterOccurrences || 50) − 1` materialised copies whose
ids are `{id}-{k}`), no operation takes an instance date,
`recurrenceExceptions` and `recurrenceModifications` are carried but never read,
`custom` patterns yield the base event alone, updating an unknown id is a no-op,
and rescheduling one returns `success: false`.

## Model

| member | source | states |
|---|---|---|
| `Recurrence.GenerateRecurringEvents` | src/hooks/useCalendarEvents.ts:30-73 | the loop returns exactly `Series(event)`: the base followed by the copies, for every input, the loop bounded by the counter alone whatever the frequency |
| `Recurrence.Series` | src/hooks/useCalendarEvents.ts:31-41 | the first element is the input event; the result is exactly `[event]` when the event is not recurring, has no pattern, or has type `custom`; every later element equals the base except for its id, its two dates and `parentEventId = event.id` |
| `Recurrence.SeriesLength` | src/hooks/useCalendarEvents.ts:41 | the series has at most `max(1, cap)` events, the cap being `endAfterOccurrences`, or 50 when that is absent or zero |
| `Recurrence.CopiesFromBound` | src/hooks/useCalendarEvents.ts:41 | from occurrence k on, at most `cap − k` copies are produced |
| `Recurrence.SeriesLengthWithoutEndDate` | src/hooks/useCalendarEvents.ts:41-58 | without an end date a daily, weekly or monthly series has exactly `max(1, cap)` events, the cap being `endAfterOccurrences`, or 50 when that is absent or zero |
| `Recurrence.CopiesFromWithoutEnd` | src/hooks/useCalendarEvents.ts:41-58 | without an end date exactly `max(0, cap − k)` copies follow occurrence k |
| `Recurrence.CopiesFromStops` | src/hooks/useCalendarEvents.ts:41-58 | every produced occurrence is below the cap and not past the end date, and the first occurrence not produced is at the cap or past the end date |
| `Recurrence.SeriesRespectsEndDate` | src/hooks/useCalendarEvents.ts:56-58 | no copy is dated after the inclusive end date, and a series shorter than the cap stops because the next date in the pattern is past the end date |
| `Recurrence.DailyNthDate` | src/hooks/useCalendarEvents.ts:43-45 | for a daily pattern occurrence k falls on `start + k·frequency` |
| `Recurrence.WeeklyNthDate` | src/hooks/useCalendarEvents.ts:46-48 | for a weekly pattern occurrence k falls on `start + 7·k·frequency` |
| `Recurrence.SeriesDates` | src/hooks/useCalendarEvents.ts:42-66 | each copy has `endDate = startDate` and starts one step (`addDays`, `addWeeks` or `addMonths` by the frequency) after the event before it, so copy k falls on occurrence k: `start + k·frequency` (daily), `start + 7·k·frequency` (weekly), k successive month steps (monthly) |
| `Recurrence.NthDateIncreasing` | src/hooks/useCalendarEvents.ts:42-51 | when every step moves forward, later occurrences have later dates |
| `Recurrence.SeriesIncreasing` | src/hooks/useCalendarEvents.ts:42-68 | with a positive frequency (and a forward-moving month adder for monthly patterns) the series is in strictly increasing date order |
| `Recurrence.CopyIdInjective` | src/hooks/useCalendarEvents.ts:62 | two copy ids of one base are equal only for the same counter |
| `Recurrence.SeriesIdsDistinct` | src/hooks/useCalendarEvents.ts:62 | the events of one series have pairwise different ids |
| `Recurrence.WeeklyThreeOccurrences` | src/hooks/useCalendarEvents.ts:30-73 | a weekly, every-week, three-occurrence event without end date yields the base and copies one and two weeks later with ids `-1`, `-2` and parent the base |
| `Sequences.DecimalString` | src/hooks/useCalendarEvents.ts:62 | the counter in a copy id prints as one or more decimal digits, two or more exactly from 10 on, with no leading zero, and the digits read back as the counter (`DigitsValue(r) == n`) |
| `Sequences.FilterMultiplicity` | src/hooks/useCalendarEvents.ts:140-143 | `Array.prototype.filter` keeps every copy of a passing element and none of a failing one: the result's multiset is the input's restricted to the test |
| `Sequences.DecimalStringInjective` | src/hooks/useCalendarEvents.ts:62 | different counters print differently |
| `EventStore.Find` | src/hooks/useCalendarEvents.ts:98 | `find` by id returns nothing exactly when no event has the id, otherwise the first event that has it |
| `EventStore.NewEvent` | src/hooks/useCalendarEvents.ts:76-79 | the new event carries the supplied id and all the form fields, and no parent, exceptions or modifications |
| `EventStore.Merge` | src/hooks/useCalendarEvents.ts:91 | the merged event shows exactly the form's fields and keeps its id, `parentEventId`, exceptions and modifications |
| `EventStore.Updated` | src/hooks/useCalendarEvents.ts:88-94 | same length and order; events with the id get the form fields and keep id and series fields; every other event, siblings of the same series included, is unchanged; an unknown id leaves the list unchanged |
| `EventStore.Deleted` | src/hooks/useCalendarEvents.ts:96-105 | the result is an order-preserving sub-list; when the first event with the id has a non-empty parent P, exactly the events with id ≠ P and parent ≠ P remain, each as often as before; otherwise exactly the events with a different id remain, each as often as before; an unknown id changes nothing |
| `EventStore.Rescheduled` | src/hooks/useCalendarEvents.ts:126-130 | same length; events with the id get both dates set to the new date and nothing else changed; the others are unchanged |
| `EventStore.Conflicts` | src/hooks/useCalendarEvents.ts:114-118 | an order-preserving sub-list holding exactly the other events starting on the new date with the same start time (two absent times are equal), each as often as in the list |
| `EventStore.EventsOnDate` | src/hooks/useCalendarEvents.ts:140-143 | an order-preserving sub-list holding exactly the events whose start date is the day, each as often as in the list |
| `EventStore.EventsInRange` | src/hooks/useCalendarEvents.ts:145-151 | an order-preserving sub-list holding exactly the events with `start ≤ startDate ≤ end`, each as often as in the list, end dates ignored |
| `EventStore.CalendarEvents.constructor` | src/hooks/useCalendarEvents.ts:17 | the store starts empty |
| `EventStore.CalendarEvents.AddEvent` | src/hooks/useCalendarEvents.ts:75-86 | the new list is the old list followed by `Series(NewEvent(now, eventData))`, which is `[newEvent]` when the form is not recurring |
| `EventStore.CalendarEvents.UpdateEvent` | src/hooks/useCalendarEvents.ts:88-94 | the new list is `Updated` of the old |
| `EventStore.CalendarEvents.DeleteEvent` | src/hooks/useCalendarEvents.ts:96-105 | the new list is `Deleted` of the old |
| `EventStore.CalendarEvents.RescheduleEvent` | src/hooks/useCalendarEvents.ts:107-138 | success exactly when some event has the id; on failure the message is `Event not found` and the list is unchanged; on success the list is `Rescheduled` of the old, and a message is present exactly when the pre-move conflict list is non-empty, listing its titles joined by `", "` |
| `EventStore.CalendarEvents.GetEventsForDate` | src/hooks/useCalendarEvents.ts:140-143 | the events of the store's current list that start on the day |
| `EventStore.CalendarEvents.GetEventsForDateRange` | src/hooks/useCalendarEvents.ts:145-151 | the events of the store's current list that start within the inclusive range |
| `EventStore.DeleteTwice` | src/hooks/useCalendarEvents.ts:96-105 | with unique ids, deleting the same id a second time changes nothing |
| `EventStore.DeleteCopyRemovesSeries` | src/hooks/useCalendarEvents.ts:99-102 | deleting a generated copy leaves no event whose id or parent is the copy's parent |
| `EventStore.DeleteBaseKeepsCopies` | src/hooks/useCalendarEvents.ts:103 | deleting a base event leaves every copy of it in the store |
| `EventStore.AddKeepsIdsUnique` | src/hooks/useCalendarEvents.ts:75-86 | adding keeps ids unique when the fresh id is new and no stored id starts with it followed by `-` |
| `EventStore.AddKeepsEventsOnDate` | src/hooks/useCalendarEvents.ts:85 | after appending, the events of any day are the old ones of that day followed by the new ones of that day |
| `EventStore.UpdateKeepsIdsUnique` | src/hooks/useCalendarEvents.ts:88-94 | updating keeps ids unique |
| `EventStore.RescheduleKeepsIdsUnique` | src/hooks/useCalendarEvents.ts:126-130 | rescheduling keeps ids unique |
| `EventStore.RescheduledIsOnNewDate` | src/hooks/useCalendarEvents.ts:126-130 | after the move every event with the id is listed on the new date |
| `EventStore.WiderRangeKeepsEvents` | src/hooks/useCalendarEvents.ts:145-151 | widening the range never drops an event and keeps the order |
| `EventStore.DateIsOneDayRange` | src/hooks/useCalendarEvents.ts:140-151 | the events of a day are the events of the one-day range |

## Left out

- Loading the list from and saving it to `localStorage` as JSON (src/hooks/useCalendarEvents.ts:19-28): storage I/O; the list is a field of the store.
- `Date.now()` as the source of a new id: a clock; the id is the parameter `now`.
- date-fns: calendar dates are day ordinals, so `parseISO`/`format` are the identity and `isAfter`/`isBefore`/`isEqual` are integer comparisons; `addMonths` and its end-of-month clamping are a caller-supplied function; invalid dates are not modelled.
- `EventStore.CalendarEvents.GetEventsForDateRange`: takes its bounds as day ordinals; bounds that are `Date` values carrying a time of day are not modelled.
- Non-integer, `NaN` or fractional `frequency` and `endAfterOccurrences`: JavaScript numbers are modelled as integers.
- An empty-string `recurrence.endDate` (falsy, so ignored by the generator) is represented as an absent end date; an unrecognised `type` string is represented as `custom`, which the generator treats the same way.
- JavaScript spread on an object lacking an optional key: the edit form (src/components/calendar/EventForm.tsx:42-53), whose submission is the only input to `updateEvent` (src/pages/Calendar.tsx:47-48), sets all ten form keys, so `Merge` replaces all of them (a key that is absent, rather than `undefined`, would keep the event's own value). The add form can omit `recurrence`; for `NewEvent` an absent key and `undefined` are the same, so `None` covers both.
- The stale `events` closure of `rescheduleEvent` (it reads the rendered list and writes through the updater): operations run sequentially on one state.
- `console.warn` on a conflicting move: logging only.
- `daysOfWeek`, `recurrenceExceptions` and `recurrenceModifications` are carried unchanged and never read, as in the source; `EventOverride` covers title, description, the two dates, the two times, colour and category; `id`, `isRecurring`, `parentEventId` and the array and nested fields of a partial event are not represented.
- The UI components and the page that dispatch to the store (forms, grid, list, header, toasts): presentation only.
