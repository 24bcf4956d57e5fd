/** The records of the calendar: an event, its recurrence pattern and the data
    an event form submits. Calendar dates are day ordinals (the ISO date string
    `yyyy-MM-dd` and the day it names are interchangeable here); clock times,
    colours, titles and ids stay strings. */
module CalendarTypes {

  datatype Option<+T> = None | Some(value: T)

  /** A calendar date as a day number: the day after `d` is `d + 1`. */
  type Date = int

  /** The `type` tag of a recurrence pattern. */
  datatype RecType = Daily | Weekly | Monthly | Custom

  /** How a recurring event repeats. `endDate` is inclusive; an end date that is
      absent (or the empty string, which the generator treats as absent) is `None`.
      `daysOfWeek` is carried but never consulted. */
  datatype RecurrencePattern = RecurrencePattern(
    recType: RecType,
    frequency: int,
    daysOfWeek: Option<seq<int>>,
    endDate: Option<Date>,
    endAfterOccurrences: Option<int>)

  /** A partial event, the value type of `recurrenceModifications`. The store
      never reads it; it only carries it along. */
  datatype EventOverride = EventOverride(
    title: Option<string>,
    description: Option<string>,
    startDate: Option<Date>,
    endDate: Option<Date>,
    startTime: Option<string>,
    endTime: Option<string>,
    color: Option<string>,
    category: Option<string>)

  /** A stored event: a one-off event, the base of a series, or a generated copy
      (the latter has `parentEventId` set to the base's id). */
  datatype Event = Event(
    id: string,
    title: string,
    description: Option<string>,
    startDate: Date,
    endDate: Date,
    startTime: Option<string>,
    endTime: Option<string>,
    color: string,
    category: Option<string>,
    recurrence: Option<RecurrencePattern>,
    isRecurring: bool,
    parentEventId: Option<string>,
    recurrenceExceptions: Option<seq<string>>,
    recurrenceModifications: Option<map<string, EventOverride>>)

  /** The fields an event form submits: an event without its id and without the
      series bookkeeping fields. */
  datatype EventFormData = EventFormData(
    title: string,
    description: Option<string>,
    startDate: Date,
    endDate: Date,
    startTime: Option<string>,
    endTime: Option<string>,
    color: string,
    category: Option<string>,
    recurrence: Option<RecurrencePattern>,
    isRecurring: bool)

  /** The form fields of an event, as the edit form shows them. */
  function FormOf(e: Event): EventFormData {
    EventFormData(e.title, e.description, e.startDate, e.endDate, e.startTime,
                  e.endTime, e.color, e.category, e.recurrence, e.isRecurring)
  }
}
