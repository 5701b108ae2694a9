/** The click-stream event table that every dashboard component reduces,
    the calendar arithmetic the components apply to its timestamps, and
    the data frame whose derived columns some components write in place. */
module Events {

  datatype Option<T> = None | Some(value: T)

  datatype Result<T, E> = Ok(value: T) | Err(error: E)

  /** BehaviorType as stored: the four known kinds, or any other string,
      since the dashboard never validates the column. */
  datatype Behavior = Pv | Cart | Fav | Buy | Other(name: string)

  predicate IsStandard(b: Behavior) { !b.Other? }

  /** The four known behaviors in funnel order. */
  const FunnelOrder: seq<Behavior> := [Pv, Cart, Fav, Buy]

  /** One row of the event table; Timestamp is whole seconds since the Unix epoch. */
  datatype Event = Event(user: int, item: int, category: int, behavior: Behavior, timestamp: int)

  type Table = seq<Event>

  const SecondsPerDay: int := 86400
  const SecondsPerHour: int := 3600

  /** Midnight at the start of calendar day `day` (days since 1970-01-01). */
  function Midnight(day: int): int { day * SecondsPerDay }

  /** The calendar date of a timestamp, as a day number (`.dt.date`). */
  function DayOf(ts: int): (day: int)
    ensures Midnight(day) <= ts < Midnight(day) + SecondsPerDay
  {
    ts / SecondsPerDay
  }

  /** The hour of day of a timestamp (`.dt.hour`). */
  function HourOf(ts: int): (h: int)
    ensures 0 <= h < 24
    ensures Midnight(DayOf(ts)) + h * SecondsPerHour <= ts < Midnight(DayOf(ts)) + (h + 1) * SecondsPerHour
  {
    (ts % SecondsPerDay) / SecondsPerHour
  }

  /** Day of week with Monday = 0 (`.dt.dayofweek`); 1970-01-01 was a Thursday. */
  function DayOfWeek(day: int): (w: int)
    ensures 0 <= w < 7
  {
    (day + 3) % 7
  }

  // Named column selectors, so that every reduction projects a column
  // through the same function value.
  function UserOf(e: Event): int { e.user }
  function ItemOf(e: Event): int { e.item }
  function CategoryOf(e: Event): int { e.category }
  function BehaviorOf(e: Event): Behavior { e.behavior }
  function DayOfEvent(e: Event): int { DayOf(e.timestamp) }
  function HourOfEvent(e: Event): int { HourOf(e.timestamp) }
  function CategoryBehaviorOf(e: Event): (int, Behavior) { (e.category, e.behavior) }

  /** A derived column value. */
  datatype Cell = IntCell(n: int) | TextCell(s: string)

  /** A data frame handed between components: the event rows, which these
      components never change, and the derived columns added to it in place. */
  class Frame {
    var events: Table
    var columns: map<string, seq<Cell>>

    ghost predicate Valid()
      reads this
    {
      forall name :: name in columns ==> |columns[name]| == |events|
    }

    constructor (t: Table)
      ensures Valid()
      ensures events == t && columns == map[]
    {
      events := t;
      columns := map[];
    }

    /** `df[name] = col`: adds or replaces one column, leaving the rows and
        every other column as they were. */
    method SetColumn(name: string, col: seq<Cell>)
      requires Valid()
      requires |col| == |events|
      modifies this
      ensures Valid()
      ensures events == old(events)
      ensures columns == old(columns)[name := col]
    {
      columns := columns[name := col];
    }
  }
}
