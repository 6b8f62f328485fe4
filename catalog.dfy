/**
 * The catalog entities the analyzer reads, the message vocabulary it selects
 * from, and the configuration it receives from the catalog module (`Kiosk`).
 */
module Catalog {

  /** A month index as `Date.prototype.getMonth` returns it: 0 is January. */
  type Month = m: int | 0 <= m < 12

  type Weekday = string

  /** A route, compared field by field. */
  datatype Route = Route(origin: string, destination: string)

  /** A calendar date; the analyzer only reads its month. */
  datatype Date = Date(year: int, month: Month, day: int)

  /** The outbound ticket of a roundtrip: its date and its departure instant. */
  datatype Ticket = Ticket(date: Date, datetime: int)

  /** One catalog entry. */
  datatype Roundtrip = Roundtrip(
    id: nat,
    totalCost: int,
    originatingTicket: Ticket,
    route: Route,
    weekday: Weekday,
    month: Month)

  /** The message keys the analyzer selects, with their parameters. */
  datatype Message =
    | MonthBeyondTimespanMessage(monthName: string, timespan: string)
    | MoreTicketsCheapestFirst
    | LastPairOfTickets
    | OnlyOneCheapestPairPerDay
    | NoMoreTickets
    | NoTicketsWithGivenPrice(totalCost: int)
    | NoTicketsForGivenMonth(monthName: string)
    | NoTicketsForGivenDate

  /**
   * What the catalog module provides: the default route, the weekday value
   * that means "any day", the months the catalog covers, and the
   * human-readable description of that span.
   */
  datatype Config = Config(
    defaultRoute: Route,
    anyWeekday: Weekday,
    monthsWithinTimespan: set<Month>,
    timespan: string)
  {
    predicate IsMonthWithinTimespan(m: Month) {
      m in monthsWithinTimespan
    }
  }

  /** Full lower-case English month names, indexed by `Month`. */
  const MonthNames: seq<string> := [
    "january", "february", "march", "april", "may", "june",
    "july", "august", "september", "october", "november", "december"]

  function MonthName(m: Month): string {
    MonthNames[m]
  }
}
