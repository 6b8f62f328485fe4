/**
 * The analyzer: normalises a caller's filter, narrows the catalog to the
 * entries that match it, and picks the roundtrips to show and the message
 * that explains them by one of five strategies.
 */
module Analyzer {
  import opened Wrappers
  import opened Catalog
  import opened Ranking

  /** Page size of the "more" strategy. */
  const MoreTicketsLimit: nat := 5

  /** The three states of `originatingTicket.date` in a caller's filter. */
  datatype DateSlot = Unset | Null | At(date: Date)

  /**
   * The caller's nested `originatingTicket` object. The shallow copy the
   * analyzer makes of the filter still refers to this same object, so
   * cancelling a null date is visible to the caller.
   */
  class TicketFilter {
    var date: DateSlot

    constructor (date: DateSlot)
      ensures this.date == date
    {
      this.date := date;
    }
  }

  /** A caller's filter; `None` marks a field the caller did not set. */
  datatype Filter = Filter(
    route: Option<Route>,
    totalCost: Option<int>,
    weekday: Option<Weekday>,
    originatingTicket: Option<TicketFilter>,
    month: Option<Month>)

  /** The argument of `analyze`; `segment` is `None` when left undefined. */
  datatype Request = Request(filter: Filter, more: bool, segment: Option<int>)

  /** A filter as a value: the nested ticket object replaced by its date. */
  datatype FilterView = FilterView(
    route: Option<Route>,
    totalCost: Option<int>,
    weekday: Option<Weekday>,
    ticketDate: Option<DateSlot>,
    month: Option<Month>)

  function TicketObjects(f: Filter): set<TicketFilter> {
    if f.originatingTicket.Some? then {f.originatingTicket.value} else {}
  }

  function View(f: Filter): FilterView
    reads TicketObjects(f)
  {
    FilterView(
      f.route, f.totalCost, f.weekday,
      if f.originatingTicket.Some? then Some(f.originatingTicket.value.date) else None,
      f.month)
  }

  /** The fields left in the filter once normalised: each is an equality test. */
  datatype EqualityFilter = EqualityFilter(
    route: Route,
    weekday: Option<Weekday>,
    ticketDate: Option<Date>,
    month: Option<Month>)

  /**
   * The normalised filter and the price ceiling taken out of it. The
   * specific date, the target month and its name are derived from them.
   */
  datatype Context = Context(eq: EqualityFilter, totalCost: Option<int>) {
    /** A null date was deleted, so the retained date is the specific date. */
    function SpecificDate(): Option<Date> {
      eq.ticketDate
    }
  }

  /** Normalisation of a filter value (the pure reading of `NormalizeFilter`). */
  function Normalize(cfg: Config, v: FilterView): Context {
    var specificDate :=
      if v.ticketDate.Some? && v.ticketDate.value.At? then Some(v.ticketDate.value.date) else None;
    Context(
      EqualityFilter(
        if v.route.Some? then v.route.value else cfg.defaultRoute,
        if v.weekday == Some(cfg.anyWeekday) then None else v.weekday,
        specificDate,
        v.month),
      v.totalCost)
  }

  /**
   * Merges the filter over the default route, takes the ceiling out,
   * drops an "any" weekday and cancels a null date, which deletes it from
   * the caller's own ticket object.
   */
  method NormalizeFilter(cfg: Config, filter: Filter) returns (ctx: Context)
    modifies TicketObjects(filter)
    ensures ctx == Normalize(cfg, old(View(filter)))
    ensures filter.originatingTicket.Some? ==>
      filter.originatingTicket.value.date ==
        if old(filter.originatingTicket.value.date) == Null then Unset
        else old(filter.originatingTicket.value.date)
  {
    ctx := Normalize(cfg, View(filter));
    if filter.originatingTicket.Some? && filter.originatingTicket.value.date == Null {
      filter.originatingTicket.value.date := Unset;
    }
  }

  /** `_.matches` of the normalised filter, field by field. */
  predicate Matches(eq: EqualityFilter, x: Roundtrip) {
    x.route == eq.route
    && (eq.weekday.Some? ==> x.weekday == eq.weekday.value)
    && (eq.ticketDate.Some? ==> x.originatingTicket.date == eq.ticketDate.value)
    && (eq.month.Some? ==> x.month == eq.month.value)
  }

  function MatchesFilter(eq: EqualityFilter): Roundtrip -> bool {
    (x: Roundtrip) => Matches(eq, x)
  }

  function CostAtMost(ceiling: int): Roundtrip -> bool {
    (x: Roundtrip) => x.totalCost <= ceiling
  }

  function HasOtherId(id: nat): Roundtrip -> bool {
    (x: Roundtrip) => x.id != id
  }

  /** The analyzer's only fault: `excludeMin` reads `_id` of undefined. */
  datatype Fault = MinOfEmpty

  /**
   * `excludeMin`. Its `_.minBy` is given an array iteratee, which lodash
   * reads as a property matcher: every entry maps to `false`, so the first
   * entry is selected; `_.remove` then drops every entry with that `_id`.
   */
  function ExcludeMin(s: seq<Roundtrip>): (r: Result<seq<Roundtrip>, Fault>)
    ensures r.Failure? <==> |s| == 0
    ensures r.Success? ==> |r.value| < |s|
    ensures r.Success? ==> forall x :: x in r.value <==> x in s && x.id != s[0].id
    ensures r.Success? ==> r.value == FilterBy(s[1..], HasOtherId(s[0].id))
  {
    if |s| == 0 then Failure(MinOfEmpty)
    else
      assert s == [s[0]] + s[1..];
      FilterByCons(s[0], s[1..], HasOtherId(s[0].id));
      Success(FilterBy(s, HasOtherId(s[0].id)))
  }

  /**
   * The page of the "more" strategy: `segment * 5` up to five entries on.
   * An undefined segment makes both bounds NaN, which `slice` reads as 0.
   */
  function Page(s: seq<Roundtrip>, segment: Option<int>): (page: seq<Roundtrip>)
    ensures |page| <= MoreTicketsLimit
    ensures forall x :: x in page ==> x in s
    ensures segment.None? ==> page == []
    ensures segment.Some? && segment.value >= 0 ==>
      var offset := segment.value * MoreTicketsLimit;
      |page| == (if |s| <= offset then 0
                 else if |s| - offset < MoreTicketsLimit then |s| - offset
                 else MoreTicketsLimit)
      && forall i :: 0 <= i < |page| ==> page[i] == s[offset + i]
  {
    match segment
    case None => Slice(s, 0, 0)
    case Some(k) => Slice(s, k * MoreTicketsLimit, k * MoreTicketsLimit + MoreTicketsLimit)
  }

  /** The message of the "more" strategy, chosen by the page length. */
  function MoreMessage(pageLength: nat, specificDate: Option<Date>): Message {
    if pageLength > 1 then MoreTicketsCheapestFirst
    else if pageLength == 1 then LastPairOfTickets
    else if specificDate.Some? then OnlyOneCheapestPairPerDay
    else NoMoreTickets
  }

  /** JavaScript truthiness of the price ceiling: absent and 0 are false. */
  predicate Truthy(ceiling: Option<int>) {
    ceiling.Some? && ceiling.value != 0
  }

  /** What a strategy picked, before it is shaped into a list. */
  datatype Picked = Nothing | One(entry: Roundtrip) | Many(entries: seq<Roundtrip>)

  function FromOption(o: Option<Roundtrip>): Picked {
    if o.Some? then One(o.value) else Nothing
  }

  /** A single entry becomes a one-element list; a list or nothing is kept. */
  function Wrap(p: Picked): Option<seq<Roundtrip>> {
    match p
    case Nothing => None
    case One(x) => Some([x])
    case Many(xs) => Some(xs)
  }

  /** What `analyze` resolves to. */
  datatype Outcome = Outcome(roundtrips: Option<seq<Roundtrip>>, message: Option<Message>)

  function BeyondTimespan(cfg: Config, m: Month): Message {
    MonthBeyondTimespanMessage(MonthName(m), cfg.timespan)
  }

  /** The catalog entries that match the normalised filter, in catalog order. */
  function Matching(catalog: seq<Roundtrip>, ctx: Context): seq<Roundtrip> {
    FilterBy(catalog, MatchesFilter(ctx.eq))
  }

  /**
   * "More": sort by cost then departure, drop the best-ranked entry with
   * `excludeMin`, and return the requested page with a message chosen by
   * its length.
   */
  function MoreStrategy(filtered: seq<Roundtrip>, specificDate: Option<Date>, segment: Option<int>)
    : Result<Outcome, Fault>
  {
    match ExcludeMin(SortByCostThenTime(filtered))
    case Failure(e) => Failure(e)
    case Success(rest) =>
      var page := Page(rest, segment);
      Success(Outcome(Wrap(Many(page)), Some(MoreMessage(|page|, specificDate))))
  }

  /**
   * Price ceiling: the earliest departure within the ceiling; failing that,
   * the cheapest entry together with the price message.
   */
  function CeilingStrategy(filtered: seq<Roundtrip>, ceiling: int): Outcome {
    var cheapEnough := FilterBy(filtered, CostAtMost(ceiling));
    if |cheapEnough| > 0 then
      Outcome(Wrap(FromOption(MinBy(cheapEnough, Datetime))), None)
    else
      Outcome(Wrap(FromOption(MinBy(filtered, TotalCost))), Some(NoTicketsWithGivenPrice(ceiling)))
  }

  /** Nothing for an explicit month. */
  function EmptyMonthStrategy(cfg: Config, m: Month): Outcome {
    Outcome(None, Some(
      if cfg.IsMonthWithinTimespan(m) then NoTicketsForGivenMonth(MonthName(m)) else BeyondTimespan(cfg, m)))
  }

  /** Nothing for a specific date, judged by the date's month. */
  function EmptyDateStrategy(cfg: Config, m: Month): Outcome {
    Outcome(None, Some(if cfg.IsMonthWithinTimespan(m) then NoTicketsForGivenDate else BeyondTimespan(cfg, m)))
  }

  /** The default: the cheapest entry, or nothing at all. */
  function CheapestStrategy(filtered: seq<Roundtrip>): Outcome {
    Outcome(Wrap(FromOption(MinBy(filtered, TotalCost))), None)
  }

  /** Equality filtering, then the first of the five strategies that applies. */
  function Select(cfg: Config, catalog: seq<Roundtrip>, ctx: Context, more: bool, segment: Option<int>)
    : Result<Outcome, Fault>
  {
    var filtered := Matching(catalog, ctx);
    if more then
      MoreStrategy(filtered, ctx.SpecificDate(), segment)
    else if Truthy(ctx.totalCost) then
      Success(CeilingStrategy(filtered, ctx.totalCost.value))
    else if ctx.eq.month.Some? && |filtered| == 0 then
      Success(EmptyMonthStrategy(cfg, ctx.eq.month.value))
    else if ctx.SpecificDate().Some? && |filtered| == 0 then
      Success(EmptyDateStrategy(cfg, ctx.SpecificDate().value.month))
    else
      Success(CheapestStrategy(filtered))
  }

  /** `analyze` as a function of the filter's value before the call. */
  function Analysis(cfg: Config, catalog: seq<Roundtrip>, v: FilterView, more: bool, segment: Option<int>)
    : Result<Outcome, Fault>
  {
    Select(cfg, catalog, Normalize(cfg, v), more, segment)
  }

  /**
   * `analyze`, with the catalog already retrieved. Its result is `Analysis`
   * of the filter as the caller passed it; afterwards the caller's ticket
   * object has lost a null date.
   */
  method Analyze(cfg: Config, catalog: seq<Roundtrip>, data: Request) returns (r: Result<Outcome, Fault>)
    modifies TicketObjects(data.filter)
    ensures r == Analysis(cfg, catalog, old(View(data.filter)), data.more, data.segment)
    ensures data.filter.originatingTicket.Some? ==>
      data.filter.originatingTicket.value.date ==
        if old(data.filter.originatingTicket.value.date) == Null then Unset
        else old(data.filter.originatingTicket.value.date)
  {
    var ctx := NormalizeFilter(cfg, data.filter);
    r := Select(cfg, catalog, ctx, data.more, data.segment);
  }
}
