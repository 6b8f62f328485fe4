/** What `analyze` promises, stated over the caller's filter as it was passed. */
module AnalyzerProperties {
  import opened Wrappers
  import opened Catalog
  import opened Ranking
  import opened Analyzer

  /** The catalog entries the analyzer considers: those matching the normalised filter. */
  function Filtered(cfg: Config, catalog: seq<Roundtrip>, v: FilterView): seq<Roundtrip> {
    Matching(catalog, Normalize(cfg, v))
  }

  /** The caller has asked for one specific date (not an absent or null one). */
  predicate HasSpecificDate(v: FilterView) {
    v.ticketDate.Some? && v.ticketDate.value.At?
  }

  /**
   * The constraints a caller's filter places on an entry: the given route or
   * the default one, the month if given, the weekday unless it is "any", the
   * date unless it is absent or null. The ceiling places none.
   */
  predicate Satisfies(cfg: Config, v: FilterView, x: Roundtrip) {
    x.route == (if v.route.Some? then v.route.value else cfg.defaultRoute)
    && (v.month.Some? ==> x.month == v.month.value)
    && (v.weekday.Some? && v.weekday.value != cfg.anyWeekday ==> x.weekday == v.weekday.value)
    && (HasSpecificDate(v) ==> x.originatingTicket.date == v.ticketDate.value.date)
  }

  /** Normalisation keeps exactly the caller's constraints as equality tests. */
  lemma NormalizedFilterMeaning(cfg: Config, v: FilterView, x: Roundtrip)
    ensures Matches(Normalize(cfg, v).eq, x) <==> Satisfies(cfg, v, x)
  {
  }

  /** An entry is in the filtered list exactly when it is in the catalog and satisfies the filter. */
  lemma FilteredMeaning(cfg: Config, catalog: seq<Roundtrip>, v: FilterView, x: Roundtrip)
    ensures x in Filtered(cfg, catalog, v) <==> x in catalog && Satisfies(cfg, v, x)
  {
    NormalizedFilterMeaning(cfg, v, x);
  }

  /** Every roundtrip returned, whatever the branch, is a catalog entry that satisfies the filter. */
  lemma ReturnedEntriesMatch(cfg: Config, catalog: seq<Roundtrip>, v: FilterView, more: bool, segment: Option<int>)
    ensures var r := Analysis(cfg, catalog, v, more, segment);
      r.Success? && r.value.roundtrips.Some? ==>
        forall x :: x in r.value.roundtrips.value ==> x in catalog && Satisfies(cfg, v, x)
  {
    var filtered := Filtered(cfg, catalog, v);
    var r := Analysis(cfg, catalog, v, more, segment);
    if r.Success? && r.value.roundtrips.Some? {
      ReturnedAreFiltered(cfg, catalog, v, more, segment);
      forall x | x in r.value.roundtrips.value
        ensures x in catalog && Satisfies(cfg, v, x)
      {
        FilteredMeaning(cfg, catalog, v, x);
      }
    }
  }

  lemma ReturnedAreFiltered(cfg: Config, catalog: seq<Roundtrip>, v: FilterView, more: bool, segment: Option<int>)
    ensures var r := Analysis(cfg, catalog, v, more, segment);
      r.Success? && r.value.roundtrips.Some? ==>
        forall x :: x in r.value.roundtrips.value ==> x in Filtered(cfg, catalog, v)
  {
    var ctx := Normalize(cfg, v);
    var filtered := Filtered(cfg, catalog, v);
    var r := Analysis(cfg, catalog, v, more, segment);
    if more {
      var sorted := SortByCostThenTime(filtered);
      if |sorted| > 0 {
        var rest := FilterBy(sorted, HasOtherId(sorted[0].id));
        var page := Page(rest, segment);
        assert r.value.roundtrips == Some(page);
        forall x | x in page
          ensures x in filtered
        {
          assert x in multiset(sorted);
        }
      }
    } else if Truthy(ctx.totalCost) {
      var cheapEnough := FilterBy(filtered, CostAtMost(ctx.totalCost.value));
      if |cheapEnough| > 0 {
        assert r.value.roundtrips == Some([MinBy(cheapEnough, Datetime).value]);
      } else if |filtered| > 0 {
        assert r.value.roundtrips == Some([MinBy(filtered, TotalCost).value]);
      }
    } else if |filtered| > 0 {
      assert r.value.roundtrips == Some([MinBy(filtered, TotalCost).value]);
    }
  }

  /** With `more`, `analyze` is the "more" strategy on the matches. */
  lemma MoreDispatch(cfg: Config, catalog: seq<Roundtrip>, v: FilterView, segment: Option<int>)
    ensures Analysis(cfg, catalog, v, true, segment)
         == MoreStrategy(Filtered(cfg, catalog, v), Normalize(cfg, v).SpecificDate(), segment)
  {
  }

  /** A weekday equal to the "any" value behaves exactly like no weekday at all. */
  lemma AnyWeekdayIsNoConstraint(cfg: Config, catalog: seq<Roundtrip>, v: FilterView, more: bool, segment: Option<int>)
    requires v.weekday == Some(cfg.anyWeekday)
    ensures Analysis(cfg, catalog, v, more, segment) == Analysis(cfg, catalog, v.(weekday := None), more, segment)
  {
  }

  /** The price ceiling never takes part in the equality filter. */
  lemma CeilingIsNoEqualityTest(cfg: Config, v: FilterView, ceiling: Option<int>)
    ensures Normalize(cfg, v).eq == Normalize(cfg, v.(totalCost := ceiling)).eq
  {
  }

  /** A ceiling of 0 is falsy, so it is treated like no ceiling at all. */
  lemma ZeroCeilingIsNoCeiling(cfg: Config, catalog: seq<Roundtrip>, v: FilterView, more: bool, segment: Option<int>)
    requires v.totalCost == Some(0)
    ensures Analysis(cfg, catalog, v, more, segment) == Analysis(cfg, catalog, v.(totalCost := None), more, segment)
  {
  }

  /**
   * The date the first call deletes from the caller's ticket object was
   * `null`, which already constrains nothing: the outcome is the same.
   */
  lemma NullDateLikeUnset(cfg: Config, catalog: seq<Roundtrip>, v: FilterView, more: bool, segment: Option<int>)
    requires v.ticketDate == Some(Null)
    ensures Analysis(cfg, catalog, v, more, segment) == Analysis(cfg, catalog, v.(ticketDate := Some(Unset)), more, segment)
  {
  }

  /**
   * Repeating `analyze` on the same request, after the first call has
   * changed the caller's ticket object, gives the same result.
   */
  method AnalyzeTwice(cfg: Config, catalog: seq<Roundtrip>, data: Request) returns (first: Result<Outcome, Fault>, second: Result<Outcome, Fault>)
    modifies TicketObjects(data.filter)
    ensures first == second
  {
    ghost var v0 := View(data.filter);
    first := Analyze(cfg, catalog, data);
    ghost var v1 := View(data.filter);
    if v0.ticketDate == Some(Null) {
      assert v1 == v0.(ticketDate := Some(Unset));
      NullDateLikeUnset(cfg, catalog, v0, data.more, data.segment);
    } else {
      assert v1 == v0;
    }
    second := Analyze(cfg, catalog, data);
  }

  /** A sorted list stays sorted when elements are dropped from it. */
  lemma {:induction false} FilterBySorted(s: seq<Roundtrip>, p: Roundtrip -> bool)
    requires Sorted(s)
    ensures Sorted(FilterBy(s, p))
  {
    if |s| > 0 {
      FilterBySorted(s[1..], p);
      var rest := FilterBy(s[1..], p);
      forall j | 0 <= j < |rest|
        ensures !Ahead(rest[j], s[0])
      {
        assert rest[j] in s[1..];
        var k :| 0 <= k < |s[1..]| && s[1..][k] == rest[j];
        assert s[k + 1] == rest[j];
      }
    }
  }

  lemma SliceSorted(s: seq<Roundtrip>, start: int, end: int)
    requires Sorted(s)
    ensures Sorted(Slice(s, start, end))
  {
  }

  /**
   * The "more" strategy: it fails exactly when nothing matches; otherwise it
   * returns at most five entries, sorted by cost then departure, none of
   * which shares the id of the best-ranked match, and its message depends
   * only on how many entries the page holds.
   */
  lemma MoreBranch(cfg: Config, catalog: seq<Roundtrip>, v: FilterView, segment: Option<int>)
    ensures var filtered := Filtered(cfg, catalog, v);
      var r := Analysis(cfg, catalog, v, true, segment);
      (r.Failure? <==> |filtered| == 0)
      && (r.Success? ==>
        r.value.roundtrips.Some?
        && var page := r.value.roundtrips.value;
        |page| <= MoreTicketsLimit
        && Sorted(page)
        && (forall x :: x in page ==> x in filtered && x.id != SortByCostThenTime(filtered)[0].id)
        && r.value.message == Some(
             if |page| > 1 then MoreTicketsCheapestFirst
             else if |page| == 1 then LastPairOfTickets
             else if HasSpecificDate(v) then OnlyOneCheapestPairPerDay
             else NoMoreTickets))
  {
    var filtered := Filtered(cfg, catalog, v);
    var sorted := SortByCostThenTime(filtered);
    if |sorted| > 0 {
      var rest := FilterBy(sorted, HasOtherId(sorted[0].id));
      assert ExcludeMin(sorted) == Success(rest);
      FilterBySorted(sorted, HasOtherId(sorted[0].id));
      forall x | x in rest
        ensures x in filtered
      {
        assert x in multiset(sorted);
      }
      match segment
      case None =>
      case Some(k) =>
        SliceSorted(rest, k * MoreTicketsLimit, k * MoreTicketsLimit + MoreTicketsLimit);
    } else {
      assert multiset(filtered) == multiset{};
    }
  }

  /** No two entries share an id. */
  predicate UniqueIds(s: seq<Roundtrip>) {
    forall i, j :: 0 <= i < |s| && 0 <= j < |s| && i != j ==> s[i].id != s[j].id
  }

  lemma UniqueIdsCons(x: Roundtrip, t: seq<Roundtrip>)
    requires UniqueIds(t)
    requires forall y :: y in t ==> y.id != x.id
    ensures UniqueIds([x] + t)
  {
    var s := [x] + t;
    forall i, j | 0 <= i < |s| && 0 <= j < |s| && i != j
      ensures s[i].id != s[j].id
    {
      if i > 0 && j > 0 {
        assert s[i] == t[i - 1] && s[j] == t[j - 1];
      } else if i == 0 {
        assert s[j] in t;
      } else {
        assert s[i] in t;
      }
    }
  }

  lemma {:induction false} FilterByKeepsUniqueIds(s: seq<Roundtrip>, p: Roundtrip -> bool)
    requires UniqueIds(s)
    ensures UniqueIds(FilterBy(s, p))
  {
    if |s| > 0 {
      assert UniqueIds(s[1..]) by {
        forall i, j | 0 <= i < |s[1..]| && 0 <= j < |s[1..]| && i != j
          ensures s[1..][i].id != s[1..][j].id
        {
          assert s[1..][i] == s[i + 1] && s[1..][j] == s[j + 1];
        }
      }
      FilterByKeepsUniqueIds(s[1..], p);
      var rest := FilterBy(s[1..], p);
      forall y | y in rest
        ensures y.id != s[0].id
      {
        var k :| 0 <= k < |s[1..]| && s[1..][k] == y;
        assert s[k + 1] == y;
      }
      if p(s[0]) {
        UniqueIdsCons(s[0], rest);
      } else {
        assert FilterBy(s, p) == rest;
      }
    }
  }

  lemma {:induction false} InsertKeepsUniqueIds(x: Roundtrip, t: seq<Roundtrip>)
    requires UniqueIds(t)
    requires forall y :: y in t ==> y.id != x.id
    ensures UniqueIds(Insert(x, t))
  {
    if |t| == 0 || !Ahead(t[0], x) {
      UniqueIdsCons(x, t);
    } else {
      var t1 := t[1..];
      assert UniqueIds(t1) by {
        forall i, j | 0 <= i < |t1| && 0 <= j < |t1| && i != j
          ensures t1[i].id != t1[j].id
        {
          assert t1[i] == t[i + 1] && t1[j] == t[j + 1];
        }
      }
      InsertKeepsUniqueIds(x, t1);
      var rest := Insert(x, t1);
      forall y | y in rest
        ensures y.id != t[0].id
      {
        assert y in multiset(rest);
        if y != x {
          var k :| 0 <= k < |t1| && t1[k] == y;
          assert t[k + 1] == y;
        }
      }
      UniqueIdsCons(t[0], rest);
    }
  }

  lemma {:induction false} SortKeepsUniqueIds(s: seq<Roundtrip>)
    requires UniqueIds(s)
    ensures UniqueIds(SortByCostThenTime(s))
  {
    if |s| > 0 {
      var s1 := s[1..];
      assert UniqueIds(s1) by {
        forall i, j | 0 <= i < |s1| && 0 <= j < |s1| && i != j
          ensures s1[i].id != s1[j].id
        {
          assert s1[i] == s[i + 1] && s1[j] == s[j + 1];
        }
      }
      SortKeepsUniqueIds(s1);
      var sorted := SortByCostThenTime(s1);
      forall y | y in sorted
        ensures y.id != s[0].id
      {
        assert y in multiset(sorted);
        var k :| 0 <= k < |s1| && s1[k] == y;
        assert s[k + 1] == y;
      }
      InsertKeepsUniqueIds(s[0], sorted);
    }
  }

  /**
   * When no other entry shares the head's id (as with unique ids),
   * `excludeMin` drops exactly the head and keeps the rest in order.
   */
  lemma ExcludeMinDropsHead(s: seq<Roundtrip>)
    requires |s| > 0
    requires forall i :: 0 < i < |s| ==> s[i].id != s[0].id
    ensures ExcludeMin(s) == Success(s[1..])
  {
    forall i | 0 <= i < |s[1..]|
      ensures HasOtherId(s[0].id)(s[1..][i])
    {
      assert s[1..][i] == s[i + 1];
    }
    var p := HasOtherId(s[0].id);
    FilterByAll(s[1..], p);
    FilterByCons(s[0], s[1..], p);
    assert !p(s[0]);
    assert s == [s[0]] + s[1..];
    assert FilterBy(s, p) == FilterBy(s[1..], p);
  }

  /**
   * With unique ids, page `k` of the "more" strategy is the sorted matches
   * from offset `1 + 5k` on, at most five of them: the best-ranked match is
   * skipped and the rest is paged.
   */
  lemma MorePageOfSortedMatches(cfg: Config, catalog: seq<Roundtrip>, v: FilterView, k: nat)
    requires UniqueIds(catalog)
    requires |Filtered(cfg, catalog, v)| > 0
    ensures var sorted := SortByCostThenTime(Filtered(cfg, catalog, v));
      var offset := 1 + k * MoreTicketsLimit;
      var r := Analysis(cfg, catalog, v, true, Some(k));
      r.Success? && r.value.roundtrips.Some?
      && var page := r.value.roundtrips.value;
      |page| == (if |sorted| <= offset then 0
                 else if |sorted| - offset < MoreTicketsLimit then |sorted| - offset
                 else MoreTicketsLimit)
      && forall i :: 0 <= i < |page| ==> page[i] == sorted[offset + i]
  {
    var ctx := Normalize(cfg, v);
    var filtered := Filtered(cfg, catalog, v);
    var sorted := SortByCostThenTime(filtered);
    MoreDispatch(cfg, catalog, v, Some(k));
    SortedMatchesKeepUniqueIds(catalog, ctx.eq);
    MoreStrategyPagesTail(filtered, ctx.SpecificDate(), k);
    PageOfTail(sorted, k);
  }

  /** When only the head has its id, the "more" strategy pages the sorted tail. */
  lemma MoreStrategyPagesTail(filtered: seq<Roundtrip>, specificDate: Option<Date>, k: nat)
    requires var sorted := SortByCostThenTime(filtered);
      |sorted| > 0 && forall i :: 0 < i < |sorted| ==> sorted[i].id != sorted[0].id
    ensures var r := MoreStrategy(filtered, specificDate, Some(k));
      r.Success? && r.value.roundtrips == Some(Page(SortByCostThenTime(filtered)[1..], Some(k)))
  {
    ExcludeMinDropsHead(SortByCostThenTime(filtered));
  }

  /** Page `k` of the tail of `s` holds the entries of `s` from offset `1 + 5k`. */
  lemma PageOfTail(s: seq<Roundtrip>, k: nat)
    requires |s| > 0
    ensures var page := Page(s[1..], Some(k));
      var offset := 1 + k * MoreTicketsLimit;
      |page| == (if |s| <= offset then 0
                 else if |s| - offset < MoreTicketsLimit then |s| - offset
                 else MoreTicketsLimit)
      && forall i :: 0 <= i < |page| ==> page[i] == s[offset + i]
  {
  }

  /** Sorting the matches of a catalog with unique ids keeps the ids unique and the length. */
  lemma SortedMatchesKeepUniqueIds(catalog: seq<Roundtrip>, eq: EqualityFilter)
    requires UniqueIds(catalog)
    ensures var sorted := SortByCostThenTime(FilterBy(catalog, MatchesFilter(eq)));
      |sorted| == |FilterBy(catalog, MatchesFilter(eq))|
      && forall i :: 0 < i < |sorted| ==> sorted[i].id != sorted[0].id
  {
    var filtered := FilterBy(catalog, MatchesFilter(eq));
    FilterByKeepsUniqueIds(catalog, MatchesFilter(eq));
    SortKeepsUniqueIds(filtered);
    var sorted := SortByCostThenTime(filtered);
    assert |sorted| == |filtered| by {
      assert |multiset(sorted)| == |multiset(filtered)|;
    }
    forall i | 0 < i < |sorted|
      ensures sorted[i].id != sorted[0].id
    {
      assert UniqueIds(sorted);
    }
  }

  /**
   * The price-ceiling strategy (no "more", a truthy ceiling): the earliest
   * departing entry within the ceiling, the first one on ties, and no
   * message; or, when none is within it, the price message with the
   * cheapest match (first on ties), or nothing when nothing matches.
   */
  lemma PriceCeilingBranch(cfg: Config, catalog: seq<Roundtrip>, v: FilterView, segment: Option<int>)
    requires Truthy(v.totalCost)
    ensures var ceiling := v.totalCost.value;
      var filtered := Filtered(cfg, catalog, v);
      var r := Analysis(cfg, catalog, v, false, segment);
      r.Success? && CeilingOutcome(filtered, ceiling, r.value)
  {
    var filtered := Filtered(cfg, catalog, v);
    assert Analysis(cfg, catalog, v, false, segment) == Success(CeilingStrategy(filtered, v.totalCost.value));
    CeilingStrategyMeaning(filtered, v.totalCost.value);
  }

  /**
   * What the price-ceiling strategy promises about its outcome `o` for the
   * matches `filtered` and the ceiling.
   */
  predicate CeilingOutcome(filtered: seq<Roundtrip>, ceiling: int, o: Outcome) {
    var cheapEnough := FilterBy(filtered, CostAtMost(ceiling));
    if exists x :: x in filtered && x.totalCost <= ceiling then
      o.message == None
      && o.roundtrips.Some? && |o.roundtrips.value| == 1
      && o.roundtrips.value[0] in filtered
      && o.roundtrips.value[0].totalCost <= ceiling
      && IsFirstMin(cheapEnough, Datetime, o.roundtrips.value[0])
    else
      o.message == Some(NoTicketsWithGivenPrice(ceiling))
      && (|filtered| == 0 ==> o.roundtrips == None)
      && (|filtered| > 0 ==>
            o.roundtrips.Some? && |o.roundtrips.value| == 1
            && IsFirstMin(filtered, TotalCost, o.roundtrips.value[0]))
  }

  lemma CeilingStrategyMeaning(filtered: seq<Roundtrip>, ceiling: int)
    ensures CeilingOutcome(filtered, ceiling, CeilingStrategy(filtered, ceiling))
  {
    var cheapEnough := FilterBy(filtered, CostAtMost(ceiling));
    assert |cheapEnough| > 0 ==> cheapEnough[0] in cheapEnough;
    if exists x :: x in filtered && x.totalCost <= ceiling {
      var x :| x in filtered && x.totalCost <= ceiling;
      assert CostAtMost(ceiling)(x);
      assert x in cheapEnough;
    }
  }

  /**
   * Nothing matches an explicit month (no "more", no truthy ceiling): no
   * roundtrips, and a message naming the month, which also gives the span
   * when the month lies outside it.
   */
  lemma EmptyMonthBranch(cfg: Config, catalog: seq<Roundtrip>, v: FilterView, segment: Option<int>)
    requires !Truthy(v.totalCost) && v.month.Some?
    requires |Filtered(cfg, catalog, v)| == 0
    ensures var m := v.month.value;
      Analysis(cfg, catalog, v, false, segment) == Success(Outcome(None, Some(
        if m in cfg.monthsWithinTimespan then NoTicketsForGivenMonth(MonthNames[m])
        else MonthBeyondTimespanMessage(MonthNames[m], cfg.timespan))))
  {
  }

  /**
   * Nothing matches a specific date and no month was given (no "more", no
   * truthy ceiling): no roundtrips, and a message judged by the date's month.
   */
  lemma EmptyDateBranch(cfg: Config, catalog: seq<Roundtrip>, v: FilterView, segment: Option<int>)
    requires !Truthy(v.totalCost) && v.month.None? && HasSpecificDate(v)
    requires |Filtered(cfg, catalog, v)| == 0
    ensures var m := v.ticketDate.value.date.month;
      Analysis(cfg, catalog, v, false, segment) == Success(Outcome(None, Some(
        if m in cfg.monthsWithinTimespan then NoTicketsForGivenDate
        else MonthBeyondTimespanMessage(MonthNames[m], cfg.timespan))))
  {
  }

  /**
   * The default strategy (no "more", no truthy ceiling, and not an empty
   * month or date search): the cheapest match, the first on ties, with no
   * message; nothing at all when nothing matches.
   */
  lemma CheapestBranch(cfg: Config, catalog: seq<Roundtrip>, v: FilterView, segment: Option<int>)
    requires !Truthy(v.totalCost)
    requires |Filtered(cfg, catalog, v)| > 0 || (v.month.None? && !HasSpecificDate(v))
    ensures var filtered := Filtered(cfg, catalog, v);
      var r := Analysis(cfg, catalog, v, false, segment);
      r.Success? && r.value.message == None
      && (|filtered| == 0 <==> r.value.roundtrips == None)
      && (|filtered| > 0 ==>
            r.value.roundtrips.Some? && |r.value.roundtrips.value| == 1
            && IsFirstMin(filtered, TotalCost, r.value.roundtrips.value[0]))
  {
  }
}
