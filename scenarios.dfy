/** Concrete requests and their outcomes. */
module Scenarios {
  import opened Wrappers
  import opened Catalog
  import opened Ranking
  import opened Analyzer
  import opened AnalyzerProperties

  const Spb := Route("spb", "msk")

  /** The catalog covers October and November (months 9 and 10). */
  const Cfg := Config(Spb, "any", {9, 10}, "october to november")

  /** An October entry on the default route that departs at instant `id`. */
  function Entry(id: nat, cost: int): Roundtrip {
    Roundtrip(id, cost, Ticket(Date(2016, 9, 1), id), Spb, "monday", 9)
  }

  const NoFilter := FilterView(None, None, None, None, None)

  /** Costs 10, 10, 20, 30: only the first 10 goes, the second one stays. */
  lemma ExcludeMinKeepsTiedCost()
    ensures ExcludeMin([Entry(1, 10), Entry(2, 10), Entry(3, 20), Entry(4, 30)])
         == Success([Entry(2, 10), Entry(3, 20), Entry(4, 30)])
  {
    var s := [Entry(1, 10), Entry(2, 10), Entry(3, 20), Entry(4, 30)];
    assert UniqueIds(s);
    ExcludeMinDropsHead(s);
  }

  /** No constraints: the cheaper of two entries, alone, and no message. */
  lemma NoConstraintsPicksCheapest()
    ensures Analysis(Cfg, [Entry(1, 100), Entry(2, 80)], NoFilter, false, None)
         == Success(Outcome(Some([Entry(2, 80)]), None))
  {
    var catalog := [Entry(1, 100), Entry(2, 80)];
    assert Filtered(Cfg, catalog, NoFilter) == catalog;
    CheapestBranch(Cfg, catalog, NoFilter, None);
    var r := Analysis(Cfg, catalog, NoFilter, false, None);
    assert IsFirstMin(catalog, TotalCost, Entry(2, 80)) by {
      assert catalog[1] == Entry(2, 80);
    }
    FirstMinUnique(catalog, TotalCost, r.value.roundtrips.value[0], Entry(2, 80));
  }

  /** December is asked for, nothing departs then, and it is within the span. */
  lemma EmptyDecemberWithinSpan()
    ensures Analysis(Cfg.(monthsWithinTimespan := {9, 10, 11}), [Entry(1, 100)],
                     NoFilter.(month := Some(11)), false, None)
         == Success(Outcome(None, Some(NoTicketsForGivenMonth("december"))))
  {
    var cfg := Cfg.(monthsWithinTimespan := {9, 10, 11});
    var v := NoFilter.(month := Some(11));
    assert !Matches(Normalize(cfg, v).eq, Entry(1, 100));
    assert Filtered(cfg, [Entry(1, 100)], v) == [];
    EmptyMonthBranch(cfg, [Entry(1, 100)], v, None);
  }

  /**
   * Two matching entries with different ids and a request for the first
   * page of more: the one ranked second is left, with `lastPairOfTickets`.
   */
  lemma MoreWithOneLeftover(cfg: Config, v: FilterView, a: Roundtrip, b: Roundtrip)
    requires Satisfies(cfg, v, a) && Satisfies(cfg, v, b)
    requires Ahead(b, a) && a.id != b.id
    ensures Analysis(cfg, [a, b], v, true, Some(0))
         == Success(Outcome(Some([a]), Some(LastPairOfTickets)))
  {
    var catalog := [a, b];
    assert Filtered(cfg, catalog, v) == catalog by {
      NormalizedFilterMeaning(cfg, v, a);
      NormalizedFilterMeaning(cfg, v, b);
      FilterByAll(catalog, MatchesFilter(Normalize(cfg, v).eq));
    }
    MoreDispatch(cfg, catalog, v, Some(0));
    MoreStrategyOnTwo(a, b, Normalize(cfg, v).SpecificDate());
  }

  lemma MoreStrategyOnTwo(a: Roundtrip, b: Roundtrip, specificDate: Option<Date>)
    requires Ahead(b, a) && a.id != b.id
    ensures MoreStrategy([a, b], specificDate, Some(0))
         == Success(Outcome(Some([a]), Some(LastPairOfTickets)))
  {
    SecondOfTwoIsLeft(a, b);
    OnePageOfOne(a);
    assert MoreMessage(1, specificDate) == LastPairOfTickets;
    assert Wrap(Many([a])) == Some([a]);
  }

  lemma OnePageOfOne(a: Roundtrip)
    ensures Page([a], Some(0)) == [a]
  {
    var page := Page([a], Some(0));
    assert |page| == 1 && page[0] == a;
  }

  /** Sorting two entries and excluding the first leaves the one ranked second. */
  lemma SecondOfTwoIsLeft(a: Roundtrip, b: Roundtrip)
    requires Ahead(b, a) && a.id != b.id
    ensures ExcludeMin(SortByCostThenTime([a, b])) == Success([a])
  {
    SortTwo(a, b);
    ExcludeMinDropsHead([b, a]);
    assert [b, a][1..] == [a];
  }

  lemma SortTwo(a: Roundtrip, b: Roundtrip)
    requires Ahead(b, a)
    ensures SortByCostThenTime([a, b]) == [b, a]
  {
    assert [a, b][1..] == [b];
    assert SortByCostThenTime([b]) == [b];
  }
}
