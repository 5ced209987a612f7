/**
 * The toilet list store of the companion app
 * (`src/store/useToiletStore.js`): the full list of toilets, the list
 * left after the active filters, the selected toilet and the filters.
 *
 * A toilet's missing fields are explicit: `hours`, `rating` and
 * `toiletType` are optional and a missing one never passes a filter on it;
 * a missing `pmrAccessible` reads as false.
 */
module ToiletStore {
  import opened Wrappers

  datatype Toilet = Toilet(
    id: int,
    name: string,
    pmrAccessible: bool,
    hours: Option<string>,
    rating: Option<real>,
    toiletType: Option<string>)

  datatype Filters = Filters(pmrAccessible: bool, open24Hours: bool, minRating: real, types: seq<string>)

  const DefaultFilters := Filters(false, false, 0.0, [])

  /** The `hours` value of a toilet open around the clock. */
  const AllDay: string := "24/7"

  /** One of the four filters of `applyFilters`. */
  datatype Criterion = Accessible | OpenAllDay | RatedAtLeast(min: real) | OfType(types: seq<string>)

  predicate Satisfies(t: Toilet, c: Criterion) {
    match c
    case Accessible => t.pmrAccessible
    case OpenAllDay => t.hours == Some(AllDay)
    case RatedAtLeast(min) => t.rating.Some? && t.rating.value >= min
    case OfType(types) => t.toiletType.Some? && t.toiletType.value in types
  }

  /** `list.filter(t => Satisfies(t, c))`. */
  function Keep(ts: seq<Toilet>, c: Criterion): (r: seq<Toilet>)
    ensures |r| <= |ts|
    ensures forall t | t in r :: t in ts && Satisfies(t, c)
  {
    if ts == [] then []
    else (if Satisfies(ts[0], c) then [ts[0]] else []) + Keep(ts[1..], c)
  }

  /** `applyFilters`: each active filter, in source order, narrows the list
      left by the previous ones. */
  function Filtered(ts: seq<Toilet>, f: Filters): (r: seq<Toilet>)
    ensures |r| <= |ts|
    ensures forall t | t in r :: t in ts && Matches(t, f)
  {
    var byAccess := if f.pmrAccessible then Keep(ts, Accessible) else ts;
    var byHours := if f.open24Hours then Keep(byAccess, OpenAllDay) else byAccess;
    var byRating := if f.minRating > 0.0 then Keep(byHours, RatedAtLeast(f.minRating)) else byHours;
    if |f.types| > 0 then Keep(byRating, OfType(f.types)) else byRating
  }

  /** The reference: a toilet belongs in the filtered list when it meets
      every filter that is switched on. */
  predicate Matches(t: Toilet, f: Filters) {
    && (f.pmrAccessible ==> t.pmrAccessible)
    && (f.open24Hours ==> t.hours == Some(AllDay))
    && (f.minRating > 0.0 ==> t.rating.Some? && t.rating.value >= f.minRating)
    && (|f.types| > 0 ==> t.toiletType.Some? && t.toiletType.value in f.types)
  }

  // ---------------------------------------------------------------------
  // Several filters at once
  // ---------------------------------------------------------------------

  /** The filters that are switched on, in the order they are applied. */
  function ActiveCriteria(f: Filters): seq<Criterion> {
    (if f.pmrAccessible then [Accessible] else [])
    + (if f.open24Hours then [OpenAllDay] else [])
    + (if f.minRating > 0.0 then [RatedAtLeast(f.minRating)] else [])
    + (if |f.types| > 0 then [OfType(f.types)] else [])
  }

  predicate PassesAll(t: Toilet, cs: seq<Criterion>) {
    forall i | 0 <= i < |cs| :: Satisfies(t, cs[i])
  }

  /** One pass keeping the toilets that meet all of `cs`. */
  function KeepAll(ts: seq<Toilet>, cs: seq<Criterion>): seq<Toilet> {
    if ts == [] then []
    else (if PassesAll(ts[0], cs) then [ts[0]] else []) + KeepAll(ts[1..], cs)
  }

  /** The elements of `ys` where `mask` is true, in order. */
  function Pick(ys: seq<Toilet>, mask: seq<bool>): seq<Toilet>
    requires |mask| == |ys|
  {
    if ys == [] then []
    else (if mask[0] then [ys[0]] else []) + Pick(ys[1..], mask[1..])
  }

  /** `xs` is `ys` with some elements left out and the rest in order. */
  ghost predicate IsSubsequence(xs: seq<Toilet>, ys: seq<Toilet>) {
    exists mask: seq<bool> | |mask| == |ys| :: xs == Pick(ys, mask)
  }

  /** Which toilets `KeepAll` keeps. */
  function PassMask(ts: seq<Toilet>, cs: seq<Criterion>): (mask: seq<bool>)
    ensures |mask| == |ts|
  {
    if ts == [] then [] else [PassesAll(ts[0], cs)] + PassMask(ts[1..], cs)
  }

  /** Keeping with no criteria keeps everything. */
  lemma {:induction false} KeepAllNothing(ts: seq<Toilet>)
    ensures KeepAll(ts, []) == ts
  {
    if ts != [] {
      KeepAllNothing(ts[1..]);
      assert ts == [ts[0]] + ts[1..];
    }
  }

  /** Filtering the survivors of `cs` by `c` is keeping by `cs + [c]`. */
  lemma {:induction false} KeepAfterKeepAll(ts: seq<Toilet>, cs: seq<Criterion>, c: Criterion)
    ensures Keep(KeepAll(ts, cs), c) == KeepAll(ts, cs + [c])
  {
    if ts != [] {
      KeepAfterKeepAll(ts[1..], cs, c);
      var t := ts[0];
      assert PassesAll(t, cs + [c]) <==> PassesAll(t, cs) && Satisfies(t, c) by {
        assert (cs + [c])[|cs|] == c;
        assert forall i | 0 <= i < |cs| :: (cs + [c])[i] == cs[i];
      }
      var rest := KeepAll(ts[1..], cs);
      if PassesAll(t, cs) {
        assert KeepAll(ts, cs) == [t] + rest;
        assert ([t] + rest)[1..] == rest;
      } else {
        assert KeepAll(ts, cs) == rest;
      }
    }
  }

  /** The chain of `filter` calls is one pass with the active filters. */
  lemma FilteredIsKeepAll(ts: seq<Toilet>, f: Filters)
    ensures Filtered(ts, f) == KeepAll(ts, ActiveCriteria(f))
  {
    var c1 := if f.pmrAccessible then [Accessible] else [];
    var c2 := c1 + (if f.open24Hours then [OpenAllDay] else []);
    var c3 := c2 + (if f.minRating > 0.0 then [RatedAtLeast(f.minRating)] else []);
    var c4 := c3 + (if |f.types| > 0 then [OfType(f.types)] else []);
    assert c4 == ActiveCriteria(f);
    KeepAllNothing(ts);
    KeepAfterKeepAll(ts, [], Accessible);
    KeepAfterKeepAll(ts, c1, OpenAllDay);
    KeepAfterKeepAll(ts, c2, RatedAtLeast(f.minRating));
    KeepAfterKeepAll(ts, c3, OfType(f.types));
    assert [] + [Accessible] == [Accessible];
    assert c1 + [] == c1 && c2 + [] == c2 && c3 + [] == c3;
  }

  /** Meeting every active criterion is meeting the reference predicate. */
  lemma MatchesIsPassingActiveCriteria(t: Toilet, f: Filters)
    ensures Matches(t, f) <==> PassesAll(t, ActiveCriteria(f))
  {
    var cs := ActiveCriteria(f);
    if Matches(t, f) {
      forall i | 0 <= i < |cs|
        ensures Satisfies(t, cs[i])
      {
        assert cs[i] in cs;
      }
    } else {
      if f.pmrAccessible && !t.pmrAccessible {
        assert cs[0] == Accessible;
      } else if f.open24Hours && t.hours != Some(AllDay) {
        assert OpenAllDay in cs;
      } else if f.minRating > 0.0 && !(t.rating.Some? && t.rating.value >= f.minRating) {
        assert RatedAtLeast(f.minRating) in cs;
      } else {
        assert OfType(f.types) in cs;
      }
    }
  }

  /** A pass keeps a subsequence of its input: the toilets its mask
      marks, in order. */
  lemma {:induction false} KeepAllIsPick(ts: seq<Toilet>, cs: seq<Criterion>)
    ensures KeepAll(ts, cs) == Pick(ts, PassMask(ts, cs))
  {
    if ts != [] {
      KeepAllIsPick(ts[1..], cs);
      assert PassMask(ts, cs)[1..] == PassMask(ts[1..], cs);
    }
  }

  /** A pass keeps each toilet that meets every criterion as often as it
      occurs, and no other. */
  lemma {:induction false} KeepAllCounts(ts: seq<Toilet>, cs: seq<Criterion>)
    ensures forall t :: multiset(KeepAll(ts, cs))[t] == if PassesAll(t, cs) then multiset(ts)[t] else 0
  {
    if ts != [] {
      KeepAllCounts(ts[1..], cs);
      assert ts == [ts[0]] + ts[1..];
      assert multiset(ts) == multiset{ts[0]} + multiset(ts[1..]);
    }
  }

  /** Filtering twice with one criterion list is filtering once. */
  lemma {:induction false} KeepAllIsIdempotent(ts: seq<Toilet>, cs: seq<Criterion>)
    ensures KeepAll(KeepAll(ts, cs), cs) == KeepAll(ts, cs)
  {
    if ts != [] {
      KeepAllIsIdempotent(ts[1..], cs);
      var rest := KeepAll(ts[1..], cs);
      if PassesAll(ts[0], cs) {
        assert KeepAll(ts, cs) == [ts[0]] + rest;
        assert ([ts[0]] + rest)[1..] == rest;
      } else {
        assert KeepAll(ts, cs) == rest;
      }
    }
  }

  /** `applyFilters` keeps, in order, exactly the toilets that meet every
      active filter, each as often as it occurs in the full list. */
  lemma FilteredIsSoundAndComplete(ts: seq<Toilet>, f: Filters)
    ensures IsSubsequence(Filtered(ts, f), ts)
    ensures forall t :: multiset(Filtered(ts, f))[t] == if Matches(t, f) then multiset(ts)[t] else 0
    ensures forall t | t in Filtered(ts, f) :: Matches(t, f)
    ensures forall t | t in ts && Matches(t, f) :: t in Filtered(ts, f)
  {
    var cs := ActiveCriteria(f);
    FilteredIsKeepAll(ts, f);
    KeepAllIsPick(ts, cs);
    KeepAllCounts(ts, cs);
    forall t
      ensures multiset(Filtered(ts, f))[t] == if Matches(t, f) then multiset(ts)[t] else 0
    {
      MatchesIsPassingActiveCriteria(t, f);
    }
  }

  /** Re-applying the same filters changes nothing. */
  lemma FilteredIsIdempotent(ts: seq<Toilet>, f: Filters)
    ensures Filtered(Filtered(ts, f), f) == Filtered(ts, f)
  {
    FilteredIsKeepAll(ts, f);
    FilteredIsKeepAll(Filtered(ts, f), f);
    KeepAllIsIdempotent(ts, ActiveCriteria(f));
  }

  /** The default filters keep the whole list. */
  lemma DefaultFiltersKeepEverything(ts: seq<Toilet>)
    ensures Filtered(ts, DefaultFilters) == ts
  {
  }

  /** The whole list is a subsequence of itself. */
  lemma {:induction false} PickAll(ys: seq<Toilet>)
    ensures Pick(ys, seq(|ys|, _ => true)) == ys
  {
    if ys != [] {
      PickAll(ys[1..]);
      assert seq(|ys|, _ => true)[1..] == seq(|ys| - 1, _ => true);
      assert ys == [ys[0]] + ys[1..];
    }
  }

  // ---------------------------------------------------------------------
  // The store
  // ---------------------------------------------------------------------

  class Store {
    var toilets: seq<Toilet>
    var filteredToilets: seq<Toilet>
    var selectedToilet: Option<Toilet>
    var filters: Filters

    /** The filtered list is always drawn, in order, from the full list. */
    ghost predicate Valid()
      reads this
    {
      IsSubsequence(filteredToilets, toilets)
    }

    /** The store as `setToilets(initial)` leaves it, from the defaults. */
    constructor (initial: seq<Toilet>)
      ensures Valid()
      ensures toilets == initial && filteredToilets == initial
      ensures selectedToilet == None && filters == DefaultFilters
    {
      toilets := [];
      filteredToilets := [];
      selectedToilet := None;
      filters := DefaultFilters;
      new;
      SetToilets(initial);
    }

    /** `setToilets`: both lists become the new list, whatever the filters. */
    method SetToilets(ts: seq<Toilet>)
      modifies this`toilets, this`filteredToilets
      ensures Valid()
      ensures toilets == ts && filteredToilets == ts
    {
      toilets := ts;
      filteredToilets := ts;
      PickAll(ts);
    }

    method SetSelectedToilet(toilet: Option<Toilet>)
      modifies this`selectedToilet
      ensures selectedToilet == toilet
    {
      selectedToilet := toilet;
    }

    /** `setFilters`: store the filters, then re-filter the full list. */
    method SetFilters(f: Filters)
      modifies this`filters, this`filteredToilets
      ensures Valid()
      ensures filters == f && filteredToilets == Filtered(toilets, f)
    {
      filters := f;
      ApplyFilters();
    }

    method ApplyFilters()
      modifies this`filteredToilets
      ensures Valid()
      ensures filteredToilets == Filtered(toilets, filters)
    {
      var filtered := toilets;
      if filters.pmrAccessible {
        filtered := Keep(filtered, Accessible);
      }
      if filters.open24Hours {
        filtered := Keep(filtered, OpenAllDay);
      }
      if filters.minRating > 0.0 {
        filtered := Keep(filtered, RatedAtLeast(filters.minRating));
      }
      if |filters.types| > 0 {
        filtered := Keep(filtered, OfType(filters.types));
      }
      filteredToilets := filtered;
      FilteredIsSoundAndComplete(toilets, filters);
    }

    /** `resetFilters`: default filters and the whole list. */
    method ResetFilters()
      modifies this`filters, this`filteredToilets
      ensures Valid()
      ensures filters == DefaultFilters && filteredToilets == toilets
      ensures filteredToilets == Filtered(toilets, filters)
    {
      filters := DefaultFilters;
      filteredToilets := toilets;
      PickAll(toilets);
    }
  }

  // ---------------------------------------------------------------------
  // Scenarios
  // ---------------------------------------------------------------------

  /** Setting the toilets does not re-apply active filters: with the
      accessibility filter on, `setToilets([t])` for an inaccessible `t`
      shows `[t]`, which is not what the filters select. */
  lemma SetToiletsIgnoresActiveFilters()
    ensures var inaccessible := Toilet(2, "Toilet 2", false, None, None, None);
      var f := DefaultFilters.(pmrAccessible := true);
      !Matches(inaccessible, f) && Filtered([inaccessible], f) != [inaccessible]
  {
  }

  /** The reset scenario: with the accessibility, round-the-clock and
      rating filters on, two toilets without opening hours both drop out,
      and resetting brings both back. */
  lemma ResetScenario()
    ensures var ts := [Toilet(1, "Toilet 1", true, None, Some(4.5), None),
                       Toilet(2, "Toilet 2", false, None, Some(2.0), None)];
      && Filtered(ts, Filters(true, true, 4.0, [])) == []
      && Filtered(ts, DefaultFilters) == ts
  {
    var ts := [Toilet(1, "Toilet 1", true, None, Some(4.5), None),
               Toilet(2, "Toilet 2", false, None, Some(2.0), None)];
    assert Keep(ts, Accessible) == [ts[0]] by {
      assert ts[1..][1..] == [];
    }
    assert Keep([ts[0]], OpenAllDay) == [];
  }

  /** The rating scenario: a minimum of 4 keeps the toilets rated 4.5 and
      4.8, in order. */
  lemma RatingScenario()
    ensures var ts := [Toilet(1, "Toilet 1", false, None, Some(4.5), None),
                       Toilet(2, "Toilet 2", false, None, Some(2.0), None),
                       Toilet(3, "Toilet 3", false, None, Some(4.8), None)];
      Filtered(ts, DefaultFilters.(minRating := 4.0)) == [ts[0], ts[2]]
  {
    var ts := [Toilet(1, "Toilet 1", false, None, Some(4.5), None),
               Toilet(2, "Toilet 2", false, None, Some(2.0), None),
               Toilet(3, "Toilet 3", false, None, Some(4.8), None)];
    assert ts[1..][1..][1..] == [];
    assert Keep(ts[2..], RatedAtLeast(4.0)) == [ts[2]];
  }
}
