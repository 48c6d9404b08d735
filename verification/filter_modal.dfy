/** The filter sheet (components/FilterModal.tsx): the options being edited
    (`tempFilters`), the handlers that replace one option at a time, reset
    and apply, and the checks that decide which rows are highlighted. */
module FilterModal {
  import opened Seqs

  datatype SortOption = Popular | PriceLow | PriceHigh | Newest | Rating

  /** A price bound; the last range has no upper bound (`Infinity`). */
  datatype Bound = Finite(value: int) | Unbounded

  datatype PriceRange = PriceRange(min: int, max: Bound)

  datatype FilterOptions = FilterOptions(sortBy: SortOption, priceRange: PriceRange, minRating: int)

  const SortOptions: seq<SortOption> := [Popular, PriceLow, PriceHigh, Newest, Rating]

  const PriceRanges: seq<PriceRange> := [
    PriceRange(0, Finite(50)),
    PriceRange(50, Finite(100)),
    PriceRange(100, Finite(200)),
    PriceRange(200, Finite(500)),
    PriceRange(500, Unbounded)
  ]

  const RatingOptions: seq<int> := [1, 2, 3, 4, 5]

  /** The options `handleReset` restores. */
  const DefaultFilters: FilterOptions := FilterOptions(Popular, PriceRange(0, Unbounded), 0)

  /** The sort row for `option` is highlighted; when it is, no other
      option's row is. */
  function IsSortSelected(f: FilterOptions, option: SortOption): (selected: bool)
    ensures selected ==>
      forall i :: 0 <= i < |SortOptions| && SortOptions[i] != option ==> !(f.sortBy == SortOptions[i])
  {
    f.sortBy == option
  }

  /** A price row is highlighted when both of its bounds match, that is
      exactly when the chosen range is that row's range. */
  function IsPriceRangeSelected(f: FilterOptions, range: PriceRange): (selected: bool)
    ensures selected <==> f.priceRange == range
  {
    f.priceRange.min == range.min && f.priceRange.max == range.max
  }

  /** The star of rating option `rating` is lit; the lit stars are always
      the lowest ones. */
  function IsStarHighlighted(f: FilterOptions, rating: int): (lit: bool)
    ensures lit ==>
      forall i :: 0 <= i < |RatingOptions| && RatingOptions[i] <= rating ==> f.minRating >= RatingOptions[i]
    ensures !lit ==>
      forall i :: 0 <= i < |RatingOptions| && RatingOptions[i] >= rating ==> f.minRating < RatingOptions[i]
  {
    f.minRating >= rating
  }

  /** Exactly one sort row is highlighted, whatever the options. */
  lemma ExactlyOneSortSelected(f: FilterOptions)
    ensures exists i :: 0 <= i < |SortOptions| && IsSortSelected(f, SortOptions[i])
    ensures forall i, j ::
      0 <= i < |SortOptions| && 0 <= j < |SortOptions| &&
      IsSortSelected(f, SortOptions[i]) && IsSortSelected(f, SortOptions[j])
      ==> i == j
  {
    match f.sortBy
    case Popular => assert IsSortSelected(f, SortOptions[0]);
    case PriceLow => assert IsSortSelected(f, SortOptions[1]);
    case PriceHigh => assert IsSortSelected(f, SortOptions[2]);
    case Newest => assert IsSortSelected(f, SortOptions[3]);
    case Rating => assert IsSortSelected(f, SortOptions[4]);
  }

  /** The ranges' lower bounds are distinct, so at most one price row is
      highlighted. */
  lemma AtMostOnePriceRangeSelected(f: FilterOptions, i: nat, j: nat)
    requires i < |PriceRanges| && j < |PriceRanges|
    requires IsPriceRangeSelected(f, PriceRanges[i]) && IsPriceRangeSelected(f, PriceRanges[j])
    ensures i == j
  {
    assert PriceRanges[i].min == PriceRanges[j].min;
    assert forall a, b :: 0 <= a < b < |PriceRanges| ==> PriceRanges[a].min < PriceRanges[b].min;
  }

  /** How many of the five stars are lit. */
  function HighlightedStars(f: FilterOptions): (count: nat)
    ensures count <= |RatingOptions|
  {
    |Filter((rating: int) => IsStarHighlighted(f, rating), RatingOptions)|
  }

  /** With a minimum rating between 0 and 5, exactly that many stars are
      lit; below 0 none are and above 5 all five are. */
  lemma HighlightedStarsCount(f: FilterOptions)
    ensures 0 <= f.minRating <= 5 ==> HighlightedStars(f) == f.minRating
    ensures f.minRating < 0 ==> HighlightedStars(f) == 0
    ensures f.minRating > 5 ==> HighlightedStars(f) == 5
  {
    var lit := (rating: int) => IsStarHighlighted(f, rating);
    assert RatingOptions == [1] + [2] + [3] + [4] + [5];
    FilterAppend(lit, [1] + [2] + [3] + [4], [5]);
    FilterAppend(lit, [1] + [2] + [3], [4]);
    FilterAppend(lit, [1] + [2], [3]);
    FilterAppend(lit, [1], [2]);
    assert [1][1..] == [] && [2][1..] == [] && [3][1..] == [] && [4][1..] == [] && [5][1..] == [];
  }

  /** Tapping rating `rating`: it turns the filter off when it is the
      current minimum and sets it otherwise. */
  function TappedRating(current: int, rating: int): (next: int)
    ensures next == 0 || next == rating
    ensures next == 0 <==> current == rating || rating == 0
  {
    if current == rating then 0 else rating
  }

  /** Starting from a minimum in 0..5, tapping any rating option keeps it
      in 0..5. */
  lemma TappedRatingInRange(current: int, i: nat)
    requires 0 <= current <= 5 && i < |RatingOptions|
    ensures 0 <= TappedRating(current, RatingOptions[i]) <= 5
  {
  }

  /** Tapping the same option twice from "no minimum" comes back to "no
      minimum". */
  lemma TappedRatingTwice(rating: int)
    ensures TappedRating(TappedRating(0, rating), rating) == 0
  {
  }

  class FilterSheet {
    var tempFilters: FilterOptions

    /** The sheet opens with the filters currently applied. */
    constructor (currentFilters: FilterOptions)
      ensures tempFilters == currentFilters
    {
      tempFilters := currentFilters;
    }

    /** `handleApply`: hands the edited options over unchanged. */
    method HandleApply() returns (applied: FilterOptions)
      ensures applied == tempFilters
    {
      applied := tempFilters;
    }

    method HandleReset()
      modifies this
      ensures tempFilters == DefaultFilters
      ensures IsSortSelected(tempFilters, Popular) && tempFilters.minRating == 0
      ensures HighlightedStars(tempFilters) == 0
    {
      tempFilters := DefaultFilters;
      HighlightedStarsCount(tempFilters);
    }

    method SelectSort(option: SortOption)
      modifies this
      ensures tempFilters.sortBy == option
      ensures tempFilters.priceRange == old(tempFilters.priceRange)
      ensures tempFilters.minRating == old(tempFilters.minRating)
    {
      tempFilters := tempFilters.(sortBy := option);
    }

    /** Tapping price row `index`. */
    method SelectPriceRange(index: nat)
      requires index < |PriceRanges|
      modifies this
      ensures tempFilters.priceRange == PriceRanges[index]
      ensures IsPriceRangeSelected(tempFilters, PriceRanges[index])
      ensures tempFilters.sortBy == old(tempFilters.sortBy)
      ensures tempFilters.minRating == old(tempFilters.minRating)
    {
      var range := PriceRanges[index];
      tempFilters := tempFilters.(priceRange := PriceRange(range.min, range.max));
    }

    method TapRating(rating: int)
      modifies this
      ensures tempFilters.minRating == TappedRating(old(tempFilters.minRating), rating)
      ensures tempFilters.sortBy == old(tempFilters.sortBy)
      ensures tempFilters.priceRange == old(tempFilters.priceRange)
    {
      tempFilters := tempFilters.(minRating := if tempFilters.minRating == rating then 0 else rating);
    }
  }
}
