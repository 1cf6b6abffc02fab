/**
 * The `SearchBar` component, reduced to what it decides: whether the "type at least N
 * characters" hint, the spinner and the clear button are shown. Typing and clearing
 * (`onChange`) are the page's business.
 */
module SearchBar {

  const DEFAULT_MIN_LENGTH: int := 3

  /** Which of the three optional parts of the search bar are rendered. */
  datatype SearchBarView = SearchBarView(showHint: bool, showSpinner: bool, showClear: bool)

  /**
   * The search bar for `value`, `minLength` (default 3) and `isSearching` (default false):
   * the hint appears for a non-empty value shorter than `minLength`, the spinner while
   * searching, the clear button for a non-empty value when not searching; so spinner and
   * clear button never appear together, and an empty value shows neither hint nor clear button.
   */
  function Render(value: string, minLength: int := DEFAULT_MIN_LENGTH, isSearching: bool := false): (v: SearchBarView)
    ensures v.showHint <==> 0 < |value| < minLength
    ensures v.showSpinner <==> isSearching
    ensures v.showClear <==> |value| > 0 && !isSearching
    ensures !(v.showSpinner && v.showClear)
    ensures value == "" ==> !v.showHint && !v.showClear
  {
    var showHint := |value| > 0 && |value| < minLength;
    SearchBarView(showHint, isSearching, |value| > 0 && !isSearching)
  }

  /** With the defaults, the hint is shown exactly for one or two characters. */
  lemma DefaultHint(value: string)
    ensures Render(value).showHint <==> |value| == 1 || |value| == 2
    ensures !Render(value).showSpinner
  {
  }

  /** Exactly one of spinner and clear button is shown for a non-empty value, and neither for an empty one. */
  lemma RightSlotOccupancy(value: string, minLength: int, isSearching: bool)
    ensures var v := Render(value, minLength, isSearching);
            (v.showSpinner || v.showClear) <==> (|value| > 0 || isSearching)
  {
  }
}
