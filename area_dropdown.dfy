/**
 * The area picker: a fixed list of eight areas of the city, narrowed by a case-insensitive
 * search, from which one area is reported to the parent.
 */
module AreaDropdown {
  import opened Text

  /** `areas`, in display order. */
  const Areas: seq<string> := [
    "Dwaraka Nagar", "MVP Colony", "Gajuwaka", "Seethammadhara",
    "Patamata", "Siripuram", "Madhurawada", "Beach Road"]

  /** `area.toLowerCase().includes(searchText.toLowerCase())`. */
  predicate Matches(area: string, searchText: string) {
    Includes(ToLower(area), ToLower(searchText))
  }

  /** `list.filter(...)` with the search predicate. */
  function Filter(list: seq<string>, searchText: string): (r: seq<string>)
    ensures |r| <= |list|
    ensures forall a :: a in r <==> a in list && Matches(a, searchText)
  {
    if list == [] then []
    else (if Matches(list[0], searchText) then [list[0]] else []) + Filter(list[1..], searchText)
  }

  /** `filteredAreas`. */
  function FilteredAreas(searchText: string): seq<string> {
    Filter(Areas, searchText)
  }

  /** `sub` can be obtained from `list` by deleting elements, keeping the rest in order. */
  predicate IsSubsequence(sub: seq<string>, list: seq<string>)
    decreases |list|
  {
    if sub == [] then true
    else if list == [] then false
    else if sub[0] == list[0] then IsSubsequence(sub[1..], list[1..])
    else IsSubsequence(sub, list[1..])
  }

  /** Filtering only deletes: what is left is in the original order. */
  lemma {:induction false} FilterIsSubsequence(list: seq<string>, searchText: string)
    ensures IsSubsequence(Filter(list, searchText), list)
  {
    if list != [] {
      FilterIsSubsequence(list[1..], searchText);
      var rest := Filter(list[1..], searchText);
      if Matches(list[0], searchText) {
        assert Filter(list, searchText)[1..] == rest;
      } else {
        assert Filter(list, searchText) == rest;
        if rest != [] {
          assert rest[0] in rest && Matches(rest[0], searchText);
        }
      }
    }
  }

  /** The shown areas are, in order, some of the eight areas: exactly those matching the search. */
  lemma FilteredAreasShape(searchText: string)
    ensures IsSubsequence(FilteredAreas(searchText), Areas)
    ensures forall a :: a in FilteredAreas(searchText) <==> a in Areas && Matches(a, searchText)
  {
    FilterIsSubsequence(Areas, searchText);
  }

  /** With an empty search every element passes. */
  lemma {:induction false} FilterEmptySearch(list: seq<string>)
    ensures Filter(list, "") == list
  {
    if list != [] {
      IncludesEmpty(ToLower(list[0]));
      FilterEmptySearch(list[1..]);
    }
  }

  /** An empty search shows all eight areas, in order. */
  lemma EmptySearchShowsAll()
    ensures FilteredAreas("") == Areas
  {
    FilterEmptySearch(Areas);
  }

  /** Lower-casing forgets how a string was cased. */
  lemma LowerOfUpper(s: string)
    ensures ToLower(ToUpper(s)) == ToLower(s)
  {
    assert forall i :: 0 <= i < |s| ==> LowerChar(UpperChar(s[i])) == LowerChar(s[i]);
  }

  /** Typing the search in capitals shows the same areas. */
  lemma SearchIgnoresCase(searchText: string)
    ensures FilteredAreas(ToUpper(searchText)) == FilteredAreas(searchText)
  {
    LowerOfUpper(searchText);
    assert forall a :: Matches(a, ToUpper(searchText)) == Matches(a, searchText);
    FilterCongruent(Areas, ToUpper(searchText), searchText);
  }

  /** Two searches that match the same strings filter alike. */
  lemma {:induction false} FilterCongruent(list: seq<string>, s1: string, s2: string)
    requires forall a :: Matches(a, s1) == Matches(a, s2)
    ensures Filter(list, s1) == Filter(list, s2)
  {
    if list != [] {
      FilterCongruent(list[1..], s1, s2);
    }
  }

  /** The picker's state: its two `useState` slots, and every area it reported. */
  class Dropdown {
    var showDropdown: bool
    var searchText: string
    /** Every call to `onAreaSelect`, oldest first. */
    var reported: seq<string>

    constructor ()
      ensures !showDropdown && searchText == "" && reported == []
    {
      showDropdown := false;
      searchText := "";
      reported := [];
    }

    /** The field itself: opens the list. */
    method Open()
      modifies this
      ensures showDropdown && searchText == old(searchText) && reported == old(reported)
    {
      showDropdown := true;
    }

    method SetSearchText(text: string)
      modifies this
      ensures searchText == text && showDropdown == old(showDropdown) && reported == old(reported)
    {
      searchText := text;
    }

    /** `handleAreaSelect`, once its animation has finished: reports the area, closes, clears the search. */
    method HandleAreaSelect(area: string)
      modifies this
      ensures reported == old(reported) + [area]
      ensures !showDropdown && searchText == ""
    {
      reported := reported + [area];
      showDropdown := false;
      searchText := "";
    }

    /** `closeDropdown`, once its animation has finished: closes and clears the search, reporting nothing. */
    method CloseDropdown()
      modifies this
      ensures reported == old(reported)
      ensures !showDropdown && searchText == ""
    {
      showDropdown := false;
      searchText := "";
    }
  }
}
