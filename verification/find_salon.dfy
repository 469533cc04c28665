/** The salon finder page: the city, area and search filters over the bundled salons, the sorted
    list of areas offered for the chosen city, and the rules that reset the filters. */
module FindSalon {
  import opened Text
  import Seqs
  import opened MockData

  // ---------------------------------------------------------------- the filtered list

  /** The city select: `"all"` or a city id. */
  predicate MatchesCity(s: MockSalon, selectedCity: string) {
    selectedCity == "all" || s.cityId == selectedCity
  }

  /** The area select: `"all"` or an area name. */
  predicate MatchesArea(s: MockSalon, selectedArea: string) {
    selectedArea == "all" || s.area == selectedArea
  }

  /** The search box: case-insensitive, on the name or the address. */
  predicate MatchesQuery(s: MockSalon, searchQuery: string) {
    MatchesSearch(s.name, searchQuery) || MatchesSearch(s.address, searchQuery)
  }

  predicate Shown(s: MockSalon, selectedCity: string, selectedArea: string, searchQuery: string) {
    MatchesCity(s, selectedCity) && MatchesArea(s, selectedArea) && MatchesQuery(s, searchQuery)
  }

  /** `filteredSalons`. */
  function FilteredSalons(salons: seq<MockSalon>, selectedCity: string, selectedArea: string, searchQuery: string)
    : (r: seq<MockSalon>)
    ensures Seqs.IsSubsequence(r, salons)
  {
    Seqs.Filter((s: MockSalon) => Shown(s, selectedCity, selectedArea, searchQuery), salons)
  }

  /** A salon is listed exactly when it is in the city (or every city is chosen), in the area (or
      every area is chosen), and its name or address contains the search, ignoring case. */
  lemma FilteredSalonsIff(salons: seq<MockSalon>, selectedCity: string, selectedArea: string, searchQuery: string,
                          s: MockSalon)
    ensures s in FilteredSalons(salons, selectedCity, selectedArea, searchQuery) <==>
            s in salons
            && (selectedCity == "all" || s.cityId == selectedCity)
            && (selectedArea == "all" || s.area == selectedArea)
            && (MatchesSearch(s.name, searchQuery) || MatchesSearch(s.address, searchQuery))
  {
    Seqs.FilterMember((s: MockSalon) => Shown(s, selectedCity, selectedArea, searchQuery), salons, s);
  }

  /** With both selects on `"all"` and an empty search, every salon is listed in its order. */
  lemma NoFiltersShowAll(salons: seq<MockSalon>)
    ensures FilteredSalons(salons, "all", "all", "") == salons
  {
    forall s | s in salons
      ensures Shown(s, "all", "all", "")
    {
      EmptySearchMatches(s.name);
    }
    Seqs.FilterAll((s: MockSalon) => Shown(s, "all", "all", ""), salons);
  }

  // ---------------------------------------------------------------- the sorted areas

  /** Strictly increasing in JavaScript's string order, hence also free of duplicates. */
  predicate StrictlySorted(s: seq<string>) {
    forall i, j :: 0 <= i < j < |s| ==> LexLt(s[i], s[j])
  }

  /** Adds `x` to a strictly sorted list, unless it is already there. */
  function InsertSorted(s: seq<string>, x: string): (r: seq<string>)
    requires StrictlySorted(s)
    ensures StrictlySorted(r)
    ensures forall y :: y in r <==> y in s || y == x
    decreases |s|
  {
    if s == [] then [x]
    else if x == s[0] then s
    else if LexLt(x, s[0]) then
      assert StrictlySorted([x] + s) by {
        forall j | 0 <= j < |s| ensures LexLt(x, s[j]) {
          if j > 0 { LexLtTransitive(x, s[0], s[j]); }
        }
      }
      [x] + s
    else
      var rest := InsertSorted(s[1..], x);
      assert LexLt(s[0], x) by { LexTrichotomy(x, s[0]); }
      assert StrictlySorted([s[0]] + rest) by {
        forall j | 0 <= j < |rest| ensures LexLt(s[0], rest[j]) {
          if rest[j] != x {
            assert rest[j] in s[1..];
            var k :| 0 <= k < |s[1..]| && s[1..][k] == rest[j];
            assert s[k + 1] == rest[j];
          }
        }
      }
      [s[0]] + rest
  }

  /** `Array.from(new Set(xs)).sort()`: the distinct values of `xs` in increasing order. */
  function SortedDistinct(xs: seq<string>): (r: seq<string>)
    ensures StrictlySorted(r)
    ensures forall y :: y in r <==> y in xs
    decreases |xs|
  {
    if xs == [] then []
    else
      var init := xs[..|xs| - 1];
      assert xs == init + [xs[|xs| - 1]];
      InsertSorted(SortedDistinct(init), xs[|xs| - 1])
  }

  /** Two strictly sorted lists with the same elements start with the same, least, element. */
  lemma LeastFirst(a: seq<string>, b: seq<string>)
    requires StrictlySorted(a) && StrictlySorted(b)
    requires forall y :: y in a <==> y in b
    requires a != [] && b != []
    ensures a[0] == b[0]
  {
    assert a[0] in b;
    var m :| 0 <= m < |b| && b[m] == a[0];
    assert b[0] in a;
    var n :| 0 <= n < |a| && a[n] == b[0];
    if m > 0 && n > 0 {
      LexTrichotomy(a[0], b[0]);
      assert false;
    }
  }

  /** A strictly sorted list is determined by its elements: the result is the only possible
      answer, whatever sorting algorithm produces it. */
  lemma {:induction false} SortedListUnique(a: seq<string>, b: seq<string>)
    requires StrictlySorted(a) && StrictlySorted(b)
    requires forall y :: y in a <==> y in b
    ensures a == b
    decreases |a|
  {
    assert a != [] ==> a[0] in b;
    assert b != [] ==> b[0] in a;
    if a != [] && b != [] {
      // the first elements are both the least element, so they agree
      LexTrichotomy(a[0], b[0]);
      LeastFirst(a, b);
      forall y
        ensures y in a[1..] <==> y in b[1..]
      {
        if y in a[1..] {
          var k :| 0 <= k < |a[1..]| && a[1..][k] == y;
          assert LexLt(a[0], y);
          LexTrichotomy(a[0], y);
          assert y in b;
        }
        if y in b[1..] {
          var k :| 0 <= k < |b[1..]| && b[1..][k] == y;
          assert LexLt(b[0], y);
          LexTrichotomy(b[0], y);
          assert y in a;
        }
      }
      SortedListUnique(a[1..], b[1..]);
      assert a == [a[0]] + a[1..] && b == [b[0]] + b[1..];
    }
  }

  /** The areas of the given salons, in list order. */
  function Areas(salons: seq<MockSalon>): (r: seq<string>)
    ensures |r| == |salons|
    ensures forall i :: 0 <= i < |salons| ==> r[i] == salons[i].area
  {
    seq(|salons|, i requires 0 <= i < |salons| => salons[i].area)
  }

  /** `availableAreas`: the areas of every salon, or of the chosen city's salons. */
  function AvailableAreas(salons: seq<MockSalon>, selectedCity: string): seq<string> {
    if selectedCity == "all" then SortedDistinct(Areas(salons))
    else SortedDistinct(Areas(Seqs.Filter((s: MockSalon) => s.cityId == selectedCity, salons)))
  }

  /** The area choices are sorted without repeats, and an area is offered exactly when some salon
      of the chosen city (of any city under `"all"`) lies in it. */
  lemma AvailableAreasIff(salons: seq<MockSalon>, selectedCity: string, area: string)
    ensures StrictlySorted(AvailableAreas(salons, selectedCity))
    ensures area in AvailableAreas(salons, selectedCity) <==>
            exists s :: s in salons && MatchesCity(s, selectedCity) && s.area == area
  {
    var inCity := if selectedCity == "all" then salons
                  else Seqs.Filter((s: MockSalon) => s.cityId == selectedCity, salons);
    forall s
      ensures s in inCity <==> s in salons && MatchesCity(s, selectedCity)
    {
      if selectedCity != "all" {
        Seqs.FilterMember((s: MockSalon) => s.cityId == selectedCity, salons, s);
      }
    }
    if area in Areas(inCity) {
      var i :| 0 <= i < |inCity| && Areas(inCity)[i] == area;
      assert inCity[i] in inCity;
    }
    if exists s :: s in salons && MatchesCity(s, selectedCity) && s.area == area {
      var s :| s in salons && MatchesCity(s, selectedCity) && s.area == area;
      var i :| 0 <= i < |inCity| && inCity[i] == s;
      assert Areas(inCity)[i] == area;
    }
  }

  /** The area select is disabled exactly when the chosen city has no salon. */
  lemma NoAreasIffNoSalons(salons: seq<MockSalon>, selectedCity: string)
    ensures |AvailableAreas(salons, selectedCity)| == 0 <==>
            forall s :: s in salons ==> !MatchesCity(s, selectedCity)
  {
    var r := AvailableAreas(salons, selectedCity);
    if |r| > 0 {
      AvailableAreasIff(salons, selectedCity, r[0]);
    }
    if exists s :: s in salons && MatchesCity(s, selectedCity) {
      var s :| s in salons && MatchesCity(s, selectedCity);
      AvailableAreasIff(salons, selectedCity, s.area);
    }
  }

  /** Every listed salon's area is one of the areas offered for the chosen city. */
  lemma ShownAreasOffered(salons: seq<MockSalon>, selectedCity: string, selectedArea: string, searchQuery: string,
                          s: MockSalon)
    requires s in FilteredSalons(salons, selectedCity, selectedArea, searchQuery)
    ensures s.area in AvailableAreas(salons, selectedCity)
  {
    FilteredSalonsIff(salons, selectedCity, selectedArea, searchQuery, s);
    AvailableAreasIff(salons, selectedCity, s.area);
  }

  /** Unfiltered, the page lists the eight bundled salons in their order. */
  lemma EverySalonListed()
    ensures FilteredSalons(Salons, "all", "all", "") == Salons
  {
    NoFiltersShowAll(Salons);
  }

  // ---------------------------------------------------------------- the page's state

  /** The page's three pieces of filter state over the bundled salons. */
  class FindSalonFilters {
    var selectedCity: string
    var selectedArea: string
    var searchQuery: string

    function Listed(): seq<MockSalon>
      reads this
    {
      FilteredSalons(Salons, selectedCity, selectedArea, searchQuery)
    }

    /** Both selects start on `"all"` and the search is empty (so every salon is listed, by
        `EverySalonListed`). */
    constructor()
      ensures selectedCity == "all" && selectedArea == "all" && searchQuery == ""
    {
      selectedCity := "all";
      selectedArea := "all";
      searchQuery := "";
    }

    /** The city select's change handler: a new city also resets the area to `"all"`. */
    method SelectCity(city: string)
      modifies this
      ensures selectedCity == city && selectedArea == "all" && searchQuery == old(searchQuery)
    {
      selectedCity := city;
      selectedArea := "all";
    }

    /** The area select's change handler. */
    method SelectArea(area: string)
      modifies this
      ensures selectedArea == area && selectedCity == old(selectedCity) && searchQuery == old(searchQuery)
    {
      selectedArea := area;
    }

    /** The search box's change handler. */
    method Search(query: string)
      modifies this
      ensures searchQuery == query && selectedCity == old(selectedCity) && selectedArea == old(selectedArea)
    {
      searchQuery := query;
    }

    /** "Clear filters": all three filters are reset, so every salon is listed again (by
        `EverySalonListed`). */
    method ClearFilters()
      modifies this
      ensures selectedCity == "all" && selectedArea == "all" && searchQuery == ""
    {
      selectedCity := "all";
      selectedArea := "all";
      searchQuery := "";
    }
  }
}
