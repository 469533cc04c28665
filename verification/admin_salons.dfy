/** The admin salons page: the city restriction of the list query, the search box over the loaded
    salons, and the add-salon form's reset values. */
module AdminSalons {
  import opened Wrappers
  import opened Text
  import Seqs
  import opened Schema
  import opened Auth

  /** A salon row, with the fields the page filters on. */
  datatype SalonRow = SalonRow(id: string, name: string, area: string, cityId: string)

  // ---------------------------------------------------------------- the list query

  /** The query is restricted to the managed city when one is managed and the user is not a super
      admin; unlike the salon restriction of the staff and bookings pages, city managers are
      restricted too. */
  predicate ScopedToCity(f: Flags, managedCityId: Option<string>) {
    IsSet(managedCityId) && !f.isSuperAdmin
  }

  /** The salons list query, without its ordering by name. */
  function QuerySalons(table: seq<SalonRow>, f: Flags, managedCityId: Option<string>): (r: seq<SalonRow>)
    ensures Seqs.IsSubsequence(r, table)
  {
    Seqs.Filter((s: SalonRow) => ScopedToCity(f, managedCityId) ==> s.cityId == managedCityId.value, table)
  }

  /** When restricted, the query returns exactly the managed city's salons; otherwise it returns the
      whole table. */
  lemma QuerySalonsScope(table: seq<SalonRow>, f: Flags, managedCityId: Option<string>, s: SalonRow)
    ensures IsSet(managedCityId) && !f.isSuperAdmin ==>
              (s in QuerySalons(table, f, managedCityId) <==> s in table && s.cityId == managedCityId.value)
    ensures !(IsSet(managedCityId) && !f.isSuperAdmin) ==> QuerySalons(table, f, managedCityId) == table
  {
    var p := (s: SalonRow) => ScopedToCity(f, managedCityId) ==> s.cityId == managedCityId.value;
    Seqs.FilterMember(p, table, s);
    if !ScopedToCity(f, managedCityId) {
      Seqs.FilterAll(p, table);
    }
  }

  /** A city manager whose role names a city sees only that city's salons. */
  lemma CityManagerSeesOwnCity(roles: seq<UserRole>, table: seq<SalonRow>, s: SalonRow)
    requires HasRole(roles, CityManager) && !HasRole(roles, SuperAdmin)
    requires IsSet(ManagedCityId(roles))
    requires s in QuerySalons(table, FlagsOf(roles), ManagedCityId(roles))
    ensures s.cityId == ManagedCityId(roles).value
  {
    QuerySalonsScope(table, FlagsOf(roles), ManagedCityId(roles), s);
  }

  // ---------------------------------------------------------------- the search box

  predicate MatchesSalonSearch(s: SalonRow, search: string) {
    MatchesSearch(s.name, search) || MatchesSearch(s.area, search)
  }

  /** `filteredSalons`; an unloaded list stays unloaded. */
  function FilteredSalons(salons: Option<seq<SalonRow>>, search: string): (r: Option<seq<SalonRow>>)
    ensures r.Some? <==> salons.Some?
    ensures r.Some? ==> Seqs.IsSubsequence(r.value, salons.value)
  {
    if salons.None? then None
    else Some(Seqs.Filter((s: SalonRow) => MatchesSalonSearch(s, search), salons.value))
  }

  /** A loaded salon is listed exactly when its name or its area contains the search, ignoring
      case; an empty search lists every salon in order. */
  lemma FilteredSalonsIff(salons: seq<SalonRow>, search: string, s: SalonRow)
    ensures s in FilteredSalons(Some(salons), search).value <==>
            s in salons && (Contains(Lower(s.name), Lower(search)) || Contains(Lower(s.area), Lower(search)))
    ensures FilteredSalons(Some(salons), "") == Some(salons)
  {
    Seqs.FilterMember((s: SalonRow) => MatchesSalonSearch(s, search), salons, s);
    forall x | x in salons
      ensures MatchesSalonSearch(x, "")
    {
      EmptySearchMatches(x.name);
    }
    Seqs.FilterAll((s: SalonRow) => MatchesSalonSearch(s, ""), salons);
  }

  // ---------------------------------------------------------------- the add form

  datatype SalonForm = SalonForm(name: string, area: string, address: string, phone: string, cityId: string)

  /** Only a super admin is shown the city select of the add form. */
  predicate CityChoosable(f: Flags) {
    f.isSuperAdmin
  }

  /** The form's initial value, and its value after a salon is added: empty text fields and the
      managed city, if any. */
  function NewSalonForm(managedCityId: Option<string>): (form: SalonForm)
    ensures form.name == "" && form.area == "" && form.address == "" && form.phone == ""
    ensures IsSet(managedCityId) ==> form.cityId == managedCityId.value
    ensures !IsSet(managedCityId) ==> form.cityId == ""
  {
    SalonForm("", "", "", "", managedCityId.GetOr(""))
  }

  /** A manager who cannot choose the city adds salons to the city the list is restricted to, so
      a new salon shows up in that manager's list. */
  lemma NewSalonInOwnList(f: Flags, managedCityId: Option<string>, table: seq<SalonRow>, id: string,
                          name: string, area: string)
    requires !CityChoosable(f) && IsSet(managedCityId)
    ensures var form := NewSalonForm(managedCityId);
            var row := SalonRow(id, name, area, form.cityId);
            row in QuerySalons(table + [row], f, managedCityId)
  {
    var row := SalonRow(id, name, area, NewSalonForm(managedCityId).cityId);
    QuerySalonsScope(table + [row], f, managedCityId, row);
  }
}
