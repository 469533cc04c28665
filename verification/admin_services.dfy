/** The admin services page: the category restriction of the list query, the name search over the
    loaded services, and the add-service form's default values. */
module AdminServices {
  import opened Wrappers
  import opened Text
  import Seqs
  import opened Schema
  import opened Auth

  /** A service row, with the fields the page filters on. */
  datatype ServiceRow = ServiceRow(id: string, name: string, categoryId: string)

  // ---------------------------------------------------------------- the list query

  /** The category select: `"all"` adds no condition, any other value is a category id. */
  predicate InCategory(s: ServiceRow, selectedCategory: string) {
    selectedCategory == "all" || s.categoryId == selectedCategory
  }

  /** The services list query, without its ordering by name. */
  function QueryServices(table: seq<ServiceRow>, selectedCategory: string): (r: seq<ServiceRow>)
    ensures Seqs.IsSubsequence(r, table)
  {
    Seqs.Filter((s: ServiceRow) => InCategory(s, selectedCategory), table)
  }

  /** Under `"all"` the whole table is listed; under a category exactly the services of that
      category are. */
  lemma QueryServicesIff(table: seq<ServiceRow>, selectedCategory: string, s: ServiceRow)
    ensures selectedCategory == "all" ==> QueryServices(table, selectedCategory) == table
    ensures selectedCategory != "all" ==>
              (s in QueryServices(table, selectedCategory) <==> s in table && s.categoryId == selectedCategory)
  {
    Seqs.FilterMember((s: ServiceRow) => InCategory(s, selectedCategory), table, s);
    if selectedCategory == "all" {
      Seqs.FilterAll((s: ServiceRow) => InCategory(s, selectedCategory), table);
    }
  }

  // ---------------------------------------------------------------- the search box

  /** `filteredServices`: the search looks at the name only; an unloaded list stays unloaded. */
  function FilteredServices(services: Option<seq<ServiceRow>>, search: string): (r: Option<seq<ServiceRow>>)
    ensures r.Some? <==> services.Some?
    ensures r.Some? ==> Seqs.IsSubsequence(r.value, services.value)
  {
    if services.None? then None
    else Some(Seqs.Filter((s: ServiceRow) => MatchesSearch(s.name, search), services.value))
  }

  /** A loaded service is listed exactly when its name contains the search, ignoring case; an
      empty search lists every service in order. */
  lemma FilteredServicesIff(services: seq<ServiceRow>, search: string, s: ServiceRow)
    ensures s in FilteredServices(Some(services), search).value <==>
            s in services && Contains(Lower(s.name), Lower(search))
    ensures FilteredServices(Some(services), "") == Some(services)
  {
    Seqs.FilterMember((s: ServiceRow) => MatchesSearch(s.name, search), services, s);
    forall x | x in services
      ensures MatchesSearch(x.name, "")
    {
      EmptySearchMatches(x.name);
    }
    Seqs.FilterAll((s: ServiceRow) => MatchesSearch(s.name, ""), services);
  }

  /** The search ignores the category: two services with the same name are listed together. */
  lemma SearchIgnoresCategory(services: seq<ServiceRow>, search: string, a: ServiceRow, b: ServiceRow)
    requires a in services && b in services && a.name == b.name
    ensures a in FilteredServices(Some(services), search).value <==> b in FilteredServices(Some(services), search).value
  {
    FilteredServicesIff(services, search, a);
    FilteredServicesIff(services, search, b);
  }

  // ---------------------------------------------------------------- the add form

  /** The add-service form; the duration is in minutes and the base price in rupees. */
  datatype ServiceForm = ServiceForm(name: string, description: string, duration: int, basePrice: int, categoryId: string)

  /** The form's initial value and its value after a service is added: an hour-long service at
      1000 rupees with every text field empty, so no category is preselected. */
  function NewServiceForm(): (form: ServiceForm)
    ensures form.duration == 60 && form.basePrice == 1000
    ensures form.name == "" && form.description == "" && form.categoryId == ""
  {
    ServiceForm("", "", 60, 1000, "")
  }

  /** Only a super admin is shown the add button and the row actions. */
  predicate CanEditServices(f: Flags) {
    f.isSuperAdmin
  }

  /** Of the admin roles, only the super admin edits services. */
  lemma OnlySuperAdminEdits(r: AppRole)
    ensures CanEditServices(OnlyRole(r)) <==> r == SuperAdmin
  {
  }
}
