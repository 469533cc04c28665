/** The admin bookings page: which bookings the list query asks for, the search box over the
    loaded bookings, and which status actions are disabled for a booking. */
module AdminBookings {
  import opened Wrappers
  import opened Text
  import Seqs
  import opened Schema
  import opened Auth

  /** A booking row, with the fields the page filters on. */
  datatype BookingRow = BookingRow(
    id: string,
    salonId: string,
    customerName: Option<string>,
    customerEmail: Option<string>,
    bookingReference: Option<string>,
    status: BookingStatus)

  // ---------------------------------------------------------------- the list query

  /** The condition under which the bookings and staff pages restrict their query to the managed
      salon: a salon is managed and the user is neither a super admin nor a city manager. */
  predicate ScopedToSalon(f: Flags, managedSalonId: Option<string>) {
    IsSet(managedSalonId) && !f.isSuperAdmin && !f.isCityManager
  }

  /** The status select: `"all"` or one status. */
  datatype StatusQuery = AnyStatus | OnlyStatus(status: BookingStatus)

  /** The rows the query's `eq` conditions let through. */
  predicate Requested(b: BookingRow, f: Flags, managedSalonId: Option<string>, statusFilter: StatusQuery) {
    && (ScopedToSalon(f, managedSalonId) ==> b.salonId == managedSalonId.value)
    && (statusFilter.OnlyStatus? ==> b.status == statusFilter.status)
  }

  /** The list query over the bookings table, without its ordering. */
  function QueryBookings(table: seq<BookingRow>, f: Flags, managedSalonId: Option<string>, statusFilter: StatusQuery)
    : (r: seq<BookingRow>)
    ensures Seqs.IsSubsequence(r, table)
  {
    Seqs.Filter((b: BookingRow) => Requested(b, f, managedSalonId, statusFilter), table)
  }

  /** A salon-only manager sees exactly the bookings of the managed salon (in the chosen status);
      anyone else sees the bookings of every salon. */
  lemma QueryBookingsIff(table: seq<BookingRow>, f: Flags, managedSalonId: Option<string>, statusFilter: StatusQuery,
                         b: BookingRow)
    ensures b in QueryBookings(table, f, managedSalonId, statusFilter) <==>
            && b in table
            && (IsSet(managedSalonId) && !f.isSuperAdmin && !f.isCityManager ==> b.salonId == managedSalonId.value)
            && (statusFilter.OnlyStatus? ==> b.status == statusFilter.status)
  {
    Seqs.FilterMember((b: BookingRow) => Requested(b, f, managedSalonId, statusFilter), table, b);
  }

  /** Under `"all"` statuses and without the salon restriction the whole table is requested. */
  lemma UnscopedAllStatusesIsWholeTable(table: seq<BookingRow>, f: Flags, managedSalonId: Option<string>)
    requires !ScopedToSalon(f, managedSalonId)
    ensures QueryBookings(table, f, managedSalonId, AnyStatus) == table
  {
    Seqs.FilterAll((b: BookingRow) => Requested(b, f, managedSalonId, AnyStatus), table);
  }

  /** A salon manager's query stays inside the managed salon; a super admin's is never restricted
      to a salon, even when the super admin's roles also name one. */
  lemma ScopeByRole(roles: seq<UserRole>, table: seq<BookingRow>, statusFilter: StatusQuery, b: BookingRow)
    requires b in QueryBookings(table, FlagsOf(roles), ManagedSalonId(roles), statusFilter)
    ensures IsSet(ManagedSalonId(roles)) && !HasRole(roles, SuperAdmin) && !HasRole(roles, CityManager)
            ==> b.salonId == ManagedSalonId(roles).value
    ensures HasRole(roles, SuperAdmin) ==> !ScopedToSalon(FlagsOf(roles), ManagedSalonId(roles))
  {
    QueryBookingsIff(table, FlagsOf(roles), ManagedSalonId(roles), statusFilter, b);
  }

  // ---------------------------------------------------------------- the search box

  /** `field?.toLowerCase().includes(searchLower)`: a missing field never matches. */
  predicate FieldMatches(field: Option<string>, search: string) {
    field.Some? && MatchesSearch(field.value, search)
  }

  predicate MatchesBookingSearch(b: BookingRow, search: string) {
    search == ""
    || FieldMatches(b.customerName, search)
    || FieldMatches(b.customerEmail, search)
    || FieldMatches(b.bookingReference, search)
  }

  /** `filteredBookings`; an unloaded list stays unloaded. */
  function FilteredBookings(bookings: Option<seq<BookingRow>>, search: string): (r: Option<seq<BookingRow>>)
    ensures r.Some? <==> bookings.Some?
    ensures r.Some? ==> Seqs.IsSubsequence(r.value, bookings.value)
  {
    if bookings.None? then None
    else Some(Seqs.Filter((b: BookingRow) => MatchesBookingSearch(b, search), bookings.value))
  }

  /** A loaded booking is listed exactly when the search is empty or occurs, ignoring case, in the
      customer's name, the customer's email or the booking reference. */
  lemma FilteredBookingsIff(bookings: seq<BookingRow>, search: string, b: BookingRow)
    ensures b in FilteredBookings(Some(bookings), search).value <==>
            b in bookings
            && (search == ""
                || (b.customerName.Some? && Contains(Lower(b.customerName.value), Lower(search)))
                || (b.customerEmail.Some? && Contains(Lower(b.customerEmail.value), Lower(search)))
                || (b.bookingReference.Some? && Contains(Lower(b.bookingReference.value), Lower(search))))
  {
    Seqs.FilterMember((b: BookingRow) => MatchesBookingSearch(b, search), bookings, b);
  }

  /** An empty search lists every loaded booking in order. */
  lemma EmptySearchKeepsAll(bookings: seq<BookingRow>)
    ensures FilteredBookings(Some(bookings), "") == Some(bookings)
  {
    Seqs.FilterAll((b: BookingRow) => MatchesBookingSearch(b, ""), bookings);
  }

  /** A booking without name, email and reference is listed only under an empty search. */
  lemma AnonymousOnlyUnfiltered(bookings: seq<BookingRow>, search: string, b: BookingRow)
    requires b.customerName.None? && b.customerEmail.None? && b.bookingReference.None?
    requires b in FilteredBookings(Some(bookings), search).value
    ensures search == ""
  {
    FilteredBookingsIff(bookings, search, b);
  }

  // ---------------------------------------------------------------- status actions

  /** The four actions of the row menu, by the status each one sets. */
  const ActionStatuses: seq<BookingStatus> := [Confirmed, Completed, Cancelled, NoShow]

  /** An action is disabled when the booking already has the status it sets. */
  predicate ActionDisabled(b: BookingRow, target: BookingStatus) {
    b.status == target
  }

  /** The disabled actions of a row's menu. */
  function DisabledActions(b: BookingRow): (r: seq<BookingStatus>)
    ensures Seqs.IsSubsequence(r, ActionStatuses)
  {
    Seqs.Filter((t: BookingStatus) => ActionDisabled(b, t), ActionStatuses)
  }

  /** A pending booking has every action enabled; any other booking has exactly the action for its
      own status disabled. */
  lemma DisabledActionsByStatus(b: BookingRow)
    ensures b.status == Pending ==> DisabledActions(b) == []
    ensures b.status != Pending ==> DisabledActions(b) == [b.status]
  {
    var p := (t: BookingStatus) => ActionDisabled(b, t);
    if b.status == Pending {
      Seqs.FilterNone(p, ActionStatuses);
    } else {
      var k := if b.status == Confirmed then 0 else if b.status == Completed then 1
               else if b.status == Cancelled then 2 else 3;
      assert ActionStatuses[k] == b.status;
      assert ActionStatuses == ActionStatuses[..k] + [b.status] + ActionStatuses[k + 1..];
      Seqs.FilterNone(p, ActionStatuses[..k]);
      Seqs.FilterNone(p, ActionStatuses[k + 1..]);
      Seqs.FilterConcat(p, ActionStatuses[..k] + [b.status], ActionStatuses[k + 1..]);
      Seqs.FilterConcat(p, ActionStatuses[..k], [b.status]);
    }
  }
}
