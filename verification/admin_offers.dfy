/** The admin offers list: each offer's status badge and the search and status filters. */
module AdminOffers {
  import opened Wrappers
  import opened Text
  import Seqs
  import opened Offers

  /** The four badges an offer can carry. */
  datatype OfferStatus = Active | Inactive | Expired | Scheduled

  /** The four filter buttons; there is no button for scheduled offers. */
  datatype StatusFilter = AllStatuses | ActiveOnly | InactiveOnly | ExpiredOnly

  /** `getOfferStatus`: switched-off offers are inactive whatever their dates; otherwise an offer
      that ended before today is expired, one that starts after today is scheduled, and any
      other is active. */
  function StatusOf(o: Offer, today: string): OfferStatus {
    if !o.isActive then Inactive
    else if LexLt(o.endDate, today) then Expired
    else if LexLt(today, o.startDate) then Scheduled
    else Active
  }

  /** The status is decided in order: the switch, then the end date, then the start date. */
  lemma StatusCases(o: Offer, today: string)
    ensures StatusOf(o, today) == Inactive <==> !o.isActive
    ensures StatusOf(o, today) == Expired <==> o.isActive && LexLt(o.endDate, today)
    ensures StatusOf(o, today) == Scheduled <==>
              o.isActive && LexLe(today, o.endDate) && LexLt(today, o.startDate)
    ensures StatusOf(o, today) == Active <==> TimeValid(o, today)
  {
    NotLexLt(o.endDate, today);
    NotLexLt(today, o.startDate);
  }

  /** For an offer whose start is not after its end, "active" on the admin page is exactly the
      validity rule the customer-facing queries use; an expired offer ended before today and a
      scheduled one starts after it. */
  lemma ActiveMeansRunningToday(o: Offer, today: string)
    requires LexLe(o.startDate, o.endDate)
    ensures StatusOf(o, today) == Active <==> o.isActive && LexLe(o.startDate, today) && LexLe(today, o.endDate)
    ensures StatusOf(o, today) == Scheduled ==> LexLt(today, o.startDate) && LexLe(today, o.endDate)
    ensures StatusOf(o, today) == Expired ==> LexLt(o.endDate, today) && LexLt(o.startDate, today)
  {
    StatusCases(o, today);
    if StatusOf(o, today) == Expired {
      if o.startDate == o.endDate {
      } else {
        LexLtTransitive(o.startDate, o.endDate, today);
      }
    }
  }

  /** The status filter: `all` keeps everything, every other button keeps its own status. */
  predicate MatchesStatus(filter: StatusFilter, status: OfferStatus) {
    match filter
    case AllStatuses => true
    case ActiveOnly => status == Active
    case InactiveOnly => status == Inactive
    case ExpiredOnly => status == Expired
  }

  /** An empty search matches; otherwise the search must occur, ignoring case, in the title or in
      the description when there is one. */
  predicate MatchesOfferSearch(o: Offer, search: string) {
    search == "" || MatchesSearch(o.title, search)
    || (o.description.Some? && MatchesSearch(o.description.value, search))
  }

  predicate Kept(o: Offer, search: string, filter: StatusFilter, today: string) {
    MatchesOfferSearch(o, search) && MatchesStatus(filter, StatusOf(o, today))
  }

  /** `filteredOffers`: the offers matching both the search and the status filter, in order; an
      unloaded list stays unloaded. */
  function FilteredOffers(offers: Option<seq<Offer>>, search: string, filter: StatusFilter, today: string)
    : (r: Option<seq<Offer>>)
    ensures r.Some? <==> offers.Some?
    ensures r.Some? ==> Seqs.IsSubsequence(r.value, offers.value)
  {
    if offers.None? then None
    else Some(Seqs.Filter((o: Offer) => Kept(o, search, filter, today), offers.value))
  }

  /** An offer is listed exactly when it is loaded and matches both the search and the filter. */
  lemma FilteredOffersIff(offers: seq<Offer>, search: string, filter: StatusFilter, today: string, o: Offer)
    ensures o in FilteredOffers(Some(offers), search, filter, today).value <==>
            o in offers && MatchesOfferSearch(o, search) && MatchesStatus(filter, StatusOf(o, today))
  {
    Seqs.FilterMember((o: Offer) => Kept(o, search, filter, today), offers, o);
  }

  /** With no search and the `all` button the list is shown unchanged. */
  lemma NoFilterKeepsAll(offers: seq<Offer>, today: string)
    ensures FilteredOffers(Some(offers), "", AllStatuses, today) == Some(offers)
  {
    Seqs.FilterAll((o: Offer) => Kept(o, "", AllStatuses, today), offers);
  }

  /** Scheduled offers are listed only under `all`. */
  lemma ScheduledOnlyUnderAll(offers: seq<Offer>, search: string, filter: StatusFilter, today: string, o: Offer)
    requires StatusOf(o, today) == Scheduled
    requires o in FilteredOffers(Some(offers), search, filter, today).value
    ensures filter == AllStatuses
  {
    FilteredOffersIff(offers, search, filter, today, o);
  }
}
