/** The public offers page: the city and salon filters, the featured/regular split of the
    discovered offers, and the badges on each offer card. */
module OffersPage {
  import opened Wrappers
  import opened Text
  import Seqs
  import opened Schema
  import opened Offers

  // ---------------------------------------------------------------- featured and regular offers

  predicate IsFeatured(o: Offer) { o.isFeatured }
  predicate IsRegular(o: Offer) { !o.isFeatured }

  /** `offers?.filter(o => o.is_featured) || []`. */
  function FeaturedOffers(offers: Option<seq<Offer>>): (r: seq<Offer>)
    ensures offers.None? ==> r == []
    ensures offers.Some? ==> Seqs.IsSubsequence(r, offers.value)
  {
    if offers.None? then [] else Seqs.Filter(IsFeatured, offers.value)
  }

  /** `offers?.filter(o => !o.is_featured) || []`. */
  function RegularOffers(offers: Option<seq<Offer>>): (r: seq<Offer>)
    ensures offers.None? ==> r == []
    ensures offers.Some? ==> Seqs.IsSubsequence(r, offers.value)
  {
    if offers.None? then [] else Seqs.Filter(IsRegular, offers.value)
  }

  /** The two sections split the loaded offers: together they hold every offer exactly as often
      as the list does, each offer lands in the section its flag names, and order is kept. */
  lemma FeaturedRegularPartition(offers: seq<Offer>, o: Offer)
    ensures multiset(FeaturedOffers(Some(offers))) + multiset(RegularOffers(Some(offers))) == multiset(offers)
    ensures o in FeaturedOffers(Some(offers)) <==> o in offers && o.isFeatured
    ensures o in RegularOffers(Some(offers)) <==> o in offers && !o.isFeatured
  {
    Seqs.FilterPartition(IsFeatured, IsRegular, offers);
    Seqs.FilterMember(IsFeatured, offers, o);
    Seqs.FilterMember(IsRegular, offers, o);
  }

  // ---------------------------------------------------------------- the filter state

  /** `cityFilter` and `salonFilter`. */
  datatype Filters = Filters(city: Option<string>, salon: Option<string>)

  const NoFilters := Filters(None, None)

  /** A select's value: the `"all"` entry stands for no filter. This is the select's own
      sentinel, distinct from the empty-string test of `x || undefined` in the offer form: here
      an empty value is kept as a filter. */
  function FromSelect(v: string): (r: Option<string>)
    ensures r.None? <==> v == "all"
    ensures r.Some? ==> r.value == v
  {
    if v == "all" then None else Some(v)
  }

  /** Choosing a city also drops the salon filter, whose choices depend on the city. */
  function ChooseCity(f: Filters, v: string): (r: Filters)
    ensures r.salon.None?
    ensures r.city == FromSelect(v)
  {
    Filters(FromSelect(v), None)
  }

  function ChooseSalon(f: Filters, v: string): (r: Filters)
    ensures r.city == f.city
    ensures r.salon == FromSelect(v)
  {
    f.(salon := FromSelect(v))
  }

  /** `cityFilter || salonFilter`: a set, non-empty id. */
  predicate HasFilters(f: Filters) {
    (f.city.Some? && f.city.value != "") || (f.salon.Some? && f.salon.value != "")
  }

  /** The offers the page shows for a filter state: discovery by city and salon, no service. */
  function Shown(offers: seq<Offer>, today: string, f: Filters): (r: seq<Offer>)
    ensures Seqs.IsSubsequence(r, offers)
  {
    ActiveOffers(offers, today, f.city, f.salon, None)
  }

  /** After clearing, no filter is set and the page shows every offer valid today. */
  lemma ClearShowsAllValid(offers: seq<Offer>, today: string, o: Offer)
    ensures !HasFilters(NoFilters)
    ensures o in Shown(offers, today, NoFilters) <==> o in offers && TimeValid(o, today)
  {
    ActiveOffersIff(offers, today, None, None, None, o);
  }

  /** After a city is chosen only the city stage applies: an offer is shown exactly when it is
      valid today and (for a real city) kept by the city stage. */
  lemma ChosenCityShows(offers: seq<Offer>, today: string, f: Filters, v: string, o: Offer)
    ensures o in Shown(offers, today, ChooseCity(f, v)) <==>
            o in offers && TimeValid(o, today) && (v == "all" || v == "" || KeepForCity(o, v))
  {
    ActiveOffersIff(offers, today, FromSelect(v), None, None, o);
  }

  /** The offers page filters are discovery filters: an offer shown for a salon is also shown
      when only the salon filter is removed. */
  lemma RemovingSalonFilterWidens(offers: seq<Offer>, today: string, f: Filters, o: Offer)
    requires o in Shown(offers, today, f)
    ensures o in Shown(offers, today, f.(salon := None))
  {
    ActiveOffersIff(offers, today, f.city, f.salon, None, o);
    ActiveOffersIff(offers, today, f.city, None, None, o);
  }

  /** The page's filter state, updated by the two selects and the clear button. */
  class OffersPageFilters {
    var filters: Filters

    constructor ()
      ensures filters == NoFilters
    {
      filters := NoFilters;
    }

    method SelectCity(v: string)
      modifies this
      ensures filters == ChooseCity(old(filters), v)
    {
      filters := ChooseCity(filters, v);
    }

    method SelectSalon(v: string)
      modifies this
      ensures filters == ChooseSalon(old(filters), v)
    {
      filters := ChooseSalon(filters, v);
    }

    method ClearFilters()
      modifies this
      ensures filters == NoFilters
    {
      filters := NoFilters;
    }
  }

  // ---------------------------------------------------------------- offer card badges

  /** "All Services": the offer has no service rows. */
  predicate AllServicesBadge(o: Offer) {
    o.serviceIds.None? || |o.serviceIds.value| == 0
  }

  /** "All Locations": city rows and salon rows number zero together. */
  predicate AllLocationsBadge(o: Offer) {
    (if o.cityIds.Some? then |o.cityIds.value| else 0) + (if o.salonLinks.Some? then |o.salonLinks.value| else 0) == 0
  }

  /** The badges tell the truth: "All Services" is shown exactly for offers without a service
      restriction and "All Locations" exactly for offers with neither a city nor a salon
      restriction; an offer carrying both applies to every booking and survives every discovery
      stage. */
  lemma BadgesMatchRestrictions(o: Offer, serviceId: string, salonId: string, cityId: Option<string>, c: string)
    ensures AllServicesBadge(o) <==> !Restricted(o.serviceIds)
    ensures AllLocationsBadge(o) <==> !Restricted(o.cityIds) && !Restricted(o.salonLinks)
    ensures AllServicesBadge(o) && AllLocationsBadge(o) ==>
              AppliesTo(o, serviceId, salonId, cityId)
              && KeepForCity(o, c) && KeepForSalon(o, salonId) && KeepForService(o, serviceId)
  {
  }

  /** The discount badge, for whole-number discount values: "N% OFF" or "₹N OFF". */
  function DiscountLabel(discountType: DiscountType, value: nat): (badge: string)
    ensures |badge| >= 6
    ensures discountType == Percentage ==> badge[|badge| - 5..] == "% OFF"
    ensures discountType == Flat ==> badge[0] == '₹' && badge[|badge| - 4..] == " OFF"
  {
    if discountType == Percentage then NatToString(value) + "% OFF"
    else "₹" + NatToString(value) + " OFF"
  }

  /** The amount can be read back from the badge: its leading digits (after the rupee sign for a
      flat offer) are the discount value. */
  lemma DiscountLabelReadsBack(discountType: DiscountType, value: nat)
    ensures var badge := DiscountLabel(discountType, value);
            if discountType == Percentage then ParseIntPrefix(badge) == Some(value)
            else ParseIntPrefix(badge[1..]) == Some(value)
  {
    var digits := NatToString(value);
    if discountType == Percentage {
      ParseIntOfDigitsThen(digits, "% OFF");
    } else {
      assert DiscountLabel(discountType, value)[1..] == digits + " OFF";
      ParseIntOfDigitsThen(digits, " OFF");
    }
  }
}
