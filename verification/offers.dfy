/** Promotional offers: the discount arithmetic, the strict applicability filter used while
    booking, and the looser discovery filter of the public offers page. Dates are `yyyy-MM-dd`
    strings, whose character order is their calendar order (section 5.1 of RFC 3339). */
module Offers {
  import opened Wrappers
  import opened Text
  import Seqs
  import opened Schema

  /** A salon restriction row, with the city of the joined salon when the join returned one. */
  datatype SalonLink = SalonLink(salonId: string, salonCityId: Option<string>)

  /** An offer with its three optional restriction lists (missing or empty means "all"). */
  datatype Offer = Offer(
    id: string, title: string, description: Option<string>, bannerImageUrl: Option<string>,
    startDate: string, endDate: string,
    discountType: DiscountType, discountValue: real,
    isFeatured: bool, isActive: bool,
    serviceIds: Option<seq<string>>, salonLinks: Option<seq<SalonLink>>, cityIds: Option<seq<string>>)

  // ---------------------------------------------------------------- discount arithmetic

  datatype Discount = Discount(discountedPrice: real, savings: real)

  function Min(a: real, b: real): real { if a <= b then a else b }
  function Max(a: real, b: real): real { if a >= b then a else b }

  /** `calculateDiscount`: a percentage of the price, or a flat amount capped at the price; the
      discounted price never drops below zero. */
  function CalculateDiscount(price: real, discountType: DiscountType, discountValue: real): (r: Discount)
    ensures r.discountedPrice >= 0.0
    ensures discountType == Flat ==> r.savings <= price
  {
    var savings := if discountType == Percentage then (price * discountValue) / 100.0 else Min(discountValue, price);
    Discount(Max(0.0, price - savings), savings)
  }

  /** For a non-negative price, a flat discount or a percentage of at most 100 splits the price
      into what is paid and what is saved. */
  lemma DiscountSplitsPrice(price: real, discountType: DiscountType, discountValue: real)
    requires price >= 0.0 && discountValue >= 0.0
    requires discountType == Flat || discountValue <= 100.0
    ensures var r := CalculateDiscount(price, discountType, discountValue);
            r.discountedPrice + r.savings == price && 0.0 <= r.savings <= price
  {
    if discountType == Percentage {
      assert price * discountValue <= price * 100.0;
    }
  }

  lemma PositiveProduct(a: real, b: real)
    requires a > 0.0 && b > 0.0
    ensures a * b > 0.0
  {
  }

  /** Percentages above 100 are not clamped: the saving exceeds a positive price and the
      discounted price is zero. */
  lemma PercentageOver100(price: real, discountValue: real)
    requires price > 0.0 && discountValue > 100.0
    ensures var r := CalculateDiscount(price, Percentage, discountValue);
            r.savings > price && r.discountedPrice == 0.0
  {
    var extra := price * (discountValue - 100.0);
    PositiveProduct(price, discountValue - 100.0);
    assert price * discountValue == price * 100.0 + extra;
    var r := CalculateDiscount(price, Percentage, discountValue);
    assert r.savings * 100.0 == price * discountValue;
    assert r.savings * 100.0 > price * 100.0;
    assert r.discountedPrice == 0.0;
  }

  /** 20% off 1000 is 800 with 200 saved; 1500 flat off 1000 is 0 with 1000 saved. */
  lemma DiscountExamples()
    ensures CalculateDiscount(1000.0, Percentage, 20.0) == Discount(800.0, 200.0)
    ensures CalculateDiscount(1000.0, Flat, 1500.0) == Discount(0.0, 1000.0)
  {
  }

  /** A larger discount value never raises the discounted price. */
  lemma DiscountMonotone(price: real, discountType: DiscountType, v1: real, v2: real)
    requires price >= 0.0 && v1 <= v2
    ensures CalculateDiscount(price, discountType, v2).discountedPrice
            <= CalculateDiscount(price, discountType, v1).discountedPrice
  {
    if discountType == Percentage {
      var d := v2 - v1;
      assert price * d >= 0.0;
      assert price * v2 == price * v1 + price * d;
      assert (price * v2) / 100.0 == (price * v1) / 100.0 + (price * d) / 100.0;
    }
  }

  // ---------------------------------------------------------------- restriction lists

  /** `list && list.length > 0`. */
  predicate Restricted<T>(list: Option<seq<T>>) {
    list.Some? && |list.value| > 0
  }

  /** `list?.some(x => x === id)`: a missing list never matches. */
  predicate Lists(list: Option<seq<string>>, id: string) {
    list.Some? && id in list.value
  }

  predicate ListsSalon(links: Option<seq<SalonLink>>, salonId: string) {
    links.Some? && exists i :: 0 <= i < |links.value| && links.value[i].salonId == salonId
  }

  predicate ListsSalonInCity(links: Option<seq<SalonLink>>, cityId: string) {
    links.Some? && exists i :: 0 <= i < |links.value| && links.value[i].salonCityId == Some(cityId)
  }

  /** The offer's dates cover today and it is switched on (the query filter of both offer
      lookups). */
  predicate TimeValid(o: Offer, today: string) {
    o.isActive && LexLe(o.startDate, today) && LexLe(today, o.endDate)
  }

  // ---------------------------------------------------------------- applicability while booking

  /** The booking-time rule: for each of service, salon and city, the offer has no restriction or
      lists the booking's id. A city that could not be looked up matches no city restriction. */
  predicate AppliesTo(o: Offer, serviceId: string, salonId: string, cityId: Option<string>) {
    && (!Restricted(o.serviceIds) || Lists(o.serviceIds, serviceId))
    && (!Restricted(o.salonLinks) || ListsSalon(o.salonLinks, salonId))
    && (!Restricted(o.cityIds) || (cityId.Some? && Lists(o.cityIds, cityId.value)))
  }

  /** `useApplicableOffers`: nothing without a salon and a service; otherwise the offers valid
      today that apply to the service, the salon and the salon's city. */
  function ApplicableOffers(offers: seq<Offer>, today: string, salonId: Option<string>,
                            serviceId: Option<string>, salonCityId: Option<string>): (r: seq<Offer>)
    ensures salonId.None? || salonId == Some("") || serviceId.None? || serviceId == Some("") ==> r == []
    ensures Seqs.IsSubsequence(r, offers)
  {
    if salonId.None? || salonId.value == "" || serviceId.None? || serviceId.value == "" then []
    else
      var valid := Seqs.Filter((o: Offer) => TimeValid(o, today), offers);
      var r := Seqs.Filter((o: Offer) => AppliesTo(o, serviceId.value, salonId.value, salonCityId), valid);
      Seqs.SubsequenceTransitive(r, valid, offers);
      r
  }

  /** An offer is applicable exactly when it is in the fetched list, valid today, and passes all
      three restrictions at once. */
  lemma ApplicableIff(offers: seq<Offer>, today: string, salonId: string, serviceId: string,
                      salonCityId: Option<string>, o: Offer)
    requires salonId != "" && serviceId != ""
    ensures o in ApplicableOffers(offers, today, Some(salonId), Some(serviceId), salonCityId)
            <==> o in offers && TimeValid(o, today) && AppliesTo(o, serviceId, salonId, salonCityId)
  {
    var isValid := (o: Offer) => TimeValid(o, today);
    var valid := Seqs.Filter(isValid, offers);
    Seqs.FilterMember(isValid, offers, o);
    Seqs.FilterMember((o: Offer) => AppliesTo(o, serviceId, salonId, salonCityId), valid, o);
  }

  /** An offer without restrictions applies to every booking. */
  lemma GlobalOfferAppliesEverywhere(o: Offer, serviceId: string, salonId: string, cityId: Option<string>)
    requires !Restricted(o.serviceIds) && !Restricted(o.salonLinks) && !Restricted(o.cityIds)
    ensures AppliesTo(o, serviceId, salonId, cityId)
  {
  }

  /** A restriction is respected: an applicable offer that lists services (salons, cities) lists
      the booked one. */
  lemma RestrictionsRespected(o: Offer, serviceId: string, salonId: string, cityId: Option<string>)
    requires AppliesTo(o, serviceId, salonId, cityId)
    ensures Restricted(o.serviceIds) ==> serviceId in o.serviceIds.value
    ensures Restricted(o.salonLinks) ==> exists i :: 0 <= i < |o.salonLinks.value| && o.salonLinks.value[i].salonId == salonId
    ensures Restricted(o.cityIds) ==> cityId.Some? && cityId.value in o.cityIds.value
  {
  }

  // ---------------------------------------------------------------- discovery on the offers page

  /** The city stage: the offer lists the city, lists a salon in the city, or lists neither cities
      nor salons. */
  predicate KeepForCity(o: Offer, cityId: string) {
    Lists(o.cityIds, cityId) || ListsSalonInCity(o.salonLinks, cityId)
    || (!Restricted(o.cityIds) && !Restricted(o.salonLinks))
  }

  /** The salon stage: the offer lists the salon or lists no salons. */
  predicate KeepForSalon(o: Offer, salonId: string) {
    ListsSalon(o.salonLinks, salonId) || !Restricted(o.salonLinks)
  }

  /** The service stage: the offer lists the service or lists no services. */
  predicate KeepForService(o: Offer, serviceId: string) {
    Lists(o.serviceIds, serviceId) || !Restricted(o.serviceIds)
  }

  /** One stage: a filter that is null or empty (falsy) skips it. */
  function Stage(offers: seq<Offer>, filter: Option<string>, keep: (Offer, string) -> bool): (r: seq<Offer>)
    ensures Seqs.IsSubsequence(r, offers)
    ensures filter.None? || filter == Some("") ==> r == offers
  {
    if filter.None? || filter.value == "" then
      Seqs.FilterAll((o: Offer) => true, offers);
      assert Seqs.Filter((o: Offer) => true, offers) == offers;
      offers
    else Seqs.Filter((o: Offer) => keep(o, filter.value), offers)
  }

  /** `useActiveOffers`: the offers valid today, then the city, salon and service stages in turn. */
  function ActiveOffers(offers: seq<Offer>, today: string, cityId: Option<string>,
                        salonId: Option<string>, serviceId: Option<string>): (r: seq<Offer>)
    ensures Seqs.IsSubsequence(r, offers)
  {
    var valid := Seqs.Filter((o: Offer) => TimeValid(o, today), offers);
    var byCity := Stage(valid, cityId, KeepForCity);
    var bySalon := Stage(byCity, salonId, KeepForSalon);
    var r := Stage(bySalon, serviceId, KeepForService);
    Seqs.SubsequenceTransitive(r, bySalon, byCity);
    Seqs.SubsequenceTransitive(r, byCity, valid);
    Seqs.SubsequenceTransitive(r, valid, offers);
    r
  }

  /** Membership in one stage. */
  lemma StageMember(offers: seq<Offer>, filter: Option<string>, keep: (Offer, string) -> bool, o: Offer)
    ensures o in Stage(offers, filter, keep) <==>
            o in offers && (filter.None? || filter.value == "" || keep(o, filter.value))
  {
    if filter.Some? && filter.value != "" {
      Seqs.FilterMember((o: Offer) => keep(o, filter.value), offers, o);
    }
  }

  /** An offer is discovered exactly when it is valid today and each set filter's stage keeps it. */
  lemma ActiveOffersIff(offers: seq<Offer>, today: string, cityId: Option<string>,
                        salonId: Option<string>, serviceId: Option<string>, o: Offer)
    ensures o in ActiveOffers(offers, today, cityId, salonId, serviceId) <==>
            && o in offers && TimeValid(o, today)
            && (cityId.None? || cityId.value == "" || KeepForCity(o, cityId.value))
            && (salonId.None? || salonId.value == "" || KeepForSalon(o, salonId.value))
            && (serviceId.None? || serviceId.value == "" || KeepForService(o, serviceId.value))
  {
    var isValid := (o: Offer) => TimeValid(o, today);
    var valid := Seqs.Filter(isValid, offers);
    Seqs.FilterMember(isValid, offers, o);
    var byCity := Stage(valid, cityId, KeepForCity);
    var bySalon := Stage(byCity, salonId, KeepForSalon);
    StageMember(valid, cityId, KeepForCity, o);
    StageMember(byCity, salonId, KeepForSalon, o);
    StageMember(bySalon, serviceId, KeepForService, o);
  }

  /** The joined salon rows of an offer carry that salon's real city. */
  predicate SalonCitiesAgree(o: Offer, salonId: string, cityId: string) {
    o.salonLinks.Some? ==>
      forall i :: 0 <= i < |o.salonLinks.value| && o.salonLinks.value[i].salonId == salonId ==>
        o.salonLinks.value[i].salonCityId == Some(cityId)
  }

  /** The booking-time rule is the stricter one: an offer that applies to a booking at a salon in
      a city is also discovered on the offers page filtered by that city, salon and service. */
  lemma ApplicableIsDiscoverable(o: Offer, serviceId: string, salonId: string, cityId: string)
    requires AppliesTo(o, serviceId, salonId, Some(cityId))
    requires SalonCitiesAgree(o, salonId, cityId)
    ensures KeepForCity(o, cityId) && KeepForSalon(o, salonId) && KeepForService(o, serviceId)
  {
    if Restricted(o.salonLinks) && !Lists(o.cityIds, cityId) {
      var i :| 0 <= i < |o.salonLinks.value| && o.salonLinks.value[i].salonId == salonId;
      assert o.salonLinks.value[i].salonCityId == Some(cityId);
    }
  }

  /** The converse fails: a salon-restricted offer is discovered for a city but does not apply to
      a booking at another salon of that city. */
  lemma DiscoveryIsLooser(serviceId: string, cityId: string)
    ensures var o := Offer("o", "t", None, None, "2024-01-01", "2024-12-31", Percentage, 10.0, false, true,
                           None, Some([SalonLink("a", Some(cityId))]), None);
            KeepForCity(o, cityId) && !AppliesTo(o, serviceId, "b", Some(cityId))
  {
    var o := Offer("o", "t", None, None, "2024-01-01", "2024-12-31", Percentage, 10.0, false, true,
                   None, Some([SalonLink("a", Some(cityId))]), None);
    assert o.salonLinks.value[0].salonCityId == Some(cityId);
  }
}
