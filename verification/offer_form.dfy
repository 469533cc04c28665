/** The create/edit offer dialog: its form state, the restriction-list checkboxes, prefilling
    from an existing offer, and the record submitted. Dates are kept as `yyyy-MM-dd` strings. */
module OfferForm {
  import opened Wrappers
  import Seqs
  import opened Schema
  import opened Offers

  /** `formData`. */
  datatype FormData = FormData(
    title: string, description: string, bannerImageUrl: string,
    startDate: string, endDate: string,
    discountType: DiscountType, discountValue: real,
    isFeatured: bool, isActive: bool,
    serviceIds: seq<string>, salonIds: seq<string>, cityIds: seq<string>)

  /** `CreateOfferData`: optional text, and a missing list for "no restriction". */
  datatype OfferData = OfferData(
    title: string, description: Option<string>, bannerImageUrl: Option<string>,
    startDate: string, endDate: string,
    discountType: DiscountType, discountValue: real,
    isFeatured: bool, isActive: bool,
    serviceIds: Option<seq<string>>, salonIds: Option<seq<string>>, cityIds: Option<seq<string>>)

  /** The three checkbox lists. */
  datatype ListField = ServiceIds | SalonIds | CityIds

  function ListOf(form: FormData, field: ListField): seq<string> {
    match field
    case ServiceIds => form.serviceIds
    case SalonIds => form.salonIds
    case CityIds => form.cityIds
  }

  /** The form with every list emptied: what stays fixed when a list changes. */
  function Scalars(form: FormData): FormData {
    form.(serviceIds := [], salonIds := [], cityIds := [])
  }

  // ---------------------------------------------------------------- checkbox toggling

  /** Toggling one id in a list: a listed id is removed (every copy), an unlisted one is
      appended. */
  function Toggle(list: seq<string>, id: string): (r: seq<string>)
    ensures id in list ==> id !in r && Seqs.IsSubsequence(r, list)
    ensures id in list ==> forall x :: x != id ==> (x in r <==> x in list)
    ensures id in list ==> multiset(r) == multiset(list)[id := 0]
    ensures id !in list ==> |r| == |list| + 1 && r[..|list|] == list && r[|list|] == id
  {
    if id in list then
      var r := Seqs.Filter((i: string) => i != id, list);
      assert forall x :: x != id ==> (x in r <==> x in list) by {
        forall x ensures x in r <==> x in list && x != id {
          Seqs.FilterMember((i: string) => i != id, list, x);
        }
      }
      assert multiset(r) == multiset(list)[id := 0] by {
        forall x ensures multiset(r)[x] == multiset(list)[id := 0][x] {
          Seqs.FilterCounts((i: string) => i != id, list, x);
        }
      }
      r
    else
      assert (list + [id])[..|list|] == list;
      list + [id]
  }

  /** Ticking a box and unticking it again restores the list. */
  lemma ToggleTwice(list: seq<string>, id: string)
    requires id !in list
    ensures Toggle(Toggle(list, id), id) == list
  {
    var p := (i: string) => i != id;
    Seqs.FilterConcat(p, list, [id]);
    Seqs.FilterAll(p, list);
    assert Seqs.Filter(p, [id]) == [];
  }

  /** Toggling never introduces a duplicate. */
  lemma ToggleKeepsNoDuplicates(list: seq<string>, id: string)
    requires Seqs.NoDuplicates(list)
    ensures Seqs.NoDuplicates(Toggle(list, id))
  {
    if id in list {
      Seqs.FilterNoDuplicates((i: string) => i != id, list);
    }
  }

  /** `toggleSelection`: only the named list changes. */
  function ToggleIn(form: FormData, field: ListField, id: string): (r: FormData)
    ensures ListOf(r, field) == Toggle(ListOf(form, field), id)
    ensures field != ServiceIds ==> r.serviceIds == form.serviceIds
    ensures field != SalonIds ==> r.salonIds == form.salonIds
    ensures field != CityIds ==> r.cityIds == form.cityIds
    ensures Scalars(r) == Scalars(form)
  {
    match field
    case ServiceIds => form.(serviceIds := Toggle(form.serviceIds, id))
    case SalonIds => form.(salonIds := Toggle(form.salonIds, id))
    case CityIds => form.(cityIds := Toggle(form.cityIds, id))
  }

  // ---------------------------------------------------------------- prefill, reset and submit

  /** `x || ""` on an optional string. */
  function OrEmpty(s: Option<string>): string {
    if s.Some? then s.value else ""
  }

  /** `x || undefined` on a string. */
  function OrUndefined(s: string): (r: Option<string>)
    ensures r.None? <==> s == ""
    ensures r.Some? ==> r.value == s
  {
    if s == "" then None else Some(s)
  }

  /** `list.length > 0 ? list : undefined`. */
  function NonEmptyOrUndefined(list: seq<string>): (r: Option<seq<string>>)
    ensures r.None? <==> list == []
    ensures r.Some? ==> r.value == list
  {
    if |list| > 0 then Some(list) else None
  }

  function SalonIdsOf(links: seq<SalonLink>): (ids: seq<string>)
    ensures |ids| == |links| && forall i :: 0 <= i < |links| ==> ids[i] == links[i].salonId
  {
    seq(|links|, i requires 0 <= i < |links| => links[i].salonId)
  }

  /** Editing: the form takes the offer's fields, empty text for missing text, and the ids of its
      restriction rows (none when the rows are missing). */
  function Prefill(o: Offer): (form: FormData)
    ensures form.serviceIds == o.serviceIds.GetOr([]) && form.cityIds == o.cityIds.GetOr([])
    ensures form.salonIds == SalonIdsOf(o.salonLinks.GetOr([]))
    ensures form.description == OrEmpty(o.description) && form.bannerImageUrl == OrEmpty(o.bannerImageUrl)
  {
    FormData(o.title, OrEmpty(o.description), OrEmpty(o.bannerImageUrl), o.startDate, o.endDate,
             o.discountType, o.discountValue, o.isFeatured, o.isActive,
             o.serviceIds.GetOr([]), SalonIdsOf(o.salonLinks.GetOr([])), o.cityIds.GetOr([]))
  }

  /** Creating: a blank percentage offer of 0, active, not featured, dated today, with no
      restrictions. */
  function Blank(today: string): FormData {
    FormData("", "", "", today, today, Percentage, 0.0, false, true, [], [], [])
  }

  /** `handleSubmit`'s record: empty text and empty lists are sent as missing. */
  function Submission(form: FormData): (d: OfferData)
    ensures d.serviceIds == NonEmptyOrUndefined(form.serviceIds)
    ensures d.salonIds == NonEmptyOrUndefined(form.salonIds)
    ensures d.cityIds == NonEmptyOrUndefined(form.cityIds)
    ensures d.description == OrUndefined(form.description)
    ensures d.bannerImageUrl == OrUndefined(form.bannerImageUrl)
    ensures d.title == form.title && d.discountType == form.discountType && d.discountValue == form.discountValue
  {
    OfferData(form.title, OrUndefined(form.description), OrUndefined(form.bannerImageUrl),
              form.startDate, form.endDate, form.discountType, form.discountValue,
              form.isFeatured, form.isActive,
              NonEmptyOrUndefined(form.serviceIds), NonEmptyOrUndefined(form.salonIds),
              NonEmptyOrUndefined(form.cityIds))
  }

  /** Saving an unchanged blank form creates a global offer: no restriction of any kind. */
  lemma BlankSubmitsGlobalOffer(today: string)
    ensures var d := Submission(Blank(today));
            d.serviceIds.None? && d.salonIds.None? && d.cityIds.None?
            && d.description.None? && d.bannerImageUrl.None?
            && d.discountType == Percentage && d.discountValue == 0.0 && d.isActive && !d.isFeatured
  {
  }

  /** Opening an offer and saving it unchanged keeps what its restrictions mean: each list is
      sent exactly when the offer is restricted on it, with the same ids; text that was missing
      or empty is sent as missing. */
  lemma PrefillSubmitRoundTrip(o: Offer)
    ensures var d := Submission(Prefill(o));
            && (d.serviceIds.Some? <==> Restricted(o.serviceIds))
            && (d.serviceIds.Some? ==> d.serviceIds.value == o.serviceIds.value)
            && (d.cityIds.Some? <==> Restricted(o.cityIds))
            && (d.cityIds.Some? ==> d.cityIds.value == o.cityIds.value)
            && (d.salonIds.Some? <==> Restricted(o.salonLinks))
            && (d.salonIds.Some? ==> d.salonIds.value == SalonIdsOf(o.salonLinks.value))
            && d.description == (if o.description == Some("") then None else o.description)
            && d.title == o.title && d.startDate == o.startDate && d.endDate == o.endDate
  {
  }

  // ---------------------------------------------------------------- dates through the form

  /** What editing does to a stored date, on day numbers. Prefilling parses the stored
      `yyyy-MM-dd` text with `new Date(...)`, which gives midnight UTC of that day; submitting
      prints the day with `format(..., "yyyy-MM-dd")`, which reads the browser's local clock.
      `utcOffset` is the local offset from UTC in minutes, negative west of Greenwich; the local
      minute of UTC midnight is `day * 1440 + utcOffset`, and the printed day is its floor
      division by a day. */
  function ReopenedDay(day: int, utcOffset: int): (saved: int)
    requires -1440 < utcOffset < 1440
    ensures utcOffset >= 0 ==> saved == day
    ensures utcOffset < 0 ==> saved == day - 1
  {
    (day * 1440 + utcOffset) / 1440
  }

  /** The stored day after opening and saving an offer `k` times without touching its dates. */
  function ReopenedTimes(day: int, k: nat, utcOffset: int): int
    requires -1440 < utcOffset < 1440
    decreases k
  {
    if k == 0 then day else ReopenedDay(ReopenedTimes(day, k - 1, utcOffset), utcOffset)
  }

  /** East of Greenwich (and at UTC) the dates survive any number of saves; west of it every
      save moves them one day earlier. */
  lemma {:induction false} ReopenedTimesDrift(day: int, k: nat, utcOffset: int)
    requires -1440 < utcOffset < 1440
    ensures utcOffset >= 0 ==> ReopenedTimes(day, k, utcOffset) == day
    ensures utcOffset < 0 ==> ReopenedTimes(day, k, utcOffset) == day - k
    decreases k
  {
    if k > 0 {
      ReopenedTimesDrift(day, k - 1, utcOffset);
    }
  }

  /** The dialog's form state, replaced wholesale by each handler. */
  class OfferFormState {
    var form: FormData

    /** Opening the dialog: prefilled from the offer being edited, else blank. */
    constructor (offer: Option<Offer>, today: string)
      ensures form == (if offer.Some? then Prefill(offer.value) else Blank(today))
    {
      form := if offer.Some? then Prefill(offer.value) else Blank(today);
    }

    /** The effect that re-runs when the offer or the open flag changes. */
    method Reset(offer: Option<Offer>, today: string)
      modifies this
      ensures form == (if offer.Some? then Prefill(offer.value) else Blank(today))
    {
      form := if offer.Some? then Prefill(offer.value) else Blank(today);
    }

    method ToggleSelection(id: string, field: ListField)
      modifies this
      ensures form == ToggleIn(old(form), field, id)
    {
      form := ToggleIn(form, field, id);
    }

    /** The record sent to create or update; the form is left as it is. */
    method Submit() returns (data: OfferData)
      ensures data == Submission(form)
    {
      data := Submission(form);
    }
  }
}
