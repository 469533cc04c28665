/** The last wizard step: the customer's contact details, the checks made before submitting,
    the booking request that is sent, and the booking reference shown once it succeeds. */
module ConfirmationStep {
  import opened Wrappers
  import opened BookingWizard
  import BookingData
  import Offers

  /** `customerInfo`: the three contact fields, all starting empty. */
  datatype CustomerInfo = CustomerInfo(name: string, phone: string, email: string)

  const EmptyCustomer := CustomerInfo("", "", "")

  /** The request handed to the booking-creation call. The date is the selected day; its
      `yyyy-MM-dd` rendering is not part of this model. */
  datatype BookingRequest = BookingRequest(
    salonId: string, serviceId: string, staffId: Option<string>,
    bookingDate: Day, bookingTime: string, duration: int, price: real,
    customerName: string, customerPhone: string, customerEmail: string)

  /** What a submit does: refuse for missing contact details, refuse for missing booking
      details, or send a request. */
  datatype Outcome = MissingContact | MissingBooking | Submit(request: BookingRequest)

  /** A contact field is missing when it is empty (the only falsy string). */
  predicate ContactMissing(info: CustomerInfo) {
    info.name == "" || info.phone == "" || info.email == ""
  }

  /** Salon, service and date are objects (truthy when present); the time is a string, so an
      empty one counts as missing. */
  predicate BookingMissing(data: Selection) {
    data.salon.None? || data.service.None? || data.date.None? || data.time.None? || data.time.value == ""
  }

  /** `staff?.id || null`: no staff member, or one with an empty id, sends null. */
  function StaffId(staff: Option<BookingData.Staff>): (r: Option<string>)
    ensures r.Some? <==> staff.Some? && staff.value.id != ""
    ensures r.Some? ==> r.value == staff.value.id
  {
    if staff.Some? && staff.value.id != "" then Some(staff.value.id) else None
  }

  /** `handleSubmit`'s decision: contact details are checked first, then the booking details;
      otherwise the request carries the selection, the service's duration and base price, and
      the contact details as typed. */
  function CheckSubmission(info: CustomerInfo, data: Selection): (r: Outcome)
    ensures r == MissingContact <==> ContactMissing(info)
    ensures r == MissingBooking <==> !ContactMissing(info) && BookingMissing(data)
    ensures r.Submit? ==>
              && r.request.salonId == data.salon.value.id
              && r.request.serviceId == data.service.value.id
              && r.request.bookingDate == data.date.value
              && r.request.bookingTime == data.time.value
              && r.request.duration == data.service.value.duration
              && r.request.price == data.service.value.basePrice
              && r.request.staffId == StaffId(data.staff)
              && r.request.customerName == info.name
              && r.request.customerPhone == info.phone
              && r.request.customerEmail == info.email
  {
    if ContactMissing(info) then MissingContact
    else if BookingMissing(data) then MissingBooking
    else
      var salon := data.salon.value;
      var service := data.service.value;
      Submit(BookingRequest(salon.id, service.id, StaffId(data.staff), data.date.value, data.time.value,
                            service.duration, service.basePrice, info.name, info.phone, info.email))
  }

  /** Contact fields are checked for emptiness only: whitespace passes. */
  lemma WhitespaceContactAccepted(data: Selection)
    requires !BookingMissing(data)
    ensures CheckSubmission(CustomerInfo(" ", " ", " "), data).Submit?
  {
  }

  /** A wizard driven from its initial state to the confirmation step, with a non-empty time
      and all three contact fields filled in, always sends a request: the booking check never
      fires there. The staff member may still be null. */
  lemma ReachedConfirmationSubmits(events: seq<Event>, info: CustomerInfo)
    requires Driven(Initial, events)
    requires Run(Initial, events).step == Confirmation
    requires Run(Initial, events).data.time != Some("")
    requires !ContactMissing(info)
    ensures CheckSubmission(info, Run(Initial, events).data).Submit?
  {
    RunKeepsFilled(Initial, events);
  }

  /** The request carries the undiscounted base price: whenever an offer would save something
      on a positive price, the submitted price is above the discounted one. */
  lemma NoDiscountInRequest(info: CustomerInfo, data: Selection, o: Offers.Offer)
    requires CheckSubmission(info, data).Submit?
    requires data.service.value.basePrice > 0.0
    requires Offers.CalculateDiscount(data.service.value.basePrice, o.discountType, o.discountValue).savings > 0.0
    ensures CheckSubmission(info, data).request.price
            > Offers.CalculateDiscount(data.service.value.basePrice, o.discountType, o.discountValue).discountedPrice
  {
  }

  /** The component's state: the contact form, the reference of a created booking, and whether
      the creation call is in flight (which disables the submit button). */
  class ConfirmationForm {
    var customerInfo: CustomerInfo
    var bookingReference: Option<string>
    var pending: bool

    constructor ()
      ensures customerInfo == EmptyCustomer && bookingReference == None && !pending
    {
      customerInfo := EmptyCustomer;
      bookingReference := None;
      pending := false;
    }

    method SetName(name: string)
      modifies this
      ensures customerInfo == old(customerInfo).(name := name)
      ensures bookingReference == old(bookingReference) && pending == old(pending)
    {
      customerInfo := customerInfo.(name := name);
    }

    method SetPhone(phone: string)
      modifies this
      ensures customerInfo == old(customerInfo).(phone := phone)
      ensures bookingReference == old(bookingReference) && pending == old(pending)
    {
      customerInfo := customerInfo.(phone := phone);
    }

    method SetEmail(email: string)
      modifies this
      ensures customerInfo == old(customerInfo).(email := email)
      ensures bookingReference == old(bookingReference) && pending == old(pending)
    {
      customerInfo := customerInfo.(email := email);
    }

    /** `handleSubmit`: decide, and when a request is sent the creation call is in flight. */
    method HandleSubmit(data: Selection) returns (outcome: Outcome)
      modifies this
      ensures outcome == CheckSubmission(old(customerInfo), data)
      ensures pending == (old(pending) || outcome.Submit?)
      ensures customerInfo == old(customerInfo) && bookingReference == old(bookingReference)
    {
      outcome := CheckSubmission(customerInfo, data);
      if outcome.Submit? {
        pending := true;
      }
    }

    /** The creation call settles: with the new booking's reference on success, with nothing on
      failure (the reference is then kept and the form stays). */
    method Settle(reference: Option<string>)
      modifies this
      ensures !pending
      ensures bookingReference == (if reference.Some? then reference else old(bookingReference))
      ensures customerInfo == old(customerInfo)
    {
      pending := false;
      if reference.Some? {
        bookingReference := reference;
      }
    }

    /** `if (bookingReference)`: the success view replaces the form once a non-empty reference
        is held. */
    predicate Succeeded()
      reads this
    {
      bookingReference.Some? && bookingReference.value != ""
    }
  }
}
