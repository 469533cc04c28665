/** The date and time step: the selectable date window, the slots shown for the chosen date, their
    grouping into morning, afternoon and evening, and the step's own date/time selection. */
module DateTimeStep {
  import opened Wrappers
  import opened Text
  import Seqs
  import opened BookingData

  /** A calendar day, as a day number. */
  type Day = int

  /** How far ahead a booking may be made, in days. */
  const BookingWindow := 30

  /** The calendar disables days before today and days after today plus thirty. */
  predicate DateDisabled(today: Day, date: Day) {
    date < today || today + BookingWindow < date
  }

  /** Exactly the days from today to thirty days ahead, both included, can be picked. */
  lemma SelectableWindow(today: Day, date: Day)
    ensures !DateDisabled(today, date) <==> today <= date <= today + 30
  {
  }

  /** An existing booking of the salon on the chosen date, as fetched. */
  datatype ExistingBooking = ExistingBooking(bookingTime: string, duration: int, staffId: Option<string>)

  /** Only the time and the duration of each existing booking are handed to the engine. */
  function AsBooked(rows: seq<ExistingBooking>): (booked: seq<BookedSlot>)
    ensures |booked| == |rows|
    ensures forall i :: 0 <= i < |rows| ==> booked[i] == BookedSlot(rows[i].bookingTime, rows[i].duration)
  {
    seq(|rows|, i requires 0 <= i < |rows| => BookedSlot(rows[i].bookingTime, rows[i].duration))
  }

  /** The slots shown: none without a date or without opening/closing times; otherwise the engine's
      slots for the salon's hours and the service's duration. Bookings still loading count as none. */
  function SlotsShown(selectedDate: Option<Day>, salon: Salon, service: Service,
                      existing: Option<seq<ExistingBooking>>): seq<TimeSlot>
  {
    if selectedDate.None? || salon.openTime == "" || salon.closeTime == "" then []
    else TimeSlots(salon.openTime, salon.closeTime, service.duration, AsBooked(existing.GetOr([])))
  }

  /** With no date picked, or a salon without opening or closing time, no slot is shown. */
  lemma NoSlotsWithoutDateOrHours(selectedDate: Option<Day>, salon: Salon, service: Service,
                                  existing: Option<seq<ExistingBooking>>)
    requires selectedDate.None? || salon.openTime == "" || salon.closeTime == ""
    ensures SlotsShown(selectedDate, salon, service, existing) == []
  {
  }

  /** The staff member of an existing booking plays no part: bookings that agree on time and
      duration block the same slots, whoever they are with. */
  lemma StaffIgnored(selectedDate: Option<Day>, salon: Salon, service: Service,
                     a: seq<ExistingBooking>, b: seq<ExistingBooking>)
    requires |a| == |b|
    requires forall i :: 0 <= i < |a| ==> a[i].bookingTime == b[i].bookingTime && a[i].duration == b[i].duration
    ensures SlotsShown(selectedDate, salon, service, Some(a)) == SlotsShown(selectedDate, salon, service, Some(b))
  {
    assert AsBooked(a) == AsBooked(b);
  }

  // ---------------------------------------------------------------- grouping by period

  /** `parseInt(slot.time.split(":")[0])`; `None` is NaN. */
  function HourOf(time: string): Option<nat> {
    ParseIntPrefix(Split(time, ':')[0])
  }

  /** Hour before 12. A NaN hour fails every comparison and so belongs to no group. */
  predicate Morning(slot: TimeSlot) {
    var h := HourOf(slot.time); h.Some? && h.value < 12
  }

  /** Hour from 12 up to, but not including, 17. */
  predicate Afternoon(slot: TimeSlot) {
    var h := HourOf(slot.time); h.Some? && 12 <= h.value < 17
  }

  /** Hour 17 or later. */
  predicate Evening(slot: TimeSlot) {
    var h := HourOf(slot.time); h.Some? && h.value >= 17
  }

  /** The hour read from a slot label is the slot's hour. */
  lemma HourOfLabel(minutes: nat)
    ensures HourOf(SlotLabel(minutes)) == Some(minutes / 60)
  {
    var hh := PadStart2(NatToString(minutes / 60));
    var mm := PadStart2(NatToString(minutes % 60));
    PaddedDigits(minutes / 60);
    PaddedDigits(minutes % 60);
    DigitsHaveNoColon(hh);
    DigitsHaveNoColon(mm);
    SplitHoursMinutes(hh, mm);
    assert hh + [] == hh;
    ParseIntOfDigitsThen(hh, []);
  }

  /** The three groups partition the slots the engine produces: every slot lands in exactly one
      group, and each group keeps the slots' order. */
  lemma GroupsPartition(openTime: string, closeTime: string, serviceDuration: int, booked: seq<BookedSlot>)
    ensures var slots := TimeSlots(openTime, closeTime, serviceDuration, booked);
            && multiset(Seqs.Filter(Morning, slots)) + multiset(Seqs.Filter(Afternoon, slots))
               + multiset(Seqs.Filter(Evening, slots)) == multiset(slots)
            && Seqs.IsSubsequence(Seqs.Filter(Morning, slots), slots)
            && Seqs.IsSubsequence(Seqs.Filter(Afternoon, slots), slots)
            && Seqs.IsSubsequence(Seqs.Filter(Evening, slots), slots)
  {
    var slots := TimeSlots(openTime, closeTime, serviceDuration, booked);
    forall i | 0 <= i < |slots|
      ensures HourOf(slots[i].time).Some?
    {
      var open := ParseTime(openTime).value;
      HourOfLabel(SlotStart(open, i));
    }
    Seqs.FilterPartition3(Morning, Afternoon, Evening, slots);
  }

  // ---------------------------------------------------------------- the step's state

  /** The step's local state: the picked date and the picked time. */
  class DateTimePicker {
    var selectedDate: Option<Day>
    var selectedTime: Option<string>

    /** Nothing is picked when the step opens. */
    constructor()
      ensures selectedDate == None && selectedTime == None
    {
      selectedDate := None;
      selectedTime := None;
    }

    /** `handleDateSelect`: picking (or clearing) a date drops the picked time. */
    method HandleDateSelect(date: Option<Day>)
      modifies this
      ensures selectedDate == date && selectedTime == None
    {
      selectedDate := date;
      selectedTime := None;
    }

    /** `handleTimeSelect`. */
    method HandleTimeSelect(time: string)
      modifies this
      ensures selectedDate == old(selectedDate) && selectedTime == Some(time)
    {
      selectedTime := Some(time);
    }

    /** A click on a slot button: only an available slot is picked; clicking an unavailable one
        changes nothing. */
    method HandleSlotClick(slot: TimeSlot)
      modifies this
      ensures selectedDate == old(selectedDate)
      ensures selectedTime == if slot.available then Some(slot.time) else old(selectedTime)
    {
      if slot.available {
        HandleTimeSelect(slot.time);
      }
    }

    /** `handleConfirm`: hands the picked date and time on only when both are set (an empty time
        string is falsy and counts as unset). */
    method HandleConfirm() returns (chosen: Option<(Day, string)>)
      ensures chosen.Some? <==> selectedDate.Some? && selectedTime.Some? && selectedTime.value != ""
      ensures chosen.Some? ==> chosen.value == (selectedDate.value, selectedTime.value)
    {
      if selectedDate.Some? && selectedTime.Some? && selectedTime.value != "" {
        chosen := Some((selectedDate.value, selectedTime.value));
      } else {
        chosen := None;
      }
    }
  }
}
