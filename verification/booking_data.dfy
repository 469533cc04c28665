/** Reference data of the booking flow, the availability engine that turns salon hours and
    existing bookings into bookable 30-minute slots, and the per-city salon tally. */
module BookingData {
  import opened Wrappers
  import opened Text
  import Seqs

  datatype City = City(id: string, name: string, state: string, country: string, isActive: bool)

  datatype Salon = Salon(
    id: string, cityId: string, name: string, area: string, address: string,
    openTime: string, closeTime: string, isActive: bool)

  datatype Service = Service(
    id: string, categoryId: string, name: string, duration: int, basePrice: real, isActive: bool)

  datatype Staff = Staff(
    id: string, salonId: string, name: string, role: string,
    specialties: Option<seq<string>>, isActive: bool)

  /** A candidate start time, rendered `HH:MM`, and whether the service fits there. */
  datatype TimeSlot = TimeSlot(time: string, available: bool)

  /** An existing booking as the engine sees it: its start time and length in minutes. */
  datatype BookedSlot = BookedSlot(bookingTime: string, duration: int)

  // ---------------------------------------------------------------- clock times

  /** `parseTime`: the first two `:`-separated fields read as numbers give minutes since
      midnight; a missing or non-numeric field makes the result NaN, here `None`. */
  function ParseTime(s: string): (r: Option<int>)
    ensures r.Some? ==> r.value >= 0
  {
    var parts := Split(s, ':');
    if |parts| < 2 then None else MinutesOf(parts[0], parts[1])
  }

  /** `hours * 60 + minutes` with both fields read by `Number`. */
  function MinutesOf(hoursField: string, minutesField: string): (r: Option<int>)
    ensures r.Some? ==> r.value >= 0
  {
    var hours, minutes := ParseNumber(hoursField), ParseNumber(minutesField);
    if hours.Some? && minutes.Some? then Some(hours.value * 60 + minutes.value) else None
  }

  lemma DigitsHaveNoColon(s: string)
    requires AllDigits(s)
    ensures ':' !in s
  {
  }

  lemma SplitHoursMinutes(hh: string, mm: string)
    requires ':' !in hh && ':' !in mm
    ensures Split(hh + ":" + mm, ':') == [hh, mm]
  {
    SplitAtSeparator(hh, mm, ':');
    SplitNoSeparator(mm, ':');
    assert hh + ":" + mm == hh + [':'] + mm;
  }

  lemma {:induction false} SplitHoursMinutesRest(hh: string, mm: string, rest: string)
    requires ':' !in hh && ':' !in mm
    ensures var parts := Split(hh + ":" + mm + ":" + rest, ':');
            |parts| >= 2 && parts[0] == hh && parts[1] == mm
  {
    var x := mm + [':'] + rest;
    assert Split(x, ':') == [mm] + Split(rest, ':') by {
      SplitAtSeparator(mm, rest, ':');
    }
    assert Split(hh + [':'] + x, ':') == [hh] + Split(x, ':') by {
      SplitAtSeparator(hh, x, ':');
    }
    assert hh + ":" + mm + ":" + rest == hh + [':'] + x;
  }

  lemma MinutesOfDigits(hh: string, mm: string)
    requires hh != [] && AllDigits(hh) && mm != [] && AllDigits(mm)
    ensures MinutesOf(hh, mm) == Some(60 * DigitsValue(hh) + DigitsValue(mm))
  {
    ParseNumberDigits(hh);
    ParseNumberDigits(mm);
  }

  /** `"HH:MM"` reads as `60 * HH + MM`, and whatever follows a further `:` is ignored. */
  lemma {:induction false} ParseTimeFields(hh: string, mm: string, rest: string)
    requires hh != [] && AllDigits(hh) && mm != [] && AllDigits(mm)
    ensures ParseTime(hh + ":" + mm) == Some(60 * DigitsValue(hh) + DigitsValue(mm))
    ensures ParseTime(hh + ":" + mm + ":" + rest) == ParseTime(hh + ":" + mm)
  {
    DigitsHaveNoColon(hh);
    DigitsHaveNoColon(mm);
    MinutesOfDigits(hh, mm);
    assert ParseTime(hh + ":" + mm) == MinutesOf(hh, mm) by {
      SplitHoursMinutes(hh, mm);
    }
    assert ParseTime(hh + ":" + mm + ":" + rest) == MinutesOf(hh, mm) by {
      SplitHoursMinutesRest(hh, mm, rest);
    }
  }

  /** A time without a colon has no minutes field and is NaN. */
  lemma ParseTimeNeedsColon(s: string)
    requires ':' !in s
    ensures ParseTime(s) == None
  {
    SplitNoSeparator(s, ':');
  }

  /** The label of a slot: hours and minutes, each zero-padded to two digits. */
  function SlotLabel(minutes: nat): string {
    PadStart2(NatToString(minutes / 60)) + ":" + PadStart2(NatToString(minutes % 60))
  }

  /** Labels round-trip: parsing a slot's label gives back the slot's minute value. */
  lemma LabelRoundTrip(minutes: nat)
    ensures ParseTime(SlotLabel(minutes)) == Some(minutes)
  {
    var hh := PadStart2(NatToString(minutes / 60));
    var mm := PadStart2(NatToString(minutes % 60));
    PaddedDigits(minutes / 60);
    PaddedDigits(minutes % 60);
    ParseTimeFields(hh, mm, "");
  }

  /** Labels are `HH:MM` with two-digit minutes below 60; hours have two digits or more. */
  lemma LabelShape(minutes: nat)
    ensures var l := SlotLabel(minutes);
            |l| >= 5 && l[|l| - 3] == ':' && AllDigits(l[..|l| - 3]) && AllDigits(l[|l| - 2..])
            && DigitsValue(l[|l| - 2..]) == minutes % 60 && DigitsValue(l[..|l| - 3]) == minutes / 60
  {
    var hh := PadStart2(NatToString(minutes / 60));
    var mm := PadStart2(NatToString(minutes % 60));
    PaddedDigits(minutes / 60);
    PaddedDigits(minutes % 60);
    var l := SlotLabel(minutes);
    assert |mm| == 2;
    assert l[|l| - 2..] == mm;
    assert l[..|l| - 3] == hh;
  }

  // ---------------------------------------------------------------- availability

  /** Half-open intervals `[slotStart, slotEnd)` and `[bookingStart, bookingEnd)` intersect. */
  predicate Overlaps(slotStart: int, slotEnd: int, bookingStart: int, bookingEnd: int) {
    slotStart < bookingEnd && slotEnd > bookingStart
  }

  /** A booking blocks a slot when its interval meets the slot's service interval.
      A booking whose time does not parse has a NaN start, and every comparison with NaN is false. */
  predicate Blocks(b: BookedSlot, slotStart: int, serviceDuration: int) {
    match ParseTime(b.bookingTime)
    case None => false
    case Some(start) => Overlaps(slotStart, slotStart + serviceDuration, start, start + b.duration)
  }

  /** `bookedSlots.some(...)`: some booking blocks the slot. */
  predicate IsBooked(bookedSlots: seq<BookedSlot>, slotStart: int, serviceDuration: int) {
    exists i :: 0 <= i < |bookedSlots| && Blocks(bookedSlots[i], slotStart, serviceDuration)
  }

  /** Number of 30-minute steps from `open` that stay strictly before `close`. */
  function SlotCount(open: int, close: int): nat {
    if open < close then (close - open + 29) / 30 else 0
  }

  /** The count is the ceiling of (close - open) / 30: the last start is before closing and one
      more step would reach or pass it. */
  lemma SlotCountIsCeiling(open: int, close: int)
    ensures var n := SlotCount(open, close);
            (open < close ==> n >= 1 && open + 30 * (n - 1) < close <= open + 30 * n)
            && (open >= close ==> n == 0)
  {
  }

  /** Slot `i` starts `30 * i` minutes after opening. */
  function SlotStart(open: int, i: nat): int {
    open + 30 * i
  }

  /** The slots between two parsed clock times, in closed form: slot `i` is labelled with its
      start `open + 30 * i` and is available exactly when no booking blocks it. */
  function SlotsBetween(open: nat, close: int, serviceDuration: int, bookedSlots: seq<BookedSlot>)
    : seq<TimeSlot>
  {
    seq(SlotCount(open, close), i requires 0 <= i < SlotCount(open, close) =>
      SlotAt(open, i, serviceDuration, bookedSlots))
  }

  /** Slot `i` from opening: its label, and whether it is free of every booking. */
  function SlotAt(open: nat, i: nat, serviceDuration: int, bookedSlots: seq<BookedSlot>): TimeSlot {
    TimeSlot(SlotLabel(SlotStart(open, i)), !IsBooked(bookedSlots, SlotStart(open, i), serviceDuration))
  }

  /** The slot sequence for a salon's opening hours; unparseable opening or closing times yield
      no slots, because every comparison with NaN is false. */
  function TimeSlots(openTime: string, closeTime: string, serviceDuration: int,
                     bookedSlots: seq<BookedSlot>): seq<TimeSlot>
  {
    var open, close := ParseTime(openTime), ParseTime(closeTime);
    if open.Some? && close.Some? then SlotsBetween(open.value, close.value, serviceDuration, bookedSlots)
    else []
  }

  /** `generateTimeSlots`: steps from opening time in 30-minute increments while before closing
      time, labelling each start and marking it unavailable when an existing booking overlaps it. */
  method GenerateTimeSlots(openTime: string, closeTime: string, serviceDuration: int,
                           bookedSlots: seq<BookedSlot>) returns (slots: seq<TimeSlot>)
    ensures slots == TimeSlots(openTime, closeTime, serviceDuration, bookedSlots)
  {
    slots := [];
    var openMinutes := ParseTime(openTime);
    var closeMinutes := ParseTime(closeTime);
    if openMinutes.None? || closeMinutes.None? {
      return;  // a NaN bound makes the loop condition false at once
    }
    var open, close := openMinutes.value, closeMinutes.value;
    var minutes := open;
    ghost var k: nat := 0;
    while minutes < close
      invariant minutes == SlotStart(open, k)
      invariant k <= SlotCount(open, close)
      invariant k < SlotCount(open, close) <==> minutes < close
      invariant |slots| == k
      invariant forall i :: 0 <= i < k ==> slots[i] == SlotAt(open, i, serviceDuration, bookedSlots)
      decreases close - minutes
    {
      var hours := minutes / 60;
      var mins := minutes % 60;
      var timeString := PadStart2(NatToString(hours)) + ":" + PadStart2(NatToString(mins));
      var isBooked := IsBooked(bookedSlots, minutes, serviceDuration);
      assert TimeSlot(timeString, !isBooked) == SlotAt(open, k, serviceDuration, bookedSlots);
      ghost var previous := slots;
      slots := slots + [TimeSlot(timeString, !isBooked)];
      forall i | 0 <= i < k + 1
        ensures slots[i] == SlotAt(open, i, serviceDuration, bookedSlots)
      {
        if i < k {
          assert slots[i] == previous[i];
        }
      }
      minutes := minutes + 30;
      k := k + 1;
    }
    assert slots == SlotsBetween(open, close, serviceDuration, bookedSlots);
  }

  /** Every slot starts in `[open, close)` on the 30-minute grid from opening, and its label
      parses back to that start. */
  lemma SlotTimes(open: nat, close: int, serviceDuration: int, bookedSlots: seq<BookedSlot>, i: nat)
    requires i < |SlotsBetween(open, close, serviceDuration, bookedSlots)|
    ensures ParseTime(SlotsBetween(open, close, serviceDuration, bookedSlots)[i].time) == Some(open + 30 * i)
    ensures open + 30 * i < close
  {
    assert SlotsBetween(open, close, serviceDuration, bookedSlots)[i].time == SlotLabel(SlotStart(open, i));
    assert ParseTime(SlotLabel(SlotStart(open, i))) == Some(open + 30 * i) by {
      LabelRoundTrip(SlotStart(open, i));
    }
    assert open + 30 * i < close by {
      SlotCountIsCeiling(open, close);
    }
  }

  /** A slot is unavailable exactly when some booking with a parseable time overlaps the slot's
      service interval. */
  lemma UnavailableIffOverlap(open: nat, close: int, serviceDuration: int,
                              bookedSlots: seq<BookedSlot>, i: nat)
    requires i < |SlotsBetween(open, close, serviceDuration, bookedSlots)|
    ensures var start := open + 30 * i;
            !SlotsBetween(open, close, serviceDuration, bookedSlots)[i].available <==>
            exists j, b :: 0 <= j < |bookedSlots| && ParseTime(bookedSlots[j].bookingTime) == Some(b)
                           && start < b + bookedSlots[j].duration && start + serviceDuration > b
  {
    var start := open + 30 * i;
    if !SlotsBetween(open, close, serviceDuration, bookedSlots)[i].available {
      var j :| 0 <= j < |bookedSlots| && Blocks(bookedSlots[j], start, serviceDuration);
      var b := ParseTime(bookedSlots[j].bookingTime).value;
      assert ParseTime(bookedSlots[j].bookingTime) == Some(b);
    }
  }

  /** Touching intervals do not conflict: a booking that ends when the service starts, or starts
      when it ends, leaves the slot free. */
  lemma TouchingDoesNotBlock(slotStart: int, serviceDuration: int, b: BookedSlot, bookingStart: int)
    requires ParseTime(b.bookingTime) == Some(bookingStart)
    requires bookingStart + b.duration == slotStart || bookingStart == slotStart + serviceDuration
    ensures !Blocks(b, slotStart, serviceDuration)
  {
  }

  /** With no existing bookings every slot is available. */
  lemma NoBookingsAllAvailable(openTime: string, closeTime: string, serviceDuration: int)
    ensures forall i :: 0 <= i < |TimeSlots(openTime, closeTime, serviceDuration, [])| ==>
              TimeSlots(openTime, closeTime, serviceDuration, [])[i].available
  {
  }

  /** An unparseable opening or closing time yields no slots at all. */
  lemma NaNHoursNoSlots(openTime: string, closeTime: string, serviceDuration: int,
                        bookedSlots: seq<BookedSlot>)
    requires ParseTime(openTime).None? || ParseTime(closeTime).None?
    ensures TimeSlots(openTime, closeTime, serviceDuration, bookedSlots) == []
  {
  }

  lemma TwoDigits(a: char, b: char)
    requires IsDigit(a) && IsDigit(b)
    ensures AllDigits([a, b]) && DigitsValue([a, b]) == 10 * DigitValue(a) + DigitValue(b)
  {
    assert [a, b][..1] == [a];
    assert DigitsValue([a]) == DigitValue(a) by {
      assert [a][..0] == [];
    }
  }

  /** A literal `"HH:MM"` reads as its minutes since midnight. */
  lemma ParseClockTime(t: string, h1: char, h2: char, m1: char, m2: char)
    requires IsDigit(h1) && IsDigit(h2) && IsDigit(m1) && IsDigit(m2)
    requires t == [h1, h2, ':', m1, m2]
    ensures ParseTime(t) == Some(600 * DigitValue(h1) + 60 * DigitValue(h2) + 10 * DigitValue(m1) + DigitValue(m2))
  {
    TwoDigits(h1, h2);
    TwoDigits(m1, m2);
    assert t == [h1, h2] + ":" + [m1, m2];
    ParseTimeFields([h1, h2], [m1, m2], "");
  }

  lemma LabelOf600()
    ensures SlotLabel(600) == "10:00"
  {
    assert NatToString(10) == "10";
    assert NatToString(0) == "0";
  }

  /** Closing time plays no part in availability: with no bookings the last slot is offered and
      available for a service of any length, even one that runs past closing. */
  lemma LastSlotIgnoresClosing(open: nat, close: int, serviceDuration: int)
    requires open < close
    ensures var slots := SlotsBetween(open, close, serviceDuration, []);
            var last := open + 30 * (|slots| - 1);
            |slots| >= 1 && slots[|slots| - 1].available && last < close
            && (serviceDuration > close - last ==> last + serviceDuration > close)
  {
    SlotCountIsCeiling(open, close);
  }

  /** The same for a salon open 10:00 to 10:30 and a 120-minute service: the single slot 10:00 is
      offered and available, although the service ends at 12:00. */
  lemma OverrunningSlotOffered(openTime: string, closeTime: string)
    requires openTime == "10:00" && closeTime == "10:30"
    ensures TimeSlots(openTime, closeTime, 120, []) == [TimeSlot("10:00", true)]
  {
    ParseClockTime(openTime, '1', '0', '0', '0');
    ParseClockTime(closeTime, '1', '0', '3', '0');
    TimeSlotsOfParsed(openTime, closeTime, 120, [], 600, 630);
    SingleSlotAt600();
  }

  /** Once both times are read, the slots are those between the two minute values. */
  lemma TimeSlotsOfParsed(openTime: string, closeTime: string, serviceDuration: int, bookedSlots: seq<BookedSlot>,
                          open: nat, close: nat)
    requires ParseTime(openTime) == Some(open) && ParseTime(closeTime) == Some(close)
    ensures TimeSlots(openTime, closeTime, serviceDuration, bookedSlots)
            == SlotsBetween(open, close, serviceDuration, bookedSlots)
  {
  }

  lemma SingleSlotAt600()
    ensures SlotsBetween(600, 630, 120, []) == [TimeSlot("10:00", true)]
  {
    LabelOf600();
    var slots := SlotsBetween(600, 630, 120, []);
    assert |slots| == 1;
    assert slots[0] == SlotAt(600, 0, 120, []);
  }

  /** A salon open 10:00 to 12:00, a 60-minute service and one 30-minute booking at 10:30: the
      10:00 and 10:30 slots collide with the booking, 11:00 and 11:30 are free. */
  lemma WorkedExample(openTime: string, closeTime: string, bookingTime: string)
    requires openTime == "10:00" && closeTime == "12:00" && bookingTime == "10:30"
    ensures var slots := TimeSlots(openTime, closeTime, 60, [BookedSlot(bookingTime, 30)]);
            |slots| == 4
            && !slots[0].available && !slots[1].available && slots[2].available && slots[3].available
  {
    ParseClockTime(openTime, '1', '0', '0', '0');
    ParseClockTime(closeTime, '1', '2', '0', '0');
    ParseClockTime(bookingTime, '1', '0', '3', '0');
    var b := BookedSlot(bookingTime, 30);
    assert SlotCount(600, 720) == 4;
    var slots := SlotsBetween(600, 720, 60, [b]);
    TimeSlotsOfParsed(openTime, closeTime, 60, [b], 600, 720);
    forall i | 0 <= i < 4
      ensures slots[i].available == !Blocks(b, 600 + 30 * i, 60)
    {
      OneBooking(b, 600 + 30 * i, 60);
    }
  }

  lemma OneBooking(b: BookedSlot, slotStart: int, serviceDuration: int)
    ensures IsBooked([b], slotStart, serviceDuration) == Blocks(b, slotStart, serviceDuration)
  {
    if Blocks(b, slotStart, serviceDuration) {
      assert [b][0] == b;
    }
  }

  /** A further booking never frees a slot and never moves one: the slot times are unchanged and
      every slot unavailable before stays unavailable. */
  lemma AddingBookingIsMonotone(openTime: string, closeTime: string, serviceDuration: int,
                                bookedSlots: seq<BookedSlot>, extra: BookedSlot)
    ensures var before := TimeSlots(openTime, closeTime, serviceDuration, bookedSlots);
            var after := TimeSlots(openTime, closeTime, serviceDuration, bookedSlots + [extra]);
            |after| == |before|
            && forall i :: 0 <= i < |before| ==>
                 after[i].time == before[i].time && (!before[i].available ==> !after[i].available)
  {
    var before := TimeSlots(openTime, closeTime, serviceDuration, bookedSlots);
    var after := TimeSlots(openTime, closeTime, serviceDuration, bookedSlots + [extra]);
    forall i | 0 <= i < |before| && !before[i].available
      ensures !after[i].available
    {
      var open := ParseTime(openTime).value;
      var j :| 0 <= j < |bookedSlots| && Blocks(bookedSlots[j], SlotStart(open, i), serviceDuration);
      assert (bookedSlots + [extra])[j] == bookedSlots[j];
    }
  }

  // ---------------------------------------------------------------- salon tally

  /** An arbitrary key of a non-empty map. */
  ghost function SomeKey(m: map<string, nat>): (k: string)
    requires m != map[]
    ensures k in m
  {
    assert exists k :: k in m.Keys by {
      assert m.Keys != {};
      var k :| k in m.Keys;
    }
    var k :| k in m.Keys; k
  }

  /** The sum of a map's values. */
  ghost function Total(m: map<string, nat>): nat
    decreases |m|
  {
    if m == map[] then 0
    else
      var k := SomeKey(m);
      assert |m - {k}| == |m| - 1;
      m[k] + Total(m - {k})
  }

  /** The total may be computed by taking out any key first. */
  lemma {:induction false} TotalWithout(m: map<string, nat>, k: string)
    requires k in m
    ensures Total(m) == m[k] + Total(m - {k})
    decreases |m|
  {
    var j := SomeKey(m);
    if j != k {
      assert |m - {j}| == |m| - 1;
      assert |m - {k}| == |m| - 1;
      TotalWithout(m - {j}, k);
      TotalWithout(m - {k}, j);
      assert (m - {j}) - {k} == (m - {k}) - {j};
    }
  }

  /** Counting one more row for `c` adds one to the total. */
  lemma TallyStep(counts: map<string, nat>, c: string)
    ensures Total(counts[c := (if c in counts then counts[c] else 0) + 1]) == Total(counts) + 1
  {
    var next := counts[c := (if c in counts then counts[c] else 0) + 1];
    TotalWithout(next, c);
    if c in counts {
      TotalWithout(counts, c);
      assert next - {c} == counts - {c};
    } else {
      assert next - {c} == counts;
    }
  }

  /** `useSalonCounts`: tallies the salon rows (given by their city ids) per city. Each city that
      occurs is a key, mapped to its number of rows, and the counts add up to the number of rows. */
  method CountSalonsByCity(rows: seq<string>) returns (counts: map<string, nat>)
    ensures forall c :: c in counts <==> c in rows
    ensures forall c :: c in counts ==> counts[c] == multiset(rows)[c]
    ensures Total(counts) == |rows|
  {
    counts := map[];
    for i := 0 to |rows|
      invariant forall c :: c in counts <==> c in rows[..i]
      invariant forall c :: c in counts ==> counts[c] == multiset(rows[..i])[c]
      invariant Total(counts) == i
    {
      var c := rows[i];
      assert rows[..i + 1] == rows[..i] + [c];
      TallyStep(counts, c);
      counts := counts[c := (if c in counts then counts[c] else 0) + 1];
    }
    assert rows[..|rows|] == rows;
  }
}
