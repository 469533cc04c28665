/** The bundled demonstration data (cities, salons, service categories, services and staff),
    its lookup helpers, and the older slot generator that steps an hour and a minute counter. */
module MockData {
  import opened Wrappers
  import opened Text
  import Seqs
  import opened BookingData

  /** The records, without their presentation-only fields (phone, rating, images, descriptions,
      experience, specialties). */
  datatype MockCity = MockCity(id: string, name: string, state: string, salonCount: nat)
  datatype MockSalon = MockSalon(id: string, name: string, cityId: string, area: string, address: string,
                                 openTime: string, closeTime: string)
  datatype ServiceCategory = ServiceCategory(id: string, name: string)
  datatype MockService = MockService(id: string, name: string, categoryId: string, duration: nat, price: nat)
  datatype MockStaff = MockStaff(id: string, name: string, salonId: string, role: string)

  const Cities := [
    MockCity("mumbai", "Mumbai", "Maharashtra", 18),
    MockCity("delhi", "Delhi NCR", "Delhi", 12),
    MockCity("bangalore", "Bangalore", "Karnataka", 8),
    MockCity("hyderabad", "Hyderabad", "Telangana", 5),
    MockCity("chennai", "Chennai", "Tamil Nadu", 4),
    MockCity("pune", "Pune", "Maharashtra", 3)
  ]

  const Salons := [
    MockSalon("salon-1", "JCB Phoenix Mills", "mumbai", "Lower Parel", "Phoenix Mills Compound, Lower Parel, Mumbai 400013", "10:00", "21:00"),
    MockSalon("salon-2", "JCB Bandra", "mumbai", "Bandra West", "Hill Road, Bandra West, Mumbai 400050", "09:00", "20:00"),
    MockSalon("salon-3", "JCB Juhu", "mumbai", "Juhu", "Juhu Tara Road, Juhu, Mumbai 400049", "10:00", "20:00"),
    MockSalon("salon-4", "JCB Connaught Place", "delhi", "Connaught Place", "Block A, Connaught Place, New Delhi 110001", "10:00", "21:00"),
    MockSalon("salon-5", "JCB Saket", "delhi", "Saket", "Select Citywalk, Saket, New Delhi 110017", "10:00", "22:00"),
    MockSalon("salon-6", "JCB Indiranagar", "bangalore", "Indiranagar", "100 Feet Road, Indiranagar, Bangalore 560038", "09:00", "20:00"),
    MockSalon("salon-7", "JCB Koramangala", "bangalore", "Koramangala", "5th Block, Koramangala, Bangalore 560095", "10:00", "21:00"),
    MockSalon("salon-8", "JCB Jubilee Hills", "hyderabad", "Jubilee Hills", "Road No. 36, Jubilee Hills, Hyderabad 500033", "10:00", "20:00")
  ]

  const ServiceCategories := [
    ServiceCategory("hair", "Hair"),
    ServiceCategory("color", "Color"),
    ServiceCategory("spa", "Spa & Wellness"),
    ServiceCategory("makeup", "Makeup"),
    ServiceCategory("nails", "Nails"),
    ServiceCategory("bridal", "Bridal")
  ]

  const Services := [
    MockService("haircut-women", "Women's Haircut & Styling", "hair", 60, 1500),
    MockService("haircut-men", "Men's Haircut", "hair", 30, 800),
    MockService("blowdry", "Blow Dry & Styling", "hair", 45, 1000),
    MockService("keratin", "Keratin Treatment", "hair", 180, 8000),
    MockService("hair-spa", "Hair Spa Treatment", "hair", 60, 2000),
    MockService("global-color", "Global Hair Color", "color", 120, 4000),
    MockService("highlights", "Highlights / Balayage", "color", 150, 6000),
    MockService("root-touch", "Root Touch-up", "color", 60, 2500),
    MockService("facial-luxury", "Luxury Facial", "spa", 90, 5000),
    MockService("body-massage", "Full Body Massage", "spa", 60, 3500),
    MockService("cleanup", "Face Clean-up", "spa", 45, 1500),
    MockService("party-makeup", "Party Makeup", "makeup", 60, 4000),
    MockService("bridal-makeup", "Bridal Makeup", "makeup", 120, 25000),
    MockService("manicure", "Classic Manicure", "nails", 45, 800),
    MockService("gel-nails", "Gel Nail Art", "nails", 75, 2000),
    MockService("pedicure", "Spa Pedicure", "nails", 60, 1200)
  ]

  const StaffMembers := [
    MockStaff("staff-1", "Priya Sharma", "salon-1", "Senior Stylist"),
    MockStaff("staff-2", "Rahul Kapoor", "salon-1", "Creative Director"),
    MockStaff("staff-3", "Meera Patel", "salon-1", "Makeup Artist"),
    MockStaff("staff-4", "Amit Singh", "salon-2", "Senior Stylist"),
    MockStaff("staff-5", "Sneha Reddy", "salon-2", "Spa Therapist"),
    MockStaff("staff-6", "Kavita Menon", "salon-4", "Senior Stylist"),
    MockStaff("staff-7", "Vikram Joshi", "salon-6", "Creative Director")
  ]

  // ---------------------------------------------------------------- lookups

  /** `getSalonsByCity`. */
  function SalonsByCity(cityId: string): (r: seq<MockSalon>)
    ensures Seqs.IsSubsequence(r, Salons)
  {
    Seqs.Filter((s: MockSalon) => s.cityId == cityId, Salons)
  }

  /** `getStaffBySalon`. */
  function StaffBySalon(salonId: string): (r: seq<MockStaff>)
    ensures Seqs.IsSubsequence(r, StaffMembers)
  {
    Seqs.Filter((s: MockStaff) => s.salonId == salonId, StaffMembers)
  }

  /** `getServicesByCategory`. */
  function ServicesByCategory(categoryId: string): (r: seq<MockService>)
    ensures Seqs.IsSubsequence(r, Services)
  {
    Seqs.Filter((s: MockService) => s.categoryId == categoryId, Services)
  }

  /** Each lookup returns exactly the matching records, every copy of each, in the data's order. */
  lemma LookupsExact(cityId: string, salonId: string, categoryId: string, s: MockSalon, t: MockStaff, v: MockService)
    ensures s in SalonsByCity(cityId) <==> s in Salons && s.cityId == cityId
    ensures t in StaffBySalon(salonId) <==> t in StaffMembers && t.salonId == salonId
    ensures v in ServicesByCategory(categoryId) <==> v in Services && v.categoryId == categoryId
    ensures multiset(SalonsByCity(cityId))[s] == if s.cityId == cityId then multiset(Salons)[s] else 0
  {
    Seqs.FilterMember((s: MockSalon) => s.cityId == cityId, Salons, s);
    Seqs.FilterMember((s: MockStaff) => s.salonId == salonId, StaffMembers, t);
    Seqs.FilterMember((s: MockService) => s.categoryId == categoryId, Services, v);
    Seqs.FilterCounts((s: MockSalon) => s.cityId == cityId, Salons, s);
  }

  // ---------------------------------------------------------------- integrity of the data

  function CityIds(): (ids: seq<string>)
    ensures |ids| == |Cities| && forall i :: 0 <= i < |Cities| ==> ids[i] == Cities[i].id
  {
    seq(|Cities|, i requires 0 <= i < |Cities| => Cities[i].id)
  }

  function SalonIds(): (ids: seq<string>)
    ensures |ids| == |Salons| && forall i :: 0 <= i < |Salons| ==> ids[i] == Salons[i].id
  {
    seq(|Salons|, i requires 0 <= i < |Salons| => Salons[i].id)
  }

  function CategoryIds(): (ids: seq<string>)
    ensures |ids| == |ServiceCategories| && forall i :: 0 <= i < |ServiceCategories| ==> ids[i] == ServiceCategories[i].id
  {
    seq(|ServiceCategories|, i requires 0 <= i < |ServiceCategories| => ServiceCategories[i].id)
  }

  /** Every salon's city, every staff member's salon and every service's category exists. */
  lemma ReferencesResolve()
    ensures forall i :: 0 <= i < |Salons| ==> Salons[i].cityId in CityIds()
    ensures forall i :: 0 <= i < |StaffMembers| ==> StaffMembers[i].salonId in SalonIds()
    ensures forall i :: 0 <= i < |Services| ==> Services[i].categoryId in CategoryIds()
  {
    var c := CityIds();
    assert c[0] == "mumbai" && c[1] == "delhi" && c[2] == "bangalore" && c[3] == "hyderabad";
    var s := SalonIds();
    assert s[0] == "salon-1" && s[1] == "salon-2" && s[3] == "salon-4" && s[5] == "salon-6";
    var k := CategoryIds();
    assert k[0] == "hair" && k[1] == "color" && k[2] == "spa" && k[3] == "makeup" && k[4] == "nails";
  }

  /** A time written `HH:MM` with two digits on each side. */
  predicate ClockShaped(t: string) {
    |t| == 5 && IsDigit(t[0]) && IsDigit(t[1]) && t[2] == ':' && IsDigit(t[3]) && IsDigit(t[4])
  }

  /** The minutes an `HH:MM` time stands for, read digit by digit. */
  function ClockValue(t: string): nat
    requires ClockShaped(t)
  {
    600 * DigitValue(t[0]) + 60 * DigitValue(t[1]) + 10 * DigitValue(t[3]) + DigitValue(t[4])
  }

  lemma ParseShaped(t: string)
    requires ClockShaped(t)
    ensures ParseTime(t) == Some(ClockValue(t))
  {
    assert t == [t[0], t[1], ':', t[3], t[4]];
    ParseClockTime(t, t[0], t[1], t[3], t[4]);
  }

  /** Every salon's hours are well formed, and it opens before it closes. */
  lemma SalonHoursOrdered()
    ensures forall i :: 0 <= i < |Salons| ==>
              ClockShaped(Salons[i].openTime) && ClockShaped(Salons[i].closeTime)
              && ClockValue(Salons[i].openTime) < ClockValue(Salons[i].closeTime)
  {
  }

  /** So `parseTime` reads each salon's hours, opening before closing. */
  lemma SalonHoursParse(s: MockSalon)
    requires s in Salons
    ensures ParseTime(s.openTime).Some? && ParseTime(s.closeTime).Some?
    ensures ParseTime(s.openTime).value < ParseTime(s.closeTime).value
  {
    SalonHoursOrdered();
    ParseShaped(s.openTime);
    ParseShaped(s.closeTime);
  }

  // ---------------------------------------------------------------- the older slot generator

  /** `split(":").map(Number)` destructured into an hour and a minute field; a field that is
      missing (undefined) or not a number is NaN, here `None`. */
  function LegacyFields(s: string): (Option<nat>, Option<nat>) {
    var parts := Split(s, ':');
    (ParseNumber(parts[0]), if |parts| >= 2 then ParseNumber(parts[1]) else None)
  }

  /** The older parser agrees with `parseTime`: a time whose two fields read as h and m is
      60h + m minutes, and one with a NaN field is NaN to both. */
  lemma LegacyFieldsAgree(s: string)
    ensures var (h, m) := LegacyFields(s);
            (h.Some? && m.Some? ==> ParseTime(s) == Some(60 * h.value + m.value))
            && (h.None? || m.None? ==> ParseTime(s) == None)
  {
  }

  /** The loop condition: (h, m) comes before (closeHour, closeMin) in hour-then-minute order. */
  predicate Before(h: nat, m: nat, closeHour: nat, closeMin: nat) {
    h < closeHour || (h == closeHour && m < closeMin)
  }

  /** One step: add 30 minutes; on reaching 60 the minutes restart at 0, not at the overflow. */
  function Next(h: nat, m: nat): (nat, nat) {
    if m + 30 >= 60 then (h + 1, 0) else (h, m + 30)
  }

  /** Every step moves forward in hour-then-minute order. */
  lemma NextMovesForward(h: nat, m: nat)
    ensures var (h2, m2) := Next(h, m);
            h2 > h || (h2 == h && m2 > m)
  {
  }

  /** From a minute value below 60 each step strictly increases h·60 + m, so the emitted times
      increase. */
  lemma NextIncreasesMinutes(h: nat, m: nat)
    requires m < 60
    ensures var (h2, m2) := Next(h, m);
            h2 * 60 + m2 > h * 60 + m && m2 < 60
  {
  }

  /** A minute field above 60 breaks that: "10:90" steps back to 11:00. */
  lemma OverflowingMinutesStepBack()
    ensures Next(10, 90) == (11, 0) && 11 * 60 + 0 < 10 * 60 + 90
  {
  }

  /** The start times the loop visits, in order. */
  function LegacyStarts(h: nat, m: nat, closeHour: nat, closeMin: nat): (r: seq<(nat, nat)>)
    ensures forall i :: 0 <= i < |r| ==> Before(r[i].0, r[i].1, closeHour, closeMin)
    ensures Before(h, m, closeHour, closeMin) <==> |r| > 0
    ensures |r| > 0 ==> r[0] == (h, m)
    decreases closeHour + 1 - h, 60 - m
  {
    if Before(h, m, closeHour, closeMin) then
      var (h2, m2) := Next(h, m);
      [(h, m)] + LegacyStarts(h2, m2, closeHour, closeMin)
    else []
  }

  /** Consecutive start times are one step apart. */
  lemma {:induction false} LegacyStartsStep(h: nat, m: nat, closeHour: nat, closeMin: nat, i: nat)
    requires i + 1 < |LegacyStarts(h, m, closeHour, closeMin)|
    ensures var r := LegacyStarts(h, m, closeHour, closeMin);
            r[i + 1] == Next(r[i].0, r[i].1)
    decreases closeHour + 1 - h, 60 - m
  {
    var (h2, m2) := Next(h, m);
    if i > 0 {
      LegacyStartsStep(h2, m2, closeHour, closeMin, i - 1);
    }
  }

  /** Opening at 10:15 and closing at 12:00 gives 10:15, 10:45, 11:00 and 11:30: after the first
      overflow the slots sit on the hour and half hour. */
  lemma QuarterPastOpening()
    ensures LegacyStarts(10, 15, 12, 0) == [(10, 15), (10, 45), (11, 0), (11, 30)]
  {
  }

  /** `HH:MM` with both fields zero-padded to two digits. */
  function ClockLabel(h: nat, m: nat): string {
    PadStart2(NatToString(h)) + ":" + PadStart2(NatToString(m))
  }

  /** A slot: booked when its label is listed, or when the random draw for slot `i` (the oracle
      `busy`) says so. */
  function LegacySlot(start: (nat, nat), i: nat, bookedSlots: seq<string>, busy: nat -> bool): TimeSlot {
    var time := ClockLabel(start.0, start.1);
    TimeSlot(time, !(time in bookedSlots || busy(i)))
  }

  function LegacySlots(starts: seq<(nat, nat)>, bookedSlots: seq<string>, busy: nat -> bool): (r: seq<TimeSlot>)
    ensures |r| == |starts|
    ensures forall i :: 0 <= i < |starts| ==> r[i] == LegacySlot(starts[i], i, bookedSlots, busy)
  {
    seq(|starts|, i requires 0 <= i < |starts| => LegacySlot(starts[i], i, bookedSlots, busy))
  }

  /** A listed time is never offered; any other slot's availability is the oracle's. */
  lemma BookedNeverAvailable(starts: seq<(nat, nat)>, bookedSlots: seq<string>, busy: nat -> bool, i: nat)
    requires i < |starts|
    ensures var s := LegacySlots(starts, bookedSlots, busy)[i];
            (s.time in bookedSlots ==> !s.available)
            && (s.time !in bookedSlots ==> s.available == !busy(i))
  {
  }

  /** Moving one start time from the pending part to the visited part. */
  lemma LegacyStartsUnfold(visited: seq<(nat, nat)>, h: nat, m: nat, closeHour: nat, closeMin: nat)
    requires Before(h, m, closeHour, closeMin)
    ensures visited + LegacyStarts(h, m, closeHour, closeMin)
            == (visited + [(h, m)]) + LegacyStarts(Next(h, m).0, Next(h, m).1, closeHour, closeMin)
  {
  }

  /** Appending a start time appends its slot. */
  lemma LegacySlotsAppend(starts: seq<(nat, nat)>, x: (nat, nat), bookedSlots: seq<string>, busy: nat -> bool)
    ensures LegacySlots(starts + [x], bookedSlots, busy)
            == LegacySlots(starts, bookedSlots, busy) + [LegacySlot(x, |starts|, bookedSlots, busy)]
  {
    var l := LegacySlots(starts + [x], bookedSlots, busy);
    var r := LegacySlots(starts, bookedSlots, busy) + [LegacySlot(x, |starts|, bookedSlots, busy)];
    forall i | 0 <= i < |l| ensures l[i] == r[i] {
      if i < |starts| {
        assert (starts + [x])[i] == starts[i];
      }
    }
  }

  /** The one input on which the older generator never returns: readable hours with the opening
      hour before the closing hour, but NaN opening minutes. The minute counter stays NaN, the
      hour never advances, and slots are pushed forever. */
  predicate LegacyDiverges(openTime: string, closeTime: string) {
    var (openHour, openMin) := LegacyFields(openTime);
    var (closeHour, _) := LegacyFields(closeTime);
    openHour.Some? && closeHour.Some? && openMin.None? && openHour.value < closeHour.value
  }

  /** What the older generator returns. A NaN hour fails the loop test at once, and so does NaN
      opening minutes once the opening hour is not before the closing hour. NaN closing minutes
      fail `currentMin < closeMin`, leaving `currentHour < closeHour`, which is the test against
      closing minute 0. */
  function LegacyExpected(openTime: string, closeTime: string, bookedSlots: seq<string>, busy: nat -> bool)
    : seq<TimeSlot>
  {
    var (openHour, openMin) := LegacyFields(openTime);
    var (closeHour, closeMin) := LegacyFields(closeTime);
    if openHour.None? || closeHour.None? || openMin.None? then []
    else LegacySlots(LegacyStarts(openHour.value, openMin.value, closeHour.value, closeMin.GetOr(0)), bookedSlots, busy)
  }

  /** Times whose hour does not read as a number give no slot, whatever the rest. */
  lemma NaNHourNoLegacySlots(openTime: string, closeTime: string, bookedSlots: seq<string>, busy: nat -> bool)
    requires LegacyFields(openTime).0.None? || LegacyFields(closeTime).0.None?
    ensures LegacyExpected(openTime, closeTime, bookedSlots, busy) == []
  {
  }

  /** The older `generateTimeSlots`: step from opening time while before closing time, on every
      input on which it returns. */
  method LegacyGenerateTimeSlots(openTime: string, closeTime: string, serviceDuration: int,
                                 bookedSlots: seq<string>, busy: nat -> bool)
    returns (slots: seq<TimeSlot>)
    requires !LegacyDiverges(openTime, closeTime)
    ensures slots == LegacyExpected(openTime, closeTime, bookedSlots, busy)
  {
    var (openHour, openMin) := LegacyFields(openTime);
    var (closeHour, closeMin) := LegacyFields(closeTime);
    if openHour.None? || closeHour.None? || openMin.None? {
      slots := [];
    } else {
      slots := SteppedSlots(openHour.value, openMin.value, closeHour.value, closeMin.GetOr(0), bookedSlots, busy);
    }
  }

  /** The loop of the older generator, on the numeric hour and minute fields. */
  method SteppedSlots(openHour: nat, openMin: nat, closeHour: nat, closeMin: nat,
                      bookedSlots: seq<string>, busy: nat -> bool)
    returns (slots: seq<TimeSlot>)
    ensures slots == LegacySlots(LegacyStarts(openHour, openMin, closeHour, closeMin), bookedSlots, busy)
  {
    var currentHour: nat, currentMin: nat := openHour, openMin;
    ghost var visited: seq<(nat, nat)> := [];
    slots := [];
    while currentHour < closeHour || (currentHour == closeHour && currentMin < closeMin)
      invariant visited + LegacyStarts(currentHour, currentMin, closeHour, closeMin)
                == LegacyStarts(openHour, openMin, closeHour, closeMin)
      invariant slots == LegacySlots(visited, bookedSlots, busy)
      decreases closeHour + 1 - currentHour, 60 - currentMin
    {
      var timeString := ClockLabel(currentHour, currentMin);
      var isBooked := timeString in bookedSlots || busy(|slots|);
      var slot := TimeSlot(timeString, !isBooked);
      assert slot == LegacySlot((currentHour, currentMin), |visited|, bookedSlots, busy);
      LegacySlotsAppend(visited, (currentHour, currentMin), bookedSlots, busy);
      LegacyStartsUnfold(visited, currentHour, currentMin, closeHour, closeMin);
      slots := slots + [slot];
      visited := visited + [(currentHour, currentMin)];
      currentMin := currentMin + 30;
      if currentMin >= 60 {
        currentMin := 0;
        currentHour := currentHour + 1;
      }
    }
  }
}
