# Salon booking: a verified model

This project models the client-side logic of a salon-chain booking web application. The
application has three parts:

- A customer booking wizard. The customer picks a city, a salon, a service, a stylist, a date
  and a time slot, then confirms with contact details.
- A public offers page and a salon finder.
- An admin area guarded by roles: super admin, city manager, salon manager and staff. It lists
  and filters bookings, staff, salons, services and offers.

Each core source file has its own Dafny module:

- `BookingData`: reference data, the availability engine that turns salon hours and existing bookings into bookable 30-minute slots (a loop proved against a specification function), and the per-city salon tally.
- `BookingWizard`: the six-step wizard as a class whose methods update the current step and the gathered selection.
- `BookingProgress`: the step indicator.
- `DateTimeStep`: the date window, the slots shown, their grouping into morning, afternoon and evening, and the step's selection state.
- `ConfirmationStep`: contact validation, the booking request, and the submit and settle handlers.
- `Offers`: discount arithmetic, the strict booking-time applicability rule and the looser discovery rule.
- `AdminOffers`, `OfferForm`, `OffersPage`: the admin offer list, the create/edit dialog and the public offers page.
- `Auth`, `AdminSidebar`, `ProtectedRoute`, `Settings`: role flags, managed salon and city, menu visibility, the route guard, and the role badge and permission list.
- `AdminBookings`, `AdminStaff`, `AdminSalons`, `AdminServices`: the admin list queries, their search boxes and the add-form defaults.
- `FindSalon`: the salon finder's filters and sorted area list.
- `MockData`: the bundled demonstration data and the older slot generator.
- `Testimonials`: the home-page carousel as a class holding the active index.

Helper modules:

- `Wrappers`: `Option`, for `null` and `undefined`.
- `Seqs`: filtering and subsequences.
- `Text`: JavaScript string operations on `seq<char>`. This covers ASCII case folding, substring search, trimming, splitting, lexicographic comparison and `Number()` on decimal digit strings.
- `Schema`: the database enumerations.

Modelling choices:

- A database query is modelled as a filter over the table's rows, using the query's `eq` conditions.
- Dates in the wizard are day numbers.
- Offer dates are `yyyy-MM-dd` strings compared character by character. For such strings, character order is calendar order (section 5.1 of RFC 3339).
- Prices are `real`.
- `Math.random()` is an oracle parameter `busy: nat -> bool`.

## Model

| member | source | states |
|---|---|---|
| BookingData.ParseTime | src/hooks/useBookingData.ts:188-191 | a parsed time is never negative; a missing or non-numeric field gives NaN |
| BookingData.MinutesOf | src/hooks/useBookingData.ts:189-190 | hours times 60 plus minutes, never negative, NaN when either field is not a number |
| BookingData.ParseTimeFields | src/hooks/useBookingData.ts:187-191 | "HH:MM" reads as 60 * HH + MM, and a seconds field after a further colon is ignored |
| BookingData.ParseTimeNeedsColon | src/hooks/useBookingData.ts:189 | a time with no colon has no minutes field and reads as NaN |
| BookingData.LabelRoundTrip | src/hooks/useBookingData.ts:198-200 | reading a slot's label back gives the slot's minute value |
| BookingData.LabelShape | src/hooks/useBookingData.ts:198-200 | a label is hours, a colon and two minute digits below 60, the hours padded to at least two digits |
| BookingData.SlotCountIsCeiling | src/hooks/useBookingData.ts:197 | the loop runs the ceiling of (close - open) / 30 times: the last start is before closing and one more step would reach it |
| BookingData.GenerateTimeSlots | src/hooks/useBookingData.ts:179-219 | the loop's slots are exactly the closed-form slot sequence of the two parsed times |
| BookingData.TimeSlotsOfParsed | src/hooks/useBookingData.ts:193-197 | once both times parse, the slots are those between the two minute values |
| BookingData.SlotTimes | src/hooks/useBookingData.ts:197-200 | slot i reads back as opening plus 30 * i minutes, and starts before closing |
| BookingData.UnavailableIffOverlap | src/hooks/useBookingData.ts:203-214 | a slot is unavailable exactly when some booking with a readable time overlaps the service interval starting there |
| BookingData.TouchingDoesNotBlock | src/hooks/useBookingData.ts:209 | a booking that ends when the service starts, or starts when it ends, does not block it |
| BookingData.OneBooking | src/hooks/useBookingData.ts:203-210 | with a single booking, a slot is booked exactly when that booking blocks it |
| BookingData.NoBookingsAllAvailable | src/hooks/useBookingData.ts:203-215 | with no bookings every slot is available |
| BookingData.NaNHoursNoSlots | src/hooks/useBookingData.ts:193-197 | an unreadable opening or closing time gives no slots at all |
| BookingData.ParseClockTime | src/hooks/useBookingData.ts:188-191 | a literal "HH:MM" reads as its minutes since midnight |
| BookingData.LabelOf600 | src/hooks/useBookingData.ts:198-200 | minute 600 is labelled "10:00" |
| BookingData.LastSlotIgnoresClosing | src/hooks/useBookingData.ts:197-209 | with no bookings the last slot is offered and available even when the service runs past closing |
| BookingData.SingleSlotAt600 | src/hooks/useBookingData.ts:197-215 | between minutes 600 and 630 a 120-minute service gets the single available slot "10:00" |
| BookingData.OverrunningSlotOffered | src/hooks/useBookingData.ts:197-215 | a salon open 10:00 to 10:30 offers 10:00 for a 120-minute service that ends at 12:00 |
| BookingData.WorkedExample | src/hooks/useBookingData.ts:179-219 | open 10:00 to 12:00, a 60-minute service and a 30-minute booking at 10:30: 10:00 and 10:30 are taken, 11:00 and 11:30 are free |
| BookingData.AddingBookingIsMonotone | src/hooks/useBookingData.ts:203-215 | a further booking never moves a slot and never frees one |
| BookingData.TotalWithout | src/hooks/useBookingData.ts:234-237 | the tally's total may be summed by taking out any city first |
| BookingData.TallyStep | src/hooks/useBookingData.ts:236 | counting one more row for a city adds one to the total |
| BookingData.CountSalonsByCity | src/hooks/useBookingData.ts:233-237 | every city that occurs, and no other, is a key; each maps to its number of rows; the counts add up to the number of rows |
| BookingWizard.Index | src/hooks/useBooking.ts:6 | the position of each step in the wizard order, below six, with `Steps` at that position being the step |
| BookingWizard.IndexBijection | src/hooks/useBooking.ts:6 | positions and steps correspond one to one |
| BookingWizard.CityChosenFrame | src/hooks/useBooking.ts:31-39 | choosing a city records it, clears salon and staff, keeps service, date and time, and moves to the salon step |
| BookingWizard.SalonChosenFrame | src/hooks/useBooking.ts:41-48 | choosing a salon records it, clears the staff member, keeps the rest and moves to the service step |
| BookingWizard.LaterChoicesFrame | src/hooks/useBooking.ts:50-73 | choosing a service, a staff member or none, or a date and time sets only those fields and moves one step on |
| BookingWizard.BackMovesOneStep | src/hooks/useBooking.ts:75-80 | back moves to the preceding step (from confirmation too), does nothing on the first step, never changes the selection |
| BookingWizard.JumpOnlyBackwards | src/hooks/useBooking.ts:82-90 | a jump changes the step exactly when the target is earlier, and never changes the selection |
| BookingWizard.RestartRestoresInitial | src/hooks/useBooking.ts:92-102 | restarting from any state gives the city step with all six fields null |
| BookingWizard.ProgressFacts | src/hooks/useBooking.ts:29 | progress grows strictly with the step, lies in (0, 100] and is 100 exactly at confirmation |
| BookingWizard.CanGoBackSteps | src/hooks/useBooking.ts:104 | the back button shows exactly on the salon, service, staff and date/time steps |
| BookingWizard.ApplyKeepsFilled | src/hooks/useBooking.ts:31-102 | an event made on its own step keeps every earlier step's field filled in |
| BookingWizard.RunKeepsFilled | src/hooks/useBooking.ts:31-102 | any run driven step by step from a filled state stays filled; at confirmation city, salon, service, date and time are all set |
| BookingWizard.ChoiceOutOfTurnBreaksInvariant | src/hooks/useBooking.ts:66-73 | a date and time chosen on the first step reaches confirmation without a city, so the invariant relies on the page order |
| BookingWizard.Wizard.constructor | src/hooks/useBooking.ts:18-26 | the hook starts on the city step with nothing selected |
| BookingWizard.Wizard.SelectCity | src/hooks/useBooking.ts:31-39 | the new state is the city-chosen transition of the old |
| BookingWizard.Wizard.SelectSalon | src/hooks/useBooking.ts:41-48 | the new state is the salon-chosen transition of the old |
| BookingWizard.Wizard.SelectService | src/hooks/useBooking.ts:50-56 | the new state is the service-chosen transition of the old |
| BookingWizard.Wizard.SelectStaff | src/hooks/useBooking.ts:58-64 | the new state is the staff-chosen transition of the old |
| BookingWizard.Wizard.SelectDateTime | src/hooks/useBooking.ts:66-73 | the new state is the date-and-time transition of the old |
| BookingWizard.Wizard.GoBack | src/hooks/useBooking.ts:75-80 | the new state is the back transition of the old |
| BookingWizard.Wizard.GoToStep | src/hooks/useBooking.ts:82-90 | the new state is the jump transition of the old |
| BookingWizard.Wizard.ResetBooking | src/hooks/useBooking.ts:92-102 | the new state is the restart transition of the old |
| BookingProgress.Markers | src/components/booking/BookingProgress.tsx:12-19 | one marker per step, in wizard order, captioned City, Salon, Service, Stylist, Date & Time, Confirm |
| BookingProgress.Click | src/components/booking/BookingProgress.tsx:38-39 | a marker reports its own step exactly when it is clickable, and nothing otherwise |
| BookingProgress.MarkerOrder | src/components/booking/BookingProgress.tsx:12-19 | the six markers carry the six wizard steps in order |
| BookingProgress.CompletedCount | src/components/booking/BookingProgress.tsx:30-32 | marker i is completed and clickable exactly when i is before the current step; as many are completed as the current index |
| BookingProgress.ExactlyOneCurrent | src/components/booking/BookingProgress.tsx:31 | exactly one marker is current, the one at the current step's index |
| BookingProgress.ConnectorFilled | src/components/booking/BookingProgress.tsx:82-87 | every marker but the last has a connector, filled exactly when the marker is before the current step |
| BookingProgress.ClickMovesBack | src/components/booking/BookingProgress.tsx:38 | a click reports only an earlier step, and the wizard's jump moves there leaving the selection as it was |
| DateTimeStep.SelectableWindow | src/components/booking/DateTimeStep.tsx:19-20 | a day can be picked exactly when it lies between today and thirty days ahead, both included (the calendar's `disabled` test at lines 144-146) |
| DateTimeStep.AsBooked | src/components/booking/DateTimeStep.tsx:28-31 | each fetched booking is handed to the engine as its time and duration only, one for one and in order |
| DateTimeStep.NoSlotsWithoutDateOrHours | src/components/booking/DateTimeStep.tsx:26 | no slot is shown without a picked date or without the salon's opening or closing time |
| DateTimeStep.StaffIgnored | src/components/booking/DateTimeStep.tsx:25-39 | bookings that agree on time and duration give the same slots whoever the stylist is |
| DateTimeStep.HourOfLabel | src/components/booking/DateTimeStep.tsx:58 | the hour read back from a slot label is the slot's hour |
| DateTimeStep.GroupsPartition | src/components/booking/DateTimeStep.tsx:57-70 | morning, afternoon and evening together hold every engine slot exactly once, each group in slot order |
| DateTimeStep.DateTimePicker.constructor | src/components/booking/DateTimeStep.tsx:16-17 | nothing is picked when the step opens |
| DateTimeStep.DateTimePicker.HandleDateSelect | src/components/booking/DateTimeStep.tsx:41-44 | the picked date becomes the argument and the picked time is cleared |
| DateTimeStep.DateTimePicker.HandleTimeSelect | src/components/booking/DateTimeStep.tsx:46-48 | the picked time becomes the argument and the date is kept |
| DateTimeStep.DateTimePicker.HandleSlotClick | src/components/booking/DateTimeStep.tsx:82-83 | clicking an available slot picks its time; clicking an unavailable one changes nothing |
| DateTimeStep.DateTimePicker.HandleConfirm | src/components/booking/DateTimeStep.tsx:50-54 | the date and time are handed on exactly when both are set and the time is non-empty |
| ConfirmationStep.StaffId | src/components/booking/ConfirmationStep.tsx:64 | the staff id is sent exactly when a staff member with a non-empty id is chosen, and is then that id |
| ConfirmationStep.CheckSubmission | src/components/booking/ConfirmationStep.tsx:47-72 | an empty contact field refuses first; otherwise a missing salon, service, date or time refuses; otherwise the request carries the selection (the staff id exactly when a staff member with a non-empty id was chosen), the service's duration and base price, and the contact details as typed |
| ConfirmationStep.WhitespaceContactAccepted | src/components/booking/ConfirmationStep.tsx:50 | contact fields are checked for emptiness only, so whitespace-only details are sent |
| ConfirmationStep.ReachedConfirmationSubmits | src/components/booking/ConfirmationStep.tsx:55-58 | a wizard driven to confirmation with a non-empty time and filled contact fields always sends a request; the booking check cannot fire there |
| ConfirmationStep.NoDiscountInRequest | src/components/booking/ConfirmationStep.tsx:68 | the request carries the undiscounted base price, above the discounted price of any offer that saves something |
| ConfirmationStep.ConfirmationForm.constructor | src/components/booking/ConfirmationStep.tsx:38-43 | the form starts with three empty fields, no reference and no request in flight |
| ConfirmationStep.ConfirmationForm.SetName | src/components/booking/ConfirmationStep.tsx:38-42 | only the name field changes |
| ConfirmationStep.ConfirmationForm.SetPhone | src/components/booking/ConfirmationStep.tsx:38-42 | only the phone field changes |
| ConfirmationStep.ConfirmationForm.SetEmail | src/components/booking/ConfirmationStep.tsx:38-42 | only the email field changes |
| ConfirmationStep.ConfirmationForm.HandleSubmit | src/components/booking/ConfirmationStep.tsx:47-72 | the outcome is the submission decision on the current fields, and a sent request puts the call in flight (line 379 disables the button) |
| ConfirmationStep.ConfirmationForm.Settle | src/components/booking/ConfirmationStep.tsx:74-79 | the call is no longer in flight; a success stores the returned reference, a failure keeps the old one and the contact fields |
| Offers.CalculateDiscount | src/hooks/useOffers.ts:356-371 | the discounted price is never negative, and a flat saving never exceeds the price |
| Offers.DiscountSplitsPrice | src/hooks/useOffers.ts:361-370 | for a non-negative price, a flat discount or a percentage of at most 100 splits the price exactly into what is paid and what is saved |
| Offers.PercentageOver100 | src/hooks/useOffers.ts:362-363 | a percentage above 100 is not clamped: the saving exceeds the price and the discounted price is zero |
| Offers.DiscountExamples | src/hooks/useOffers.ts:361-370 | 20% off 1000 is 800 with 200 saved; 1500 flat off 1000 is 0 with 1000 saved |
| Offers.DiscountMonotone | src/hooks/useOffers.ts:361-370 | a larger discount value never raises the discounted price of a non-negative price |
| Offers.ApplicableOffers | src/hooks/useOffers.ts:127-185 | without a salon or a service there are no applicable offers; otherwise they are a subsequence of the fetched offers |
| Offers.ApplicableIff | src/hooks/useOffers.ts:155-179 | an offer applies exactly when it is active, its dates cover today, and its service, salon and city restrictions are each absent or list the booking's id |
| Offers.GlobalOfferAppliesEverywhere | src/hooks/useOffers.ts:164-176 | an offer with no restriction applies to every booking |
| Offers.RestrictionsRespected | src/hooks/useOffers.ts:164-178 | an applicable offer that restricts services, salons or cities lists the booked service, salon or city |
| Offers.Stage | src/hooks/useOffers.ts:90-113 | a filter stage keeps a subsequence, and an unset or empty filter keeps every offer |
| Offers.ActiveOffers | src/hooks/useOffers.ts:79-121 | the discovered offers are a subsequence of the fetched offers |
| Offers.StageMember | src/hooks/useOffers.ts:90-119 | an offer survives a stage exactly when the filter is unset or the stage's test keeps it |
| Offers.ActiveOffersIff | src/hooks/useOffers.ts:79-121 | an offer is discovered exactly when it is active and dated for today and passes each set filter: city (listed city, salon in the city, or neither list), salon (listed or unrestricted), service (listed or unrestricted) |
| Offers.ApplicableIsDiscoverable | src/hooks/useOffers.ts:88-179 | an offer that applies to a booking is also discovered on the offers page filtered by that booking's city, salon and service |
| Offers.DiscoveryIsLooser | src/hooks/useOffers.ts:95-101 | the converse fails: an offer restricted to one salon is discovered for its city but does not apply at another salon there |
| AdminOffers.StatusCases | src/pages/admin/Offers.tsx:54-59 | inactive exactly when switched off; expired exactly when on and ended before today; scheduled exactly when on, not ended and starting after today; active exactly when the customer-side validity rule holds |
| AdminOffers.ActiveMeansRunningToday | src/pages/admin/Offers.tsx:54-59 | for an offer that does not end before it starts, active means switched on with today inside its dates; expired ones started and ended before today; scheduled ones start after today |
| AdminOffers.FilteredOffers | src/pages/admin/Offers.tsx:61-73 | an unloaded list stays unloaded; a loaded one is filtered to a subsequence |
| AdminOffers.FilteredOffersIff | src/pages/admin/Offers.tsx:61-72 | an offer is listed exactly when it is loaded, the search is empty or occurs in the title or description ignoring case, and the status button is all or names its status |
| AdminOffers.NoFilterKeepsAll | src/pages/admin/Offers.tsx:62-67 | with no search and the all button the list is shown unchanged |
| AdminOffers.ScheduledOnlyUnderAll | src/pages/admin/Offers.tsx:67-70 | a scheduled offer is listed only under the all button |
| OfferForm.Toggle | src/components/admin/offers/OfferFormDialog.tsx:141-143 | a listed id is removed, every copy, leaving the other ids and their order; an unlisted id is appended at the end |
| OfferForm.ToggleTwice | src/components/admin/offers/OfferFormDialog.tsx:141-143 | ticking a box and unticking it again restores the list |
| OfferForm.ToggleKeepsNoDuplicates | src/components/admin/offers/OfferFormDialog.tsx:141-143 | toggling never introduces a duplicate id |
| OfferForm.ToggleIn | src/components/admin/offers/OfferFormDialog.tsx:138-145 | only the named list is toggled; the other two lists and every other field are unchanged |
| OfferForm.OrUndefined | src/components/admin/offers/OfferFormDialog.tsx:116-117 | an empty text field is sent as missing, any other as itself |
| OfferForm.NonEmptyOrUndefined | src/components/admin/offers/OfferFormDialog.tsx:124-126 | an empty list is sent as missing, any other as itself |
| OfferForm.SalonIdsOf | src/components/admin/offers/OfferFormDialog.tsx:90 | the salon ids of the restriction rows, one for one and in order |
| OfferForm.Prefill | src/components/admin/offers/OfferFormDialog.tsx:78-92 | the form takes the offer's restriction ids (none when the rows are missing) and empty text for missing text |
| OfferForm.Submission | src/components/admin/offers/OfferFormDialog.tsx:114-127 | empty text and empty lists are sent as missing; title and discount are sent as they are |
| OfferForm.BlankSubmitsGlobalOffer | src/components/admin/offers/OfferFormDialog.tsx:93-108 | saving the blank form unchanged creates an active, unfeatured 0% offer with no restriction of any kind |
| OfferForm.PrefillSubmitRoundTrip | src/components/admin/offers/OfferFormDialog.tsx:78-127 | saving an opened offer unchanged sends each list exactly when the offer is restricted on it, with the same ids, and keeps title and dates |
| OfferForm.ReopenedDay | src/components/admin/offers/OfferFormDialog.tsx:83-119 | a stored day parsed as UTC midnight and printed in local time comes back unchanged at or east of UTC and one day earlier west of it |
| OfferForm.ReopenedTimesDrift | src/components/admin/offers/OfferFormDialog.tsx:83-119 | after k unchanged saves the day is unchanged at or east of UTC and k days earlier west of it |
| OfferForm.OfferFormState.constructor | src/components/admin/offers/OfferFormDialog.tsx:62-109 | the dialog opens prefilled from the edited offer, or blank |
| OfferForm.OfferFormState.Reset | src/components/admin/offers/OfferFormDialog.tsx:77-109 | the form becomes the prefill of the edited offer, or the blank form |
| OfferForm.OfferFormState.ToggleSelection | src/components/admin/offers/OfferFormDialog.tsx:138-145 | the form becomes the toggle of the named list |
| OfferForm.OfferFormState.Submit | src/components/admin/offers/OfferFormDialog.tsx:111-127 | the record sent is the submission of the current form |
| OffersPage.FeaturedOffers | src/pages/Offers.tsx:62 | nothing while loading; otherwise a subsequence of the discovered offers |
| OffersPage.RegularOffers | src/pages/Offers.tsx:63 | nothing while loading; otherwise a subsequence of the discovered offers |
| OffersPage.FeaturedRegularPartition | src/pages/Offers.tsx:62-63 | the featured and regular sections together hold every discovered offer exactly as often as the list does, each in the section its flag names |
| OffersPage.FromSelect | src/pages/Offers.tsx:112-132 | the "all" entry is no filter; any other value is that id |
| OffersPage.ChooseCity | src/pages/Offers.tsx:111-114 | choosing a city sets the city filter from the select and drops the salon filter |
| OffersPage.ChooseSalon | src/pages/Offers.tsx:132 | choosing a salon sets the salon filter and keeps the city filter |
| OffersPage.Shown | src/pages/Offers.tsx:37-40 | the page shows a subsequence of the fetched offers, discovered by city and salon |
| OffersPage.ClearShowsAllValid | src/pages/Offers.tsx:65-70 | after clearing no filter is set and every offer valid today is shown |
| OffersPage.ChosenCityShows | src/pages/Offers.tsx:111-114 | after a city is chosen an offer is shown exactly when it is valid today and the city stage keeps it |
| OffersPage.RemovingSalonFilterWidens | src/pages/Offers.tsx:37-40 | an offer shown under a salon filter is still shown when only that filter is removed |
| OffersPage.OffersPageFilters.constructor | src/pages/Offers.tsx:33-34 | the page starts with no city and no salon filter |
| OffersPage.OffersPageFilters.SelectCity | src/pages/Offers.tsx:111-114 | the filters become the city choice of the old filters |
| OffersPage.OffersPageFilters.SelectSalon | src/pages/Offers.tsx:132 | the filters become the salon choice of the old filters |
| OffersPage.OffersPageFilters.ClearFilters | src/pages/Offers.tsx:65-68 | both filters are dropped |
| OffersPage.BadgesMatchRestrictions | src/pages/Offers.tsx:326-407 | "All Services" shows exactly without a service restriction and "All Locations" exactly without city and salon restrictions; an offer with both applies to every booking and passes every discovery stage |
| OffersPage.DiscountLabel | src/pages/Offers.tsx:279-281 | a percentage badge ends in "% OFF"; a flat badge starts with the rupee sign and ends in " OFF" |
| OffersPage.DiscountLabelReadsBack | src/pages/Offers.tsx:279-281 | the discount value can be read back from the badge's leading digits |
| Auth.OnlyRole | src/hooks/useAuth.tsx:136-141 | the flags of a user holding one role record are those of that role alone |
| Auth.IsAdminIff | src/hooks/useAuth.tsx:138-142 | a user is an admin exactly when some role record is not the customer role |
| Auth.FirstSet | src/hooks/useAuth.tsx:144-152 | nothing exactly when no id is set; otherwise the earliest set id |
| Auth.ManagedSalonIsFirst | src/hooks/useAuth.tsx:144-147 | the managed salon is the salon of the earliest role record naming one, and there is none exactly when no record names one |
| Auth.ManagedCityIsFirst | src/hooks/useAuth.tsx:149-152 | the same for the managed city |
| Auth.NoRolesNoPrivileges | src/hooks/useAuth.tsx:136-152 | with no role records every flag is off, the user is no admin and nothing is managed |
| Auth.AuthState.constructor | src/hooks/useAuth.tsx:46-50 | nobody signed in, no roles, loading |
| Auth.AuthState.OnAuthStateChange | src/hooks/useAuth.tsx:54-66 | session and user follow the event; a session starts loading and keeps the data until it is fetched; no session drops profile and roles and ends loading |
| Auth.AuthState.OnInitialSession | src/hooks/useAuth.tsx:69-78 | session and user follow the lookup; profile and roles are kept; loading ends when there is no session and is left as it was otherwise |
| Auth.AuthState.OnUserData | src/hooks/useAuth.tsx:83-104 | the profile as found and the role rows, or none, are stored and loading ends |
| Auth.AuthState.SignOut | src/hooks/useAuth.tsx:128-134 | user, session and profile become null and roles empty, so the user is no admin and manages nothing |
| AdminSidebar.SingleEntryAccess | src/components/admin/AdminSidebar.tsx:56-63 | "all" admits everyone; a super admin entry admits super admins; city manager admits super admins and city managers; salon manager adds salon managers; staff admits any admin; a customer entry or an empty list admits nobody |
| AdminSidebar.AccessMonotone | src/components/admin/AdminSidebar.tsx:56-63 | more flags, or more entries in the role list, never remove access |
| AdminSidebar.VisibleManagementItems | src/components/admin/AdminSidebar.tsx:65 | the visible management items are a subsequence of the six, in order |
| AdminSidebar.Pages | src/components/admin/AdminSidebar.tsx:47-54 | the page of each item, one for one and in order |
| AdminSidebar.SalonManagerSees | src/components/admin/AdminSidebar.tsx:47-65 | a salon manager sees Staff and Services, in that order |
| AdminSidebar.CityManagerSees | src/components/admin/AdminSidebar.tsx:47-65 | a city manager sees Staff, Services and Salons |
| AdminSidebar.SuperAdminSeesAll | src/components/admin/AdminSidebar.tsx:47-65 | a super admin sees all six items |
| AdminSidebar.StaffSeesNone | src/components/admin/AdminSidebar.tsx:47-65 | a staff member or a customer sees no management item |
| AdminSidebar.MainMenuForEveryone | src/components/admin/AdminSidebar.tsx:42-45 | Dashboard and Bookings are shown to everyone |
| ProtectedRoute.Guard | src/components/auth/ProtectedRoute.tsx:21-40 | a spinner while loading; then a redirect to login exactly when sign-in is required and missing; then a redirect home exactly when a non-empty role list is not met; otherwise the page |
| ProtectedRoute.AdminAreaIsAdmin | src/components/auth/ProtectedRoute.tsx:33-38 | a signed-in, loaded user passes the admin area's guard (role list at App.tsx line 27) exactly when the user is an admin |
| ProtectedRoute.SignedOutSeesNothingProtected | src/components/auth/ProtectedRoute.tsx:21-40 | with no user and no roles, no page that requires sign-in or a role renders |
| Settings.RoleBadge | src/pages/admin/Settings.tsx:9-15 | the badge is one of the five captions, and it is "Customer" exactly when no admin flag is set |
| Settings.BadgeIsHighestRole | src/pages/admin/Settings.tsx:9-15 | the badge names the highest role held |
| Settings.Permissions | src/pages/admin/Settings.tsx:99-132 | bookings always come first; staff management exactly for the three manager roles; salons exactly for super admins and city managers; role assignment exactly for super admins; no line repeats |
| Settings.PermissionsMonotone | src/pages/admin/Settings.tsx:103-132 | more flags never take a permission away |
| Settings.PermissionsNested | src/pages/admin/Settings.tsx:99-132 | the single-role lists nest staff within salon manager within city manager within super admin; staff and customers see only bookings |
| Settings.PermissionsMatchSidebar | src/pages/admin/Settings.tsx:103-132 | staff, services, salons and cities are listed exactly when the sidebar shows their menu items |
| AdminBookings.QueryBookings | src/pages/admin/Bookings.tsx:59-65 | the requested bookings are a subsequence of the bookings table |
| AdminBookings.QueryBookingsIff | src/pages/admin/Bookings.tsx:59-65 | a booking is requested exactly when it is in the managed salon (only for a salon-only manager with a managed salon) and has the chosen status (unless "all") |
| AdminBookings.UnscopedAllStatusesIsWholeTable | src/pages/admin/Bookings.tsx:59-65 | without the salon restriction and under "all" the whole table is requested |
| AdminBookings.ScopeByRole | src/pages/admin/Bookings.tsx:59-61 | a salon-only manager's bookings all belong to the managed salon; a super admin is never restricted to a salon |
| AdminBookings.FilteredBookings | src/pages/admin/Bookings.tsx:91-99 | the search keeps loaded bookings as a subsequence and an unloaded list unloaded |
| AdminBookings.FilteredBookingsIff | src/pages/admin/Bookings.tsx:91-99 | a booking is listed exactly when the search is empty or occurs, ignoring case, in a present customer name, email or booking reference |
| AdminBookings.EmptySearchKeepsAll | src/pages/admin/Bookings.tsx:92 | an empty search lists every loaded booking in order |
| AdminBookings.AnonymousOnlyUnfiltered | src/pages/admin/Bookings.tsx:94-98 | a booking with none of the three fields is listed only under an empty search |
| AdminBookings.DisabledActions | src/pages/admin/Bookings.tsx:259-283 | the disabled menu actions are a subsequence of confirm, complete, cancel, no-show |
| AdminBookings.DisabledActionsByStatus | src/pages/admin/Bookings.tsx:261-283 | a pending booking has every action enabled; any other booking has exactly the action for its own status disabled |
| AdminStaff.ParseSpecialties | src/pages/admin/Staff.tsx:68 | splitting on commas, trimming and dropping empty pieces yields at most one specialty more than the number of commas |
| AdminStaff.TrimAll | src/pages/admin/Staff.tsx:68 | each piece is replaced by its trimmed form, position by position |
| AdminStaff.TrimKeepsCharacters | src/pages/admin/Staff.tsx:68 | trimming introduces no character |
| AdminStaff.SplitKeepsCharacters | src/pages/admin/Staff.tsx:68 | every character of a split piece occurs in the split text |
| AdminStaff.SpecialtiesAreClean | src/pages/admin/Staff.tsx:68 | every stored specialty is non-empty, has no whitespace at either end and contains no comma |
| AdminStaff.BlankStoresNothing | src/pages/admin/Staff.tsx:68 | a field of only commas and whitespace, the empty field included, stores no specialty |
| AdminStaff.SplitJoin | src/pages/admin/Staff.tsx:68 | splitting a separator-joined list returns the list when no item holds the separator |
| AdminStaff.CleanPiecesKept | src/pages/admin/Staff.tsx:68 | trimming and dropping empty pieces leave clean specialties unchanged |
| AdminStaff.JoinedSpecialtiesRoundTrip | src/pages/admin/Staff.tsx:68 | typing clean specialties separated by commas stores exactly those specialties |
| AdminStaff.QueryStaff | src/pages/admin/Staff.tsx:46-56 | the requested staff are a subsequence of the staff table |
| AdminStaff.QueryStaffScope | src/pages/admin/Staff.tsx:54-56 | a salon-only manager with a managed salon gets exactly that salon's staff; anyone else the whole table |
| AdminStaff.FilteredStaff | src/pages/admin/Staff.tsx:97-99 | the search keeps loaded staff as a subsequence and an unloaded list unloaded |
| AdminStaff.FilteredStaffIff | src/pages/admin/Staff.tsx:97-99 | a member is listed exactly when the name contains the search ignoring case; an empty search lists everyone in order |
| AdminStaff.NewStaffForm | src/pages/admin/Staff.tsx:29-35 | the add form starts (and, at line 75, resets) to empty text, role "Stylist" and the managed salon if any |
| AdminStaff.FormPresetToManagedSalon | src/pages/admin/Staff.tsx:34 | the preset salon is that of the first role record naming a salon |
| AdminSalons.QuerySalons | src/pages/admin/Salons.tsx:45-55 | the requested salons are a subsequence of the salons table |
| AdminSalons.QuerySalonsScope | src/pages/admin/Salons.tsx:53-55 | a non-super-admin with a managed city gets exactly that city's salons; anyone else the whole table |
| AdminSalons.CityManagerSeesOwnCity | src/pages/admin/Salons.tsx:53-55 | a city manager whose role names a city sees only that city's salons |
| AdminSalons.FilteredSalons | src/pages/admin/Salons.tsx:93-96 | the search keeps loaded salons as a subsequence and an unloaded list unloaded |
| AdminSalons.FilteredSalonsIff | src/pages/admin/Salons.tsx:93-96 | a salon is listed exactly when its name or area contains the search ignoring case; an empty search lists all in order |
| AdminSalons.NewSalonForm | src/pages/admin/Salons.tsx:29-35 | the add form starts (and, at line 71, resets) to empty text and the managed city if any |
| AdminSalons.NewSalonInOwnList | src/pages/admin/Salons.tsx:159 | a manager who is not shown the city select adds salons that appear in the manager's own restricted list |
| AdminServices.QueryServices | src/pages/admin/Services.tsx:46-56 | the requested services are a subsequence of the services table |
| AdminServices.QueryServicesIff | src/pages/admin/Services.tsx:54-56 | under "all" the whole table is requested; under a category exactly that category's services |
| AdminServices.FilteredServices | src/pages/admin/Services.tsx:94-96 | the search keeps loaded services as a subsequence and an unloaded list unloaded |
| AdminServices.FilteredServicesIff | src/pages/admin/Services.tsx:94-96 | a service is listed exactly when its name contains the search ignoring case; an empty search lists all in order |
| AdminServices.SearchIgnoresCategory | src/pages/admin/Services.tsx:94-96 | two loaded services with the same name are listed or hidden together |
| AdminServices.NewServiceForm | src/pages/admin/Services.tsx:30-36 | the add form starts (and, at line 72, resets) to a 60-minute service at 1000 rupees with empty text and no category |
| AdminServices.OnlySuperAdminEdits | src/pages/admin/Services.tsx:106-107 | of the four roles only the super admin is shown the add button (and, at lines 259 and 305, the row actions) |
| Testimonials.NextIndex | src/components/home/Testimonials.tsx:37-39 | the next index stays within the list |
| Testimonials.PrevIndex | src/components/home/Testimonials.tsx:41-43 | the previous index stays within the list |
| Testimonials.NextSteps | src/components/home/Testimonials.tsx:37-39 | next moves one place forward and wraps from the last testimonial to the first |
| Testimonials.PrevSteps | src/components/home/Testimonials.tsx:41-43 | previous moves one place back and wraps from the first testimonial to the last |
| Testimonials.NextPrevInverse | src/components/home/Testimonials.tsx:37-43 | previous undoes next and next undoes previous |
| Testimonials.NextTimes | src/components/home/Testimonials.tsx:37-39 | after one or more presses of next the index is within the list |
| Testimonials.NextTimesAdvances | src/components/home/Testimonials.tsx:37-39 | k presses of next, k at most the list length, advance the index by k places modulo the length |
| Testimonials.FullCycle | src/components/home/Testimonials.tsx:37-39 | as many presses of next as there are testimonials return to the starting one |
| Testimonials.ThreeNextsReturn | src/components/home/Testimonials.tsx:5-39 | three presses of next on the three bundled testimonials return to the starting one |
| Testimonials.Carousel.constructor | src/components/home/Testimonials.tsx:33 | the carousel starts on the first testimonial |
| Testimonials.Carousel.Next | src/components/home/Testimonials.tsx:37-39 | the active index becomes the next index of the old one |
| Testimonials.Carousel.Prev | src/components/home/Testimonials.tsx:41-43 | the active index becomes the previous index of the old one |
| Testimonials.Carousel.GoTo | src/components/home/Testimonials.tsx:151-157 | a dot shows its testimonial and becomes the only highlighted dot |
| FindSalon.FilteredSalons | src/pages/FindSalon.tsx:12-22 | the listed salons are a subsequence of the bundled salons |
| FindSalon.FilteredSalonsIff | src/pages/FindSalon.tsx:13-21 | a salon is listed exactly when it matches the city select, the area select and, ignoring case, the search in its name or address |
| FindSalon.NoFiltersShowAll | src/pages/FindSalon.tsx:13-21 | with both selects on "all" and an empty search every salon is listed in order |
| FindSalon.InsertSorted | src/pages/FindSalon.tsx:27-29 | inserting into a strictly sorted list keeps it strictly sorted and adds exactly the new area |
| FindSalon.SortedDistinct | src/pages/FindSalon.tsx:27-29 | the set-then-sort result is strictly sorted and holds exactly the input's areas |
| FindSalon.LeastFirst | src/pages/FindSalon.tsx:27-29 | two strictly sorted lists with the same members start with the same area |
| FindSalon.SortedListUnique | src/pages/FindSalon.tsx:27-29 | two strictly sorted lists with the same members are equal, so the area list is determined by the set of areas |
| FindSalon.Areas | src/pages/FindSalon.tsx:27-29 | the area of each salon, one for one and in order |
| FindSalon.AvailableAreasIff | src/pages/FindSalon.tsx:25-30 | the area choices are sorted without repeats, and an area is offered exactly when some salon of the chosen city, or of any city under "all", lies in it |
| FindSalon.NoAreasIffNoSalons | src/pages/FindSalon.tsx:71 | the area select is disabled exactly when the chosen city has no salon |
| FindSalon.ShownAreasOffered | src/pages/FindSalon.tsx:12-30 | every listed salon's area is among the areas offered for the chosen city |
| FindSalon.EverySalonListed | src/pages/FindSalon.tsx:8-22 | unfiltered, the page lists the eight bundled salons in their order |
| FindSalon.FindSalonFilters.constructor | src/pages/FindSalon.tsx:8-10 | both selects start on "all" and the search is empty |
| FindSalon.FindSalonFilters.SelectCity | src/pages/FindSalon.tsx:55-58 | a new city also resets the area to "all" and keeps the search |
| FindSalon.FindSalonFilters.SelectArea | src/pages/FindSalon.tsx:70 | only the area changes |
| FindSalon.FindSalonFilters.Search | src/pages/FindSalon.tsx:88 | only the search changes |
| FindSalon.FindSalonFilters.ClearFilters | src/pages/FindSalon.tsx:108-112 | all three filters are reset |
| MockData.SalonsByCity | src/data/bookingData.ts:449-451 | the city's salons are a subsequence of the salon data |
| MockData.StaffBySalon | src/data/bookingData.ts:454-456 | the salon's staff are a subsequence of the staff data |
| MockData.ServicesByCategory | src/data/bookingData.ts:459-461 | the category's services are a subsequence of the service data |
| MockData.LookupsExact | src/data/bookingData.ts:449-461 | each lookup returns exactly the matching records, every copy of each, in the data's order |
| MockData.CityIds | src/data/bookingData.ts:66-73 | the ids of the cities, one for one and in order |
| MockData.SalonIds | src/data/bookingData.ts:75-180 | the ids of the salons, one for one and in order |
| MockData.CategoryIds | src/data/bookingData.ts:182-189 | the ids of the service categories, one for one and in order |
| MockData.ReferencesResolve | src/data/bookingData.ts:66-405 | every salon's city, every staff member's salon and every service's category exists in the data |
| MockData.ParseShaped | src/data/bookingData.ts:75-180 | a two-digit "HH:MM" time reads as its minutes since midnight |
| MockData.SalonHoursOrdered | src/data/bookingData.ts:75-180 | every salon's hours are two-digit "HH:MM" times and it opens before it closes |
| MockData.SalonHoursParse | src/data/bookingData.ts:75-180 | so every salon's hours are readable and opening comes before closing |
| MockData.LegacyFieldsAgree | src/data/bookingData.ts:415-416 | the hour-and-minute reading agrees with the minutes reading of the newer engine, NaN included |
| MockData.NextMovesForward | src/data/bookingData.ts:438-442 | every step moves forward in hour-then-minute order |
| MockData.NextIncreasesMinutes | src/data/bookingData.ts:438-442 | from minutes below 60 each step strictly increases the minute of the day and keeps minutes below 60 |
| MockData.OverflowingMinutesStepBack | src/data/bookingData.ts:439-441 | a minute field of 90 steps back in time: 10:90 is followed by 11:00 |
| MockData.LegacyStarts | src/data/bookingData.ts:421-443 | every visited start is before closing; there is one exactly when the opening time is before closing, and the first is the opening time |
| MockData.LegacyStartsStep | src/data/bookingData.ts:437-442 | consecutive visited starts are one step apart |
| MockData.QuarterPastOpening | src/data/bookingData.ts:421-443 | opening 10:15 and closing 12:00 visits 10:15, 10:45, 11:00 and 11:30 |
| MockData.LegacySlots | src/data/bookingData.ts:425-435 | one slot per visited start, labelled with it, in order |
| MockData.BookedNeverAvailable | src/data/bookingData.ts:430 | a listed time is never available; any other slot's availability is the random draw's |
| MockData.NaNHourNoLegacySlots | src/data/bookingData.ts:421-424 | an opening or closing hour that is not a number gives no slot |
| MockData.LegacyGenerateTimeSlots | src/data/bookingData.ts:408-446 | on every input on which the loop ends, the slots are those of the visited starts, with NaN closing minutes acting as minute 0 |
| MockData.SteppedSlots | src/data/bookingData.ts:418-443 | the loop's slots are those of the visited starts from the opening fields |

## Left out

- Backend I/O is not modelled. This covers every hosted-database query and mutation, request caching and invalidation, and toasts. Query results are inputs, and server-side ordering (`order(...)`) is not modelled: a query is its filter only.
- Admin writes are not modelled: the booking status update (src/pages/admin/Bookings.tsx:74-89), add and delete for staff, salons and services, and the offer create, update, delete and toggle hooks (src/hooks/useOffers.ts:188-353). They are server writes; the model keeps only the form values they send and the reset values after success.
- Booking creation is not modelled: the booking insert hook (src/hooks/useCreateBooking.ts) is not part of this model. `ConfirmationStep` models the request it is given and the outcome as an input.
- Sign-in, sign-up and the session listeners' network calls are not modelled. `Auth` takes the events and the fetched role records as inputs.
- Rendering, animation and routing are not modelled. Neither are presentation-only fields: quotes, images, icons and descriptions.
- JavaScript `Number()` is modelled only for whole decimal digit strings with surrounding whitespace. Signs, decimals, exponents and hexadecimal forms are read as NaN.
- Floating point is not modelled. Prices, discounts and the progress percentage are exact `real` values, and `toLocaleString`/rupee formatting is left out.
- `Date` handling (time zones, `startOfDay`, `addDays`, `toISOString`) is not modelled. Dates are day numbers or `yyyy-MM-dd` strings.
- Case folding is ASCII only. String comparison is by `char`, which follows UTF-16 code-unit order only for characters of the basic multilingual plane.
- Concurrency is not modelled: double submission and two customers racing for one slot are guarded only by a disabled button.
- `Math.random()` in the older slot generator is an oracle parameter. Probabilities are not modelled.
- `MockData.LegacyGenerateTimeSlots`: requires that the input is not one on which the source loops forever. That input has readable hours, unreadable opening minutes and an opening hour before the closing hour.
- `OfferForm.PrefillSubmitRoundTrip`: compares the dates as the stored `yyyy-MM-dd` text, so its date clause does not capture the time-zone shift of the parse-and-format step. That step is modelled separately on day numbers by `OfferForm.ReopenedDay`.
- `OffersPage.DiscountLabel`: takes whole-number discount values only, so the decimal rendering of fractional values is not modelled.
- `BookingData.CountSalonsByCity`: the total of the counts is a ghost function over the map, used only in the proof.

## Behaviour worth noting

- `goBack` on the confirmation step moves back to the date and time step, and `goToStep` may leave the confirmation step for an earlier step (src/hooks/useBooking.ts:75-90).
- The availability engine offers a slot whose service would run past closing time: only the slot's start has to be before closing (src/hooks/useBookingData.ts:197).
- Availability ignores the chosen stylist: bookings of every stylist at the salon block a slot (src/components/booking/DateTimeStep.tsx:25-39).
- The booking request carries the service's base price; no offer discount is applied (src/components/booking/ConfirmationStep.tsx:68).
- The older slot generator resets the minutes to 0 after passing 60 instead of carrying the overflow. With unreadable opening minutes and an opening hour before the closing hour it never terminates (src/data/bookingData.ts:437-442).
- The initial-session handler clears the loading flag only when there is no session; with a session it leaves the flag to the role fetch (src/hooks/useAuth.tsx:69-78).
- Editing an offer moves its dates one day earlier in a browser west of UTC, even when the dates are not touched. The dialog parses the stored date as midnight UTC and saves the local calendar day of that instant (src/components/admin/offers/OfferFormDialog.tsx:83-84 and 118-119). Each further save moves them another day (`OfferForm.ReopenedTimesDrift`).
