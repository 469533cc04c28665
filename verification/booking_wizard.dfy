/** The booking wizard: six ordered steps, the selection gathered along the way, and the
    transitions between steps. */
module BookingWizard {
  import opened Wrappers
  import BookingData

  datatype Step = CityStep | SalonStep | ServiceStep | StaffStep | DateTimeStep | Confirmation

  /** `STEPS`, in wizard order. */
  const Steps: seq<Step> := [CityStep, SalonStep, ServiceStep, StaffStep, DateTimeStep, Confirmation]

  /** `STEPS.indexOf(step)`: the position of a step in the wizard order. */
  function Index(step: Step): (i: nat)
    ensures i < |Steps| && Steps[i] == step
  {
    match step
    case CityStep => 0
    case SalonStep => 1
    case ServiceStep => 2
    case StaffStep => 3
    case DateTimeStep => 4
    case Confirmation => 5
  }

  /** `Index` and `Steps` are inverse: positions and steps correspond one to one. */
  lemma IndexBijection(i: nat, a: Step, b: Step)
    ensures i < |Steps| ==> Index(Steps[i]) == i
    ensures Index(a) == Index(b) ==> a == b
  {
  }

  /** A calendar day, as a day number. */
  type Day = int

  /** `BookingData`: one optional field per step (the staff member stays optional to the end). */
  datatype Selection = Selection(
    city: Option<BookingData.City>,
    salon: Option<BookingData.Salon>,
    service: Option<BookingData.Service>,
    staff: Option<BookingData.Staff>,
    date: Option<Day>,
    time: Option<string>)

  const NoSelection := Selection(None, None, None, None, None, None)

  /** The wizard's whole state: the current step and the selection. */
  datatype State = State(step: Step, data: Selection)

  /** Step `city` with all six fields null. */
  const Initial := State(CityStep, NoSelection)

  /** What the user can do to the wizard. */
  datatype Event =
    | CityChosen(city: BookingData.City)
    | SalonChosen(salon: BookingData.Salon)
    | ServiceChosen(service: BookingData.Service)
    | StaffChosen(staff: Option<BookingData.Staff>)
    | DateTimeChosen(date: Day, time: string)
    | Back
    | JumpTo(target: Step)
    | Restart

  /** The effect of one event on the wizard state. */
  function Apply(s: State, e: Event): State {
    match e
    case CityChosen(c) => State(SalonStep, s.data.(city := Some(c), salon := None, staff := None))
    case SalonChosen(sa) => State(ServiceStep, s.data.(salon := Some(sa), staff := None))
    case ServiceChosen(sv) => State(StaffStep, s.data.(service := Some(sv)))
    case StaffChosen(st) => State(DateTimeStep, s.data.(staff := st))
    case DateTimeChosen(d, t) => State(Confirmation, s.data.(date := Some(d), time := Some(t)))
    case Back => if Index(s.step) > 0 then s.(step := Steps[Index(s.step) - 1]) else s
    case JumpTo(t) => if Index(t) < Index(s.step) then s.(step := t) else s
    case Restart => Initial
  }

  /** `progress`: the percentage of steps reached, counting the current one. */
  function Progress(step: Step): real {
    ((Index(step) + 1) as real / |Steps| as real) * 100.0
  }

  /** `canGoBack`: the back button shows past the first step, except on the confirmation step. */
  predicate CanGoBack(step: Step) {
    Index(step) > 0 && step != Confirmation
  }

  // ---------------------------------------------------------------- transitions, one at a time

  /** Choosing a city records it, clears the salon and the staff member (they belong to a city),
      keeps service, date and time, and moves to the salon step. */
  lemma CityChosenFrame(s: State, c: BookingData.City)
    ensures var t := Apply(s, CityChosen(c));
            && t.step == SalonStep && t.data.city == Some(c)
            && t.data.salon == None && t.data.staff == None
            && t.data.service == s.data.service && t.data.date == s.data.date && t.data.time == s.data.time
  {
  }

  /** Choosing a salon records it, clears the staff member, keeps everything else and moves to the
      service step. */
  lemma SalonChosenFrame(s: State, sa: BookingData.Salon)
    ensures var t := Apply(s, SalonChosen(sa));
            && t.step == ServiceStep && t.data.salon == Some(sa) && t.data.staff == None
            && t.data.city == s.data.city && t.data.service == s.data.service
            && t.data.date == s.data.date && t.data.time == s.data.time
  {
  }

  /** Choosing a service, a staff member (possibly none) or a date and time sets only those
      fields and moves one step on. */
  lemma LaterChoicesFrame(s: State, sv: BookingData.Service, st: Option<BookingData.Staff>, d: Day, tm: string)
    ensures Apply(s, ServiceChosen(sv)) == State(StaffStep, s.data.(service := Some(sv)))
    ensures Apply(s, StaffChosen(st)) == State(DateTimeStep, s.data.(staff := st))
    ensures Apply(s, DateTimeChosen(d, tm)) == State(Confirmation, s.data.(date := Some(d), time := Some(tm)))
  {
  }

  /** Going back moves to the immediately preceding step (also from confirmation, although no back
      button is shown there), does nothing on the first step and never touches the selection. */
  lemma BackMovesOneStep(s: State)
    ensures Apply(s, Back).data == s.data
    ensures s.step == CityStep ==> Apply(s, Back) == s
    ensures s.step != CityStep ==> Index(Apply(s, Back).step) == Index(s.step) - 1
    ensures s.step == Confirmation ==> Apply(s, Back).step == DateTimeStep
  {
  }

  /** Jumping changes the step exactly when the target is earlier, and never touches the selection. */
  lemma JumpOnlyBackwards(s: State, target: Step)
    ensures Apply(s, JumpTo(target)).data == s.data
    ensures Apply(s, JumpTo(target)).step != s.step <==> Index(target) < Index(s.step)
    ensures Index(target) < Index(s.step) ==> Apply(s, JumpTo(target)).step == target
  {
  }

  /** Restarting restores the initial state from any state. */
  lemma RestartRestoresInitial(s: State)
    ensures Apply(s, Restart) == Initial
    ensures Initial.step == CityStep && Initial.data == NoSelection
  {
  }

  /** Progress grows with the step and is 100 exactly at confirmation. */
  lemma ProgressFacts(a: Step, b: Step)
    ensures Index(a) < Index(b) ==> Progress(a) < Progress(b)
    ensures Progress(a) == 100.0 <==> a == Confirmation
    ensures 0.0 < Progress(a) <= 100.0
  {
  }

  /** The back button shows exactly on the salon, service, staff and date/time steps. */
  lemma CanGoBackSteps(step: Step)
    ensures CanGoBack(step) <==> (0 < Index(step) < 5)
  {
  }

  // ---------------------------------------------------------------- the wizard invariant

  /** Every field a step before the current one collects is filled in; the staff step may leave
      its field null. */
  predicate FilledBefore(s: State) {
    && (Index(s.step) > 0 ==> s.data.city.Some?)
    && (Index(s.step) > 1 ==> s.data.salon.Some?)
    && (Index(s.step) > 2 ==> s.data.service.Some?)
    && (Index(s.step) > 4 ==> s.data.date.Some? && s.data.time.Some?)
  }

  /** A choice is made on its own step; moving back and restarting are allowed anywhere. The page
      renders each step's chooser only on that step, so this is how the wizard is driven. */
  predicate AtOwnStep(s: State, e: Event) {
    match e
    case CityChosen(_) => s.step == CityStep
    case SalonChosen(_) => s.step == SalonStep
    case ServiceChosen(_) => s.step == ServiceStep
    case StaffChosen(_) => s.step == StaffStep
    case DateTimeChosen(_, _) => s.step == DateTimeStep
    case _ => true
  }

  /** The state after a sequence of events. */
  function Run(s: State, events: seq<Event>): State
    decreases |events|
  {
    if events == [] then s else Run(Apply(s, events[0]), events[1..])
  }

  /** Every event of the sequence happens on its own step. */
  predicate Driven(s: State, events: seq<Event>)
    decreases |events|
  {
    events == [] || (AtOwnStep(s, events[0]) && Driven(Apply(s, events[0]), events[1..]))
  }

  /** One event on its own step keeps the invariant. */
  lemma ApplyKeepsFilled(s: State, e: Event)
    requires FilledBefore(s) && AtOwnStep(s, e)
    ensures FilledBefore(Apply(s, e))
  {
  }

  /** However the wizard is driven, a state reached from the initial state has every earlier
      field (other than staff) filled in; in particular the confirmation step always has a city,
      salon, service, date and time. */
  lemma {:induction false} RunKeepsFilled(s: State, events: seq<Event>)
    requires FilledBefore(s) && Driven(s, events)
    ensures FilledBefore(Run(s, events))
    ensures Run(s, events).step == Confirmation ==>
              var d := Run(s, events).data;
              d.city.Some? && d.salon.Some? && d.service.Some? && d.date.Some? && d.time.Some?
    decreases |events|
  {
    if events != [] {
      ApplyKeepsFilled(s, events[0]);
      RunKeepsFilled(Apply(s, events[0]), events[1..]);
    }
  }

  /** The invariant needs the choices to be made on their own steps: a date and time chosen on
      the first step reach confirmation with no city. */
  lemma ChoiceOutOfTurnBreaksInvariant(d: Day, tm: string)
    ensures !FilledBefore(Apply(Initial, DateTimeChosen(d, tm)))
  {
  }

  // ---------------------------------------------------------------- the hook's state

  /** `useBooking`: the current step and the selection, updated in place by each handler. */
  class Wizard {
    var step: Step
    var data: Selection

    function Current(): State
      reads this
    {
      State(step, data)
    }

    /** The hook starts on the city step with nothing selected. */
    constructor()
      ensures Current() == Initial
    {
      step := CityStep;
      data := NoSelection;
    }

    /** `selectCity`. */
    method SelectCity(city: BookingData.City)
      modifies this
      ensures Current() == Apply(old(Current()), CityChosen(city))
    {
      data := data.(city := Some(city), salon := None, staff := None);
      step := SalonStep;
    }

    /** `selectSalon`. */
    method SelectSalon(salon: BookingData.Salon)
      modifies this
      ensures Current() == Apply(old(Current()), SalonChosen(salon))
    {
      data := data.(salon := Some(salon), staff := None);
      step := ServiceStep;
    }

    /** `selectService`. */
    method SelectService(service: BookingData.Service)
      modifies this
      ensures Current() == Apply(old(Current()), ServiceChosen(service))
    {
      data := data.(service := Some(service));
      step := StaffStep;
    }

    /** `selectStaff`; `None` is "any available stylist". */
    method SelectStaff(staff: Option<BookingData.Staff>)
      modifies this
      ensures Current() == Apply(old(Current()), StaffChosen(staff))
    {
      data := data.(staff := staff);
      step := DateTimeStep;
    }

    /** `selectDateTime`. */
    method SelectDateTime(date: Day, time: string)
      modifies this
      ensures Current() == Apply(old(Current()), DateTimeChosen(date, time))
    {
      data := data.(date := Some(date), time := Some(time));
      step := Confirmation;
    }

    /** `goBack`. */
    method GoBack()
      modifies this
      ensures Current() == Apply(old(Current()), Back)
    {
      var currentIndex := Index(step);
      if currentIndex > 0 {
        step := Steps[currentIndex - 1];
      }
    }

    /** `goToStep`. */
    method GoToStep(target: Step)
      modifies this
      ensures Current() == Apply(old(Current()), JumpTo(target))
    {
      var targetIndex := Index(target);
      var currentIndex := Index(step);
      if targetIndex < currentIndex {
        step := target;
      }
    }

    /** `resetBooking`. */
    method ResetBooking()
      modifies this
      ensures Current() == Apply(old(Current()), Restart)
    {
      data := NoSelection;
      step := CityStep;
    }
  }
}
