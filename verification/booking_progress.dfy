/** The step indicator above the wizard: one marker per step, with its completed, current and
    clickable flags and the connector drawn after it. */
module BookingProgress {
  import opened Wrappers
  import opened BookingWizard
  import Seqs

  /** One step marker. The connector after the last step is not drawn (`None`); otherwise it is
      drawn filled or empty. */
  datatype Marker = Marker(
    key: Step, caption: string, completed: bool, current: bool, clickable: bool,
    connector: Option<bool>)

  const Labels: seq<string> := ["City", "Salon", "Service", "Stylist", "Date & Time", "Confirm"]

  /** The markers rendered for the current step and the index the wizard reports for it. */
  function Markers(currentStep: Step, currentStepIndex: int): (ms: seq<Marker>)
    ensures |ms| == |Steps|
    ensures forall i :: 0 <= i < |ms| ==> ms[i].key == Steps[i] && ms[i].caption == Labels[i]
  {
    seq(|Steps|, i requires 0 <= i < |Steps| =>
      Marker(Steps[i], Labels[i], i < currentStepIndex, Steps[i] == currentStep, i < currentStepIndex,
             if i < |Steps| - 1 then Some(i < currentStepIndex) else None))
  }

  /** The marker's click handler: it reports its step only when clickable. */
  function Click(m: Marker): (target: Option<Step>)
    ensures target.Some? <==> m.clickable
    ensures target.Some? ==> target.value == m.key
  {
    if m.clickable then Some(m.key) else None
  }

  predicate IsCompleted(m: Marker) { m.completed }
  predicate IsCurrent(m: Marker) { m.current }

  /** The markers follow the wizard order City, Salon, Service, Stylist, Date & Time, Confirm. */
  lemma MarkerOrder(step: Step)
    ensures var ms := Markers(step, Index(step));
            ms[0].key == CityStep && ms[1].key == SalonStep && ms[2].key == ServiceStep
            && ms[3].key == StaffStep && ms[4].key == DateTimeStep && ms[5].key == Confirmation
  {
  }

  /** Marker `i` is completed, and clickable, exactly when it lies before the current step; so
      exactly as many steps are completed as the current step's index. */
  lemma CompletedCount(step: Step)
    ensures var ms := Markers(step, Index(step));
            (forall i :: 0 <= i < |ms| ==> (ms[i].completed <==> i < Index(step)) && (ms[i].clickable <==> i < Index(step)))
            && |Seqs.Filter(IsCompleted, ms)| == Index(step)
  {
    Seqs.FilterCountRange(IsCompleted, Markers(step, Index(step)), 0, Index(step));
  }

  /** Exactly one marker is current: the one at the current step's index. */
  lemma ExactlyOneCurrent(step: Step)
    ensures var ms := Markers(step, Index(step));
            (forall i :: 0 <= i < |ms| ==> (ms[i].current <==> i == Index(step)))
            && |Seqs.Filter(IsCurrent, ms)| == 1
  {
    var ms := Markers(step, Index(step));
    forall i | 0 <= i < |ms|
      ensures ms[i].current <==> i == Index(step)
    {
      IndexBijection(i, Steps[i], step);
    }
    Seqs.FilterCountRange(IsCurrent, ms, Index(step), Index(step) + 1);
  }

  /** The connector after marker `i` is filled exactly when `i` is before the current step; the
      last marker has none. */
  lemma ConnectorFilled(step: Step, i: nat)
    requires i < |Steps|
    ensures var m := Markers(step, Index(step))[i];
            (m.connector == None <==> i == |Steps| - 1)
            && (m.connector == Some(true) <==> i < Index(step))
  {
  }

  /** A click always moves the wizard: a marker reports a step only when that step is earlier than
      the current one, so the wizard's jump takes it there. */
  lemma ClickMovesBack(s: State, i: nat)
    requires i < |Steps|
    requires Click(Markers(s.step, Index(s.step))[i]).Some?
    ensures i < Index(s.step)
    ensures Apply(s, JumpTo(Click(Markers(s.step, Index(s.step))[i]).value)) == s.(step := Steps[i])
  {
  }
}
