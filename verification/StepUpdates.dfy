/**
 * Record updates on progress steps and their contact methods
 * (frontend/lib/utils.ts). Nothing is mutated: each call builds a new record.
 */
module StepUpdates {
  import opened Wrappers
  import opened Progress

  /**
   * A copy of `m` with a new status and new details. An omitted `details`
   * (None) clears the old note rather than keeping it.
   */
  function UpdateContactMethodStatus(m: ContactMethod, status: MethodStatus, details: Option<string>): (r: ContactMethod)
    ensures r.id == m.id && r.name == m.name
    ensures r.status == status && r.details == details
  {
    m.(status := status, details := details)
  }

  /**
   * A copy of `step` in which only the contact method at `methodIndex` is updated.
   * A step without a contact-method list is returned as it is.
   */
  function UpdateStepContactMethods(step: ProgressStep, methodIndex: int, status: MethodStatus, details: Option<string>): (r: ProgressStep)
    ensures step.contactMethods.None? ==> r == step
    ensures r.id == step.id && r.message == step.message && r.status == step.status && r.details == step.details
    ensures r.contactMethods.Some? <==> step.contactMethods.Some?
    ensures step.contactMethods.Some? ==>
      var ms, rs := step.contactMethods.value, r.contactMethods.value;
      |rs| == |ms| &&
      (forall i :: 0 <= i < |ms| && i != methodIndex ==> rs[i] == ms[i]) &&
      (0 <= methodIndex < |ms| ==> rs[methodIndex] == UpdateContactMethodStatus(ms[methodIndex], status, details))
  {
    match step.contactMethods
    case None => step
    case Some(ms) =>
      step.(contactMethods := Some(seq(|ms|, i requires 0 <= i < |ms| =>
        if i == methodIndex then UpdateContactMethodStatus(ms[i], status, details) else ms[i])))
  }

  /** An index outside the list leaves the step as it was. */
  lemma UpdateOutOfRangeUnchanged(step: ProgressStep, methodIndex: int, status: MethodStatus, details: Option<string>)
    requires step.contactMethods.Some? ==> !(0 <= methodIndex < |step.contactMethods.value|)
    ensures UpdateStepContactMethods(step, methodIndex, status, details) == step
  {
    var r := UpdateStepContactMethods(step, methodIndex, status, details);
    if step.contactMethods.Some? {
      assert r.contactMethods.value == step.contactMethods.value;
    }
  }

  /** A new step record; the status defaults to completed when it is not given. */
  function CreateProgressStep(id: string, message: string, status: Option<StepStatus>, contactMethods: Option<seq<ContactMethod>>, details: Option<string>): (r: ProgressStep)
    ensures r.id == id && r.message == message
    ensures r.status == (if status.Some? then status.value else StepCompleted)
    ensures r.contactMethods == contactMethods && r.details == details
  {
    ProgressStep(id, message, status.GetOr(StepCompleted), contactMethods, details)
  }
}
