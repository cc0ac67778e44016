/**
 * The scheduling-progress records and what the progress panel shows for them
 * (frontend/components/SchedulingProgress.tsx).
 */
module Progress {
  import opened Wrappers

  /** A contact method's status: pending, in progress, completed or skipped. */
  datatype MethodStatus = MethodPending | MethodInProgress | MethodCompleted | MethodSkipped

  /** A step's status: in progress, completed or error. There is no pending step status. */
  datatype StepStatus = StepInProgress | StepCompleted | StepError

  /** A channel tried while confirming the meeting; `details` is the optional note shown beside it. */
  datatype ContactMethod = ContactMethod(id: string, name: string, status: MethodStatus, details: Option<string>)

  /** One stage of a scheduling run; `contactMethods` and `details` are optional fields. */
  datatype ProgressStep = ProgressStep(
    id: string,
    message: string,
    status: StepStatus,
    contactMethods: Option<seq<ContactMethod>>,
    details: Option<string>)

  /** The status icons the panel draws. */
  datatype Icon = Hourglass | CheckCircle | AlertTriangle | Cross

  /** One rendered contact-method row. */
  datatype MethodRow = MethodRow(name: string, icon: Option<Icon>, details: Option<string>)

  /** One rendered step. */
  datatype StepView = StepView(
    message: string,
    icon: Icon,
    manualButton: bool,
    details: Option<string>,
    methods: Option<seq<MethodRow>>)

  /** JavaScript truthiness of an optional string: absent and "" are both falsy. */
  predicate Truthy(s: Option<string>) {
    s.Some? && s.value != ""
  }

  /** The icon a contact method gets; a pending method gets none. */
  function MethodIcon(status: MethodStatus): (icon: Option<Icon>)
    ensures icon.None? <==> status == MethodPending
    ensures status == MethodCompleted ==> icon == Some(CheckCircle)
  {
    match status
    case MethodPending => None
    case MethodInProgress => Some(Hourglass)
    case MethodCompleted => Some(CheckCircle)
    case MethodSkipped => Some(Cross)
  }

  /** The icon a step gets: every step status has one, and they are all different. */
  function StepIcon(status: StepStatus): (icon: Icon)
    ensures icon == AlertTriangle <==> status == StepError
    ensures icon == CheckCircle <==> status == StepCompleted
    ensures icon == Hourglass <==> status == StepInProgress
  {
    match status
    case StepInProgress => Hourglass
    case StepCompleted => CheckCircle
    case StepError => AlertTriangle
  }

  function RenderMethod(m: ContactMethod): MethodRow {
    MethodRow(m.name, MethodIcon(m.status), if Truthy(m.details) then m.details else None)
  }

  /**
   * One step as the panel shows it: the manual-intervention button only for an
   * error step, the details only when they are non-empty, and the contact
   * methods, when the field is present, in array order.
   */
  function RenderStep(step: ProgressStep): (v: StepView)
    ensures v.message == step.message
    ensures v.manualButton <==> step.status == StepError
    ensures v.details.Some? <==> Truthy(step.details)
    ensures v.details.Some? ==> v.details == step.details
    ensures v.methods.Some? <==> step.contactMethods.Some?
    ensures step.contactMethods.Some? ==>
      |v.methods.value| == |step.contactMethods.value| &&
      forall i :: 0 <= i < |v.methods.value| ==>
        v.methods.value[i].name == step.contactMethods.value[i].name &&
        (v.methods.value[i].icon.None? <==> step.contactMethods.value[i].status == MethodPending)
  {
    StepView(
      step.message,
      StepIcon(step.status),
      step.status == StepError,
      if Truthy(step.details) then step.details else None,
      match step.contactMethods
      case None => None
      case Some(ms) => Some(seq(|ms|, i requires 0 <= i < |ms| => RenderMethod(ms[i]))))
  }

  /** The whole panel: one entry per step, in order. */
  function Render(steps: seq<ProgressStep>): (vs: seq<StepView>)
    ensures |vs| == |steps|
    ensures forall i :: 0 <= i < |steps| ==> vs[i] == RenderStep(steps[i])
  {
    seq(|steps|, i requires 0 <= i < |steps| => RenderStep(steps[i]))
  }

  /** The panel offers manual intervention exactly when some step is in error. */
  lemma ManualInterventionOffered(steps: seq<ProgressStep>)
    ensures (exists i :: 0 <= i < |steps| && Render(steps)[i].manualButton)
        <==> (exists i :: 0 <= i < |steps| && steps[i].status == StepError)
  {
    var vs := Render(steps);
    if exists i :: 0 <= i < |steps| && steps[i].status == StepError {
      var i :| 0 <= i < |steps| && steps[i].status == StepError;
      assert vs[i].manualButton;
    }
  }
}
