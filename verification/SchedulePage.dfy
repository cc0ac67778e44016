/**
 * The schedule page (frontend/app/schedule/page.tsx): the contact-method
 * priority list, the five-step scheduling run with its contact-method
 * sub-loop, the simulated error and the manual-intervention step.
 */
module SchedulePage {
  import opened Wrappers
  import opened JsText
  import opened Progress
  import opened StepUpdates
  import Reorder

  const EmailConfirmed: string := "已通过邮件确认：example@company.com"
  const ErrorMessage: string := "无法联系到部分参与者，需要人工介入"
  const ManualDoneMessage: string := "人工操作完成，继续AI安排"

  /** The step whose contact methods mirror the priority list. */
  const SyncedStepId: string := "4"

  /** Number of steps a run walks through. */
  const RunLength: nat := 5

  function InitialContactMethods(): seq<ContactMethod> {
    [ ContactMethod("email", "邮件", MethodPending, None),
      ContactMethod("im", "IM", MethodPending, None),
      ContactMethod("sms", "短信", MethodPending, None),
      ContactMethod("phone", "电话", MethodPending, None) ]
  }

  function InitialSteps(): (steps: seq<ProgressStep>)
    ensures |steps| == RunLength
  {
    [ ProgressStep("1", "正在解析会议需求", StepCompleted, None, None),
      ProgressStep("2", "检查参与者日程", StepCompleted, None, None),
      ProgressStep("3", "寻找合适的时间段", StepCompleted, None, None),
      ProgressStep("4", "与参与者确认会议", StepCompleted, Some([]), None),
      ProgressStep("5", "发送会议邀请", StepCompleted, None, None) ]
  }

  /** The canned detail a run writes into step `i` when it completes it; step 3 has none. */
  function RunDetail(i: nat): string
    requires i < RunLength && i != 3
  {
    if i == 0 then "已解析：面试会议，参与者为面试官A和候选人B"
    else if i == 1 then "面试官A：周一至周五 9:00-17:00 可用\n候选人B：周二、周四 14:00-18:00 可用"
    else if i == 2 then "建议时间段：周二 14:30-16:00"
    else "已发送会议邀请至 example@company.com"
  }

  /** The priority list as step "4" shows it: same methods, same order, every one pending. */
  function AllPending(methods: seq<ContactMethod>): (r: seq<ContactMethod>)
    ensures |r| == |methods|
    ensures forall i :: 0 <= i < |r| ==>
      r[i].id == methods[i].id && r[i].name == methods[i].name &&
      r[i].details == methods[i].details && r[i].status == MethodPending
  {
    seq(|methods|, i requires 0 <= i < |methods| => methods[i].(status := MethodPending))
  }

  /**
   * The effect that runs whenever the priority list changes: every step with
   * id "4" is rebuilt with the list (all pending) as its contact methods and
   * its details dropped; every other step is left as it is.
   */
  function SyncContactMethods(steps: seq<ProgressStep>, methods: seq<ContactMethod>): (r: seq<ProgressStep>)
    ensures |r| == |steps|
    ensures forall i :: 0 <= i < |steps| && steps[i].id != SyncedStepId ==> r[i] == steps[i]
    ensures forall i :: 0 <= i < |steps| && steps[i].id == SyncedStepId ==>
      r[i] == ProgressStep(steps[i].id, steps[i].message, steps[i].status, Some(AllPending(methods)), None)
  {
    seq(|steps|, i requires 0 <= i < |steps| =>
      if steps[i].id == SyncedStepId
      then CreateProgressStep(steps[i].id, steps[i].message, Some(steps[i].status), Some(AllPending(methods)), None)
      else steps[i])
  }

  /** Running the effect a second time with the same list changes nothing. */
  lemma SyncIdempotent(steps: seq<ProgressStep>, methods: seq<ContactMethod>)
    ensures SyncContactMethods(SyncContactMethods(steps, methods), methods) == SyncContactMethods(steps, methods)
  {
  }

  /** A run's first update of iteration `i`: step `i` goes in progress, nothing else changes. */
  function MarkInProgress(steps: seq<ProgressStep>, i: nat): (r: seq<ProgressStep>)
    ensures |r| == |steps|
    ensures forall j :: 0 <= j < |steps| && j != i ==> r[j] == steps[j]
    ensures i < |steps| ==> r[i] == steps[i].(status := StepInProgress)
  {
    seq(|steps|, j requires 0 <= j < |steps| => if j == i then steps[j].(status := StepInProgress) else steps[j])
  }

  /** A run's closing update of iteration `i`: step `i` is completed with the given detail. */
  function CompleteWithDetail(steps: seq<ProgressStep>, i: nat, detail: string): (r: seq<ProgressStep>)
    ensures |r| == |steps|
    ensures forall j :: 0 <= j < |steps| && j != i ==> r[j] == steps[j]
    ensures i < |steps| ==> r[i] == steps[i].(status := StepCompleted, details := Some(detail))
  {
    seq(|steps|, j requires 0 <= j < |steps| =>
      if j == i then steps[j].(status := StepCompleted, details := Some(detail)) else steps[j])
  }

  /**
   * "Simulate error": the step at index 3 becomes an error step with the fixed
   * message, keeping its id and contact methods (and losing its details);
   * every other step is unchanged.
   */
  function SimulatedError(steps: seq<ProgressStep>): (r: seq<ProgressStep>)
    ensures |r| == |steps|
    ensures forall j :: 0 <= j < |steps| && j != 3 ==> r[j] == steps[j]
    ensures |steps| > 3 ==>
      r[3].status == StepError && r[3].message == ErrorMessage && r[3].id == steps[3].id &&
      r[3].contactMethods == steps[3].contactMethods && r[3].details == None
  {
    seq(|steps|, j requires 0 <= j < |steps| =>
      if j == 3 then CreateProgressStep(steps[j].id, ErrorMessage, Some(StepError), steps[j].contactMethods, None)
      else steps[j])
  }

  /**
   * Completing the manual intervention appends exactly one completed step,
   * numbered one past the current length; existing steps are untouched.
   */
  function WithManualStep(steps: seq<ProgressStep>): (r: seq<ProgressStep>)
    ensures |r| == |steps| + 1 && r[..|steps|] == steps
    ensures r[|steps|] == ProgressStep(NatToString(|steps| + 1), ManualDoneMessage, StepCompleted, None, None)
  {
    steps + [CreateProgressStep(NatToString(|steps| + 1), ManualDoneMessage, None, None, None)]
  }

  /** Step ids are "1", "2", ... in list order. */
  predicate NumberedIds(steps: seq<ProgressStep>) {
    forall j :: 0 <= j < |steps| ==> steps[j].id == NatToString(j + 1)
  }

  lemma InitialStepsNumbered()
    ensures NumberedIds(InitialSteps())
  {
    assert NatToString(1) == "1" && NatToString(2) == "2" && NatToString(3) == "3";
    assert NatToString(4) == "4" && NatToString(5) == "5";
  }

  /**
   * On a list numbered "1".."n" the appended step gets an id no existing step
   * has, and the numbering continues.
   */
  lemma ManualStepIdIsNew(steps: seq<ProgressStep>)
    requires NumberedIds(steps)
    ensures forall j :: 0 <= j < |steps| ==> WithManualStep(steps)[|steps|].id != steps[j].id
    ensures NumberedIds(WithManualStep(steps))
  {
    var r := WithManualStep(steps);
    forall j | 0 <= j < |steps| ensures r[|steps|].id != steps[j].id {
      if r[|steps|].id == steps[j].id {
        NatToStringInjective(|steps| + 1, j + 1);
      }
    }
  }

  /**
   * The states of step `stepIndex` that the contact-method sub-loop publishes,
   * in order. Method 0 goes in progress and then completed with the e-mail
   * confirmation; method 1 goes in progress and the loop stops. Every update is
   * rebuilt from the step as it was when the sub-loop started.
   */
  function ContactProgressTrace(step: ProgressStep): (trace: seq<ProgressStep>)
    ensures |trace| <= 3
  {
    match step.contactMethods
    case None => []
    case Some(ms) =>
      if |ms| == 0 then []
      else [ UpdateStepContactMethods(step, 0, MethodInProgress, None),
             UpdateStepContactMethods(step, 0, MethodCompleted, Some(EmailConfirmed)) ]
           + (if |ms| >= 2 then [UpdateStepContactMethods(step, 1, MethodInProgress, None)] else [])
  }

  /** The step as the sub-loop leaves it: its last published state, or the step itself if it published none. */
  function ContactProgressOutcome(step: ProgressStep): ProgressStep {
    var trace := ContactProgressTrace(step);
    if trace == [] then step else trace[|trace| - 1]
  }

  /**
   * What the sub-loop does to the contact methods: method 0 is first marked in
   * progress (its note cleared) and then completed with the e-mail
   * confirmation; methods from index 2 on are never touched; and the step's
   * own fields never change.
   */
  lemma ContactProgressFirstMethod(step: ProgressStep)
    requires step.contactMethods.Some? && |step.contactMethods.value| >= 1
    ensures var trace, m0 := ContactProgressTrace(step), step.contactMethods.value[0];
      |trace| >= 2 &&
      trace[0].contactMethods.value[0] == ContactMethod(m0.id, m0.name, MethodInProgress, None) &&
      trace[1].contactMethods.value[0] == ContactMethod(m0.id, m0.name, MethodCompleted, Some(EmailConfirmed))
    ensures forall t, k :: t in ContactProgressTrace(step) && 2 <= k < |step.contactMethods.value| ==>
      t.contactMethods.value[k] == step.contactMethods.value[k]
    ensures forall t :: t in ContactProgressTrace(step) ==>
      t.id == step.id && t.message == step.message && t.status == step.status && t.details == step.details
  {
  }

  /**
   * With two or more methods the sub-loop ends with method 1 in progress and,
   * because that last update was rebuilt from the original step, method 0
   * back as it was before the loop: the completion is not kept.
   */
  lemma ContactProgressStopsAtSecond(step: ProgressStep)
    requires step.contactMethods.Some? && |step.contactMethods.value| >= 2
    ensures var out, ms := ContactProgressOutcome(step), step.contactMethods.value;
      |ContactProgressTrace(step)| == 3 &&
      out.contactMethods.value[1].status == MethodInProgress &&
      out.contactMethods.value[0] == ms[0] &&
      forall k :: 2 <= k < |ms| ==> out.contactMethods.value[k] == ms[k]
  {
  }

  /** With exactly one method the sub-loop ends with it completed. */
  lemma ContactProgressSingleMethod(step: ProgressStep)
    requires step.contactMethods.Some? && |step.contactMethods.value| == 1
    ensures ContactProgressOutcome(step).contactMethods.value[0].status == MethodCompleted
  {
  }

  /**
   * Step `j` at the end of iteration `j` of a run whose sub-loop works on the
   * current list (the corrected run): steps other than index 3 are completed
   * with their canned details, and step 3 is left to the sub-loop.
   */
  function RunOutcome(j: nat): ProgressStep
    requires j < RunLength
  {
    if j == 3 then ContactProgressOutcome(InitialSteps()[3].(status := StepInProgress))
    else InitialSteps()[j].(status := StepCompleted, details := Some(RunDetail(j)))
  }

  /**
   * The step list after `i` iterations of the corrected run. For `i <= 3` it is
   * also the list the run as written holds, since the sub-loop has not yet run.
   */
  function RunPrefix(i: nat): (steps: seq<ProgressStep>)
    requires i <= RunLength
    ensures |steps| == RunLength
    ensures forall j :: i <= j < RunLength ==> steps[j] == InitialSteps()[j]
  {
    seq(RunLength, j requires 0 <= j < RunLength => if j < i then RunOutcome(j) else InitialSteps()[j])
  }

  /**
   * A finished corrected run: steps 0, 1, 2 and 4 are completed with their
   * canned details, and step 3 is handed to the sub-loop, which finds the
   * empty contact-method list of the reset steps, so that step stays in
   * progress. Every detail the run wrote survives to the end.
   */
  lemma CorrectedRunKeepsDetails()
    ensures forall j :: 0 <= j < RunLength && j != 3 ==>
      RunPrefix(RunLength)[j].status == StepCompleted && RunPrefix(RunLength)[j].details == Some(RunDetail(j))
    ensures RunPrefix(RunLength)[3] == InitialSteps()[3].(status := StepInProgress)
  {
    assert ContactProgressTrace(InitialSteps()[3].(status := StepInProgress)) == [];
  }

  /**
   * The list after iteration 3 of the run as written. The sub-loop works on a
   * copy of `snapshot`, the list as it was when the run was started; when it
   * publishes anything, that copy replaces the whole list, and otherwise the
   * list is left as iteration 3 marked it.
   */
  function AfterStaleSubLoop(snapshot: seq<ProgressStep>): (steps: seq<ProgressStep>)
    requires 3 < |snapshot|
    ensures ContactProgressTrace(snapshot[3]) == [] ==> steps == RunPrefix(4)
    ensures ContactProgressTrace(snapshot[3]) != [] ==>
      |steps| == |snapshot| && steps[3] == ContactProgressOutcome(snapshot[3]) &&
      forall j :: 0 <= j < |snapshot| && j != 3 ==> steps[j] == snapshot[j]
  {
    if ContactProgressTrace(snapshot[3]) == [] then RunPrefix(4)
    else snapshot[3 := ContactProgressOutcome(snapshot[3])]
  }

  /** The list at the end of the run as written, started on the list `snapshot`. */
  function RunAsWritten(snapshot: seq<ProgressStep>): (steps: seq<ProgressStep>)
    requires 3 < |snapshot|
    ensures |steps| == |AfterStaleSubLoop(snapshot)|
  {
    CompleteWithDetail(MarkInProgress(AfterStaleSubLoop(snapshot), 4), 4, RunDetail(4))
  }

  /**
   * When the sub-loop publishes anything, the run as written ends with the
   * list it started from, except that step index 3 holds the sub-loop's last
   * state (built from the step before the run) and step index 4 is completed
   * with its detail: steps 1, 2 and 3 lose the details the run gave them.
   */
  lemma {:induction false} StaleRunRevertsEarlierSteps(snapshot: seq<ProgressStep>)
    requires RunLength <= |snapshot|
    requires snapshot[3].contactMethods.Some? && |snapshot[3].contactMethods.value| >= 1
    ensures |RunAsWritten(snapshot)| == |snapshot|
    ensures forall j :: 0 <= j < |snapshot| && j != 3 && j != 4 ==> RunAsWritten(snapshot)[j] == snapshot[j]
    ensures RunAsWritten(snapshot)[3] == ContactProgressOutcome(snapshot[3])
    ensures RunAsWritten(snapshot)[3].status == snapshot[3].status
    ensures RunAsWritten(snapshot)[4] == snapshot[4].(status := StepCompleted, details := Some(RunDetail(4)))
  {
    assert ContactProgressTrace(snapshot[3]) != [];
    ContactProgressFirstMethod(snapshot[3]);
    var trace := ContactProgressTrace(snapshot[3]);
    assert ContactProgressOutcome(snapshot[3]) in trace;
  }

  /**
   * The first run on a freshly opened page, as written: steps 1 to 3 end with
   * no details (unlike the corrected run), step 4 keeps its pre-run status
   * `completed` with its second method in progress, and step 5 alone keeps
   * its detail.
   */
  lemma FirstRunAsWritten()
    ensures var steps := RunAsWritten(SyncContactMethods(InitialSteps(), InitialContactMethods()));
      |steps| == RunLength &&
      (forall j :: 0 <= j < 3 ==> steps[j].details == None && RunPrefix(RunLength)[j].details != None) &&
      steps[3].status == StepCompleted &&
      steps[3].contactMethods == Some([ ContactMethod("email", "邮件", MethodPending, None),
                                        ContactMethod("im", "IM", MethodInProgress, None),
                                        ContactMethod("sms", "短信", MethodPending, None),
                                        ContactMethod("phone", "电话", MethodPending, None) ]) &&
      steps[4].status == StepCompleted && steps[4].details == Some(RunDetail(4))
  {
    var snapshot := SyncContactMethods(InitialSteps(), InitialContactMethods());
    var ms := InitialContactMethods();
    assert AllPending(ms) == ms by {
      assert forall k :: 0 <= k < |ms| ==> AllPending(ms)[k] == ms[k];
    }
    assert snapshot[3].contactMethods == Some(ms);
    StaleRunRevertsEarlierSteps(snapshot);
    ContactProgressStopsAtSecond(snapshot[3]);
    var out := ContactProgressOutcome(snapshot[3]).contactMethods.value;
    assert out == [ms[0], ms[1].(status := MethodInProgress), ms[2], ms[3]] by {
      assert |out| == 4;
      assert forall k :: 0 <= k < 4 ==> out[k] == [ms[0], ms[1].(status := MethodInProgress), ms[2], ms[3]][k];
    }
    CorrectedRunKeepsDetails();
  }

  /** The schedule page's state. */
  class ScheduleMeeting {
    var steps: seq<ProgressStep>
    var contactMethods: seq<ContactMethod>
    var progress: int
    var isScheduling: bool
    var needsManualIntervention: bool
    var showConfetti: bool

    /**
     * States the page can reach: the five run steps are always there (a
     * takeover step may follow them), the priority list is not empty, and
     * step index 3 carries at least one contact method, since the effect
     * copies the priority list onto it.
     */
    predicate Valid()
      reads this
    {
      RunLength <= |steps| && 1 <= |contactMethods| &&
      steps[3].contactMethods.Some? && 1 <= |steps[3].contactMethods.value|
    }

    /** Mounting the page, including the first run of the synchronising effect. */
    constructor ()
      ensures contactMethods == InitialContactMethods()
      ensures steps == SyncContactMethods(InitialSteps(), InitialContactMethods())
      ensures progress == 0 && !isScheduling && !needsManualIntervention && !showConfetti
      ensures Valid()
    {
      contactMethods := InitialContactMethods();
      steps := SyncContactMethods(InitialSteps(), InitialContactMethods());
      progress := 0;
      isScheduling, needsManualIntervention, showConfetti := false, false, false;
    }

    /**
     * A drag on the priority list. Without a destination nothing happens;
     * otherwise the list is reordered in a copy and the effect re-syncs step "4".
     */
    method OnDragEnd(source: nat, destination: Option<nat>)
      requires source < |contactMethods|
      requires destination.Some? ==> destination.value < |contactMethods|
      requires Valid()
      modifies this`contactMethods, this`steps
      ensures Valid()
      ensures destination.None? ==> contactMethods == old(contactMethods) && steps == old(steps)
      ensures destination.Some? ==>
        contactMethods == Reorder.Moved(old(contactMethods), source, destination.value) &&
        steps == SyncContactMethods(old(steps), contactMethods)
    {
      if destination.None? {
        return;
      }
      var current := contactMethods;
      var items := new ContactMethod[|current|](i requires 0 <= i < |current| => current[i]);
      assert items[..] == current;
      Reorder.MoveInPlace(items, source, destination.value);
      contactMethods := items[..];
      steps := SyncContactMethods(steps, contactMethods);
    }

    /**
     * The contact-method sub-loop on step `stepIndex`, working on a copy of
     * `snapshot`, the step list the handler captured when it was created.
     * Returns the states of that step it published. Each publication replaces
     * the whole list with the copy.
     */
    method SimulateContactMethodProgress(snapshot: seq<ProgressStep>, stepIndex: nat) returns (published: seq<ProgressStep>)
      requires stepIndex < |snapshot|
      modifies this`steps
      ensures published == ContactProgressTrace(snapshot[stepIndex])
      ensures published == [] ==> steps == old(steps)
      ensures published != [] ==> steps == snapshot[stepIndex := ContactProgressOutcome(snapshot[stepIndex])]
    {
      var updatedSteps := snapshot;
      var step := snapshot[stepIndex];
      ghost var trace := ContactProgressTrace(step);
      published := [];
      if step.contactMethods.Some? {
        var n := |step.contactMethods.value|;
        var methodIndex := 0;
        while methodIndex < n
          invariant methodIndex <= 1 && methodIndex <= n
          invariant methodIndex == 0 ==> published == [] && steps == old(steps) && updatedSteps == snapshot
          invariant methodIndex == 1 ==>
            published == trace[..2] && updatedSteps == snapshot[stepIndex := trace[1]] && steps == updatedSteps
        {
          updatedSteps := updatedSteps[stepIndex := UpdateStepContactMethods(step, methodIndex, MethodInProgress, None)];
          steps := updatedSteps;
          published := published + [steps[stepIndex]];
          if methodIndex == 0 {
            updatedSteps := updatedSteps[stepIndex := UpdateStepContactMethods(step, methodIndex, MethodCompleted, Some(EmailConfirmed))];
          } else {
            break;
          }
          steps := updatedSteps;
          published := published + [steps[stepIndex]];
          methodIndex := methodIndex + 1;
        }
      }
    }

    /**
     * The scheduling run: reset the steps, then for each of the five steps mark
     * it in progress, set the progress to (i+1)*20 and complete it (step 3 goes
     * through the contact-method sub-loop instead, on the list as it was when
     * the run started). Returns the progress values in the order they were set.
     */
    method RunScheduling() returns (progressTrace: seq<int>)
      requires Valid()
      modifies this`steps, this`progress, this`isScheduling, this`showConfetti
      ensures steps == RunAsWritten(old(steps)) && Valid()
      ensures |steps| == |old(steps)|
      ensures forall j :: 0 <= j < |steps| && j != 3 && j != 4 ==> steps[j] == old(steps)[j]
      ensures steps[3] == ContactProgressOutcome(old(steps)[3])
      ensures steps[4] == old(steps)[4].(status := StepCompleted, details := Some(RunDetail(4)))
      ensures progressTrace == [20, 40, 60, 80, 100] && progress == 100
      ensures !isScheduling && showConfetti
    {
      var snapshot := steps;
      isScheduling := true;
      steps := InitialSteps();
      progress := 0;
      progressTrace := [];
      var i := 0;
      while i < RunLength
        invariant 0 <= i <= RunLength
        invariant i <= 3 ==> steps == RunPrefix(i)
        invariant i == 4 ==> steps == AfterStaleSubLoop(snapshot)
        invariant i == 5 ==> steps == RunAsWritten(snapshot)
        invariant |progressTrace| == i
        invariant forall j :: 0 <= j < i ==> progressTrace[j] == (j + 1) * 20
        invariant i > 0 ==> progress == i * 20
      {
        steps := MarkInProgress(steps, i);
        progress := (i + 1) * 20;
        progressTrace := progressTrace + [progress];
        if i == 3 {
          assert steps == RunPrefix(4) by {
            assert ContactProgressTrace(InitialSteps()[3].(status := StepInProgress)) == [];
          }
          var _ := SimulateContactMethodProgress(snapshot, i);
        } else {
          steps := CompleteWithDetail(steps, i, RunDetail(i));
          if i < 3 {
            assert steps == RunPrefix(i + 1);
          }
        }
        i := i + 1;
      }
      isScheduling := false;
      showConfetti := true;
      StaleRunRevertsEarlierSteps(snapshot);
    }

    /** The error step's button opens the manual-intervention dialog. */
    method RequestManualIntervention()
      modifies this`needsManualIntervention
      ensures needsManualIntervention
    {
      needsManualIntervention := true;
    }

    /** Confirming the dialog closes it and appends the manual step. */
    method CompleteManualIntervention()
      requires Valid()
      modifies this`needsManualIntervention, this`steps
      ensures Valid()
      ensures !needsManualIntervention && steps == WithManualStep(old(steps))
    {
      needsManualIntervention := false;
      steps := WithManualStep(steps);
    }

    /** Closing or cancelling the dialog hides it and leaves the steps alone. */
    method CancelManualIntervention()
      modifies this`needsManualIntervention
      ensures !needsManualIntervention
    {
      needsManualIntervention := false;
    }

    /** The "simulate error" button. */
    method SimulateError()
      requires Valid()
      modifies this`steps
      ensures Valid()
      ensures steps == SimulatedError(old(steps))
    {
      steps := SimulatedError(steps);
    }
  }
}
