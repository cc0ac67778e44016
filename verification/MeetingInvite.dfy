/**
 * The invite wizard (frontend/src/components/MeetingInvite.js): the step
 * counter and its Next/Back guards, the notification channels (drag to
 * reorder, switch on and off, the enabled list sent for a strategy), the
 * manual-processing panel with its progress mapping and processing log, and
 * the field defaults applied to a finished dialogue.
 */
module MeetingInvite {
  import opened Wrappers
  import opened JsText
  import opened Lists
  import opened Participants
  import Reorder

  /** The wizard's input mode. The panel for manual processing tests for `Manual`, which nothing ever sets. */
  datatype Mode = Standard | Natural | Manual

  datatype InviteStatus = Waiting | Processing | Succeeded | Failed

  datatype Channel = Channel(id: string, name: string, enabled: bool, priority: int)

  /** One processing-log entry; `kind` is the entry's colour class ("info", "success", ...). */
  datatype LogEntry = LogEntry(kind: string, title: string, content: string, timestamp: string)

  /** What the dialogue-processing request returns; absent fields are None. */
  datatype ProcessedInfo = ProcessedInfo(
    participants: Option<seq<Participant>>,
    subject: Option<string>,
    time: Option<string>,
    location: Option<string>,
    description: Option<string>)

  const ManualStatuses: set<string> := {"preparing", "sending", "confirming", "completed"}

  /** The last wizard step, reached when the invitations are done. */
  const DoneStep: int := 4

  function InitialChannels(): seq<Channel> {
    [ Channel("email", "邮件", true, 1),
      Channel("slack", "Slack", true, 2),
      Channel("feishu", "飞书", true, 3),
      Channel("teams", "Teams", false, 4),
      Channel("sms", "短信", false, 5) ]
  }

  /** Priorities 1..n in list order. */
  predicate NumberedInOrder(channels: seq<Channel>) {
    forall i :: 0 <= i < |channels| ==> channels[i].priority == i + 1
  }

  /** A channel without its priority: what a drag must preserve. */
  datatype ChannelKey = ChannelKey(id: string, name: string, enabled: bool)

  function Keys(channels: seq<Channel>): (r: seq<ChannelKey>)
    ensures |r| == |channels|
    ensures forall i :: 0 <= i < |channels| ==>
      r[i] == ChannelKey(channels[i].id, channels[i].name, channels[i].enabled)
  {
    seq(|channels|, i requires 0 <= i < |channels| => ChannelKey(channels[i].id, channels[i].name, channels[i].enabled))
  }

  /** Each channel's priority rewritten to its 1-based position; nothing else changes. */
  function Renumbered(channels: seq<Channel>): (r: seq<Channel>)
    ensures NumberedInOrder(r)
    ensures Keys(r) == Keys(channels)
  {
    seq(|channels|, i requires 0 <= i < |channels| => channels[i].(priority := i + 1))
  }

  /** The channel list after a drag: moved, then renumbered. */
  function DraggedChannels(channels: seq<Channel>, source: nat, destination: nat): (r: seq<Channel>)
    requires source < |channels| && destination < |channels|
    ensures |r| == |channels| && NumberedInOrder(r)
  {
    Renumbered(Reorder.Moved(channels, source, destination))
  }

  /**
   * After a drag the channels are a permutation of the old ones (apart from
   * priority), the dragged channel is at the destination, and the priorities
   * are 1..n in list order.
   */
  lemma DragPermutesAndRenumbers(channels: seq<Channel>, source: nat, destination: nat)
    requires source < |channels| && destination < |channels|
    ensures var r := DraggedChannels(channels, source, destination);
      multiset(Keys(r)) == multiset(Keys(channels)) &&
      NumberedInOrder(r) &&
      Keys(r)[destination] == Keys(channels)[source]
  {
    var moved := Reorder.Moved(channels, source, destination);
    assert Keys(moved) == Reorder.Moved(Keys(channels), source, destination) by {
      forall k | 0 <= k < |channels| ensures Keys(moved)[k] == Reorder.Moved(Keys(channels), source, destination)[k] {
        Reorder.MovedAt(channels, source, destination, k);
        Reorder.MovedAt(Keys(channels), source, destination, k);
      }
    }
    Reorder.MovedPermutation(Keys(channels), source, destination);
  }

  /** A channel's switch: only the `enabled` flag of the channel with that id changes. */
  function WithEnabled(channels: seq<Channel>, id: string, checked: bool): (r: seq<Channel>)
    ensures |r| == |channels|
    ensures forall i :: 0 <= i < |channels| ==>
      r[i].id == channels[i].id && r[i].name == channels[i].name && r[i].priority == channels[i].priority
    ensures forall i :: 0 <= i < |channels| ==>
      r[i].enabled == if channels[i].id == id then checked else channels[i].enabled
  {
    seq(|channels|, i requires 0 <= i < |channels| =>
      if channels[i].id == id then channels[i].(enabled := checked) else channels[i])
  }

  predicate IsEnabled(c: Channel) {
    c.enabled
  }

  predicate SortedByPriority(channels: seq<Channel>) {
    forall i, j :: 0 <= i < j < |channels| ==> channels[i].priority <= channels[j].priority
  }

  /** Insert `c` before the first channel whose priority is not lower. */
  function InsertByPriority(c: Channel, sorted: seq<Channel>): (r: seq<Channel>)
    requires SortedByPriority(sorted)
    ensures |r| == |sorted| + 1 && (r[0] == c || (sorted != [] && r[0] == sorted[0]))
    ensures SortedByPriority(r)
    ensures multiset(r) == multiset(sorted) + multiset{c}
  {
    if sorted == [] || c.priority <= sorted[0].priority then [c] + sorted
    else
      var rest := InsertByPriority(c, sorted[1..]);
      assert sorted == [sorted[0]] + sorted[1..];
      assert sorted[0].priority <= rest[0].priority;
      [sorted[0]] + rest
  }

  /** `sort((a, b) => a.priority - b.priority)`: ascending by priority. */
  function SortByPriority(channels: seq<Channel>): (r: seq<Channel>)
    ensures SortedByPriority(r)
    ensures multiset(r) == multiset(channels)
  {
    if channels == [] then []
    else
      assert channels == [channels[0]] + channels[1..];
      InsertByPriority(channels[0], SortByPriority(channels[1..]))
  }

  /** The channels sent when a strategy is requested: the enabled ones, by ascending priority. */
  function StrategyChannels(channels: seq<Channel>): (r: seq<Channel>)
    ensures SortedByPriority(r)
    ensures multiset(r) == multiset(Filter(channels, IsEnabled))
    ensures forall c :: c in r <==> c in channels && c.enabled
  {
    var r := SortByPriority(Filter(channels, IsEnabled));
    assert forall c :: c in r <==> c in multiset(r);
    forall c ensures c in r <==> c in channels && c.enabled {
      FilterMembership(channels, IsEnabled, c);
    }
    r
  }

  /** Sorting a list that is already in priority order leaves it as it is. */
  lemma {:induction false} SortKeepsSorted(channels: seq<Channel>)
    requires SortedByPriority(channels)
    ensures SortByPriority(channels) == channels
  {
    if channels != [] {
      SortKeepsSorted(channels[1..]);
      assert channels == [channels[0]] + channels[1..];
    }
  }

  /**
   * After any drag the priorities follow the list order, so the strategy
   * receives the enabled channels exactly in list order.
   */
  lemma StrategyFollowsListOrder(channels: seq<Channel>)
    requires NumberedInOrder(channels)
    ensures StrategyChannels(channels) == Filter(channels, IsEnabled)
  {
    FilterKeepsSubsequenceOrder(channels);
    SortKeepsSorted(Filter(channels, IsEnabled));
  }

  /** Filtering a list numbered in order keeps it in ascending priority order. */
  lemma {:induction false} FilterKeepsSubsequenceOrder(channels: seq<Channel>)
    requires SortedByPriority(channels)
    ensures SortedByPriority(Filter(channels, IsEnabled))
  {
    if channels != [] {
      FilterKeepsSubsequenceOrder(channels[1..]);
      var tail := Filter(channels[1..], IsEnabled);
      forall c | c in tail ensures channels[0].priority <= c.priority {
        FilterMembership(channels[1..], IsEnabled, c);
      }
    }
  }

  /** The progress bar value for a manual status: 25/50/75/100 for the four known statuses, 0 otherwise. */
  function ManualProgress(status: string): (p: int)
    ensures 0 <= p <= 100 && p % 25 == 0
    ensures p == 100 <==> status == "completed"
    ensures p == 0 <==> status !in ManualStatuses
  {
    if status == "preparing" then 25
    else if status == "sending" then 50
    else if status == "confirming" then 75
    else if status == "completed" then 100
    else 0
  }

  /** The four statuses, in the order the panel lists them, give strictly rising progress. */
  lemma ManualProgressRises()
    ensures ManualProgress("preparing") < ManualProgress("sending") < ManualProgress("confirming") < ManualProgress("completed")
  {
  }

  function ManualLogTitle(status: string): string {
    status + " - 人工处理记录"
  }

  /** Next is disabled at step 0 with no participants and at step 1 without a subject or a time. */
  predicate NextDisabled(step: int, participants: seq<Participant>, subject: string, time: Option<string>) {
    (step == 0 && |participants| == 0) || (step == 1 && (subject == "" || time.None?))
  }

  /** Back is shown only past the first step. */
  predicate BackVisible(step: int) {
    step > 0
  }

  /** The Next/Back buttons are shown only in standard mode. */
  predicate ActionsVisible(mode: Mode) {
    mode == Standard
  }

  predicate ManualPanelVisible(status: InviteStatus, mode: Mode) {
    status == Processing && mode == Manual
  }

  /** A time field is truthy only when it is present and not "". */
  function TimeOrNull(time: Option<string>): (r: Option<string>)
    ensures r.Some? <==> time.Some? && time.value != ""
    ensures r.Some? ==> r == time
  {
    if time.Some? && time.value != "" then time else None
  }

  class MeetingInvite {
    var participants: seq<Participant>
    var subject: string
    var time: Option<string>
    var location: string
    var description: string
    var mode: Mode
    var currentStep: int
    var dialogueComplete: bool
    var dialogueResult: Option<ProcessedInfo>
    var channels: seq<Channel>
    var inviteProgress: int
    var inviteStatus: InviteStatus
    var processingLogs: seq<LogEntry>
    var currentManualStatus: string
    var manualNote: string

    /** Only standard and natural mode are ever set, and the step never goes below 0. */
    ghost predicate Valid()
      reads this
    {
      mode != Manual && currentStep >= 0
    }

    constructor ()
      ensures Valid()
      ensures participants == [] && subject == "" && time == None && location == "" && description == ""
      ensures mode == Standard && currentStep == 0 && !dialogueComplete && dialogueResult == None
      ensures channels == InitialChannels() && NumberedInOrder(channels)
      ensures inviteProgress == 0 && inviteStatus == Waiting && processingLogs == []
      ensures currentManualStatus == "preparing" && manualNote == ""
    {
      participants, subject, time, location, description := [], "", None, "", "";
      mode, currentStep, dialogueComplete, dialogueResult := Standard, 0, false, None;
      channels := InitialChannels();
      inviteProgress, inviteStatus, processingLogs := 0, Waiting, [];
      currentManualStatus, manualNote := "preparing", "";
    }

    /** Because the mode is never Manual, the manual-processing panel is never shown. */
    lemma ManualPanelNeverShown()
      requires Valid()
      ensures !ManualPanelVisible(inviteStatus, mode)
    {
    }

    method UseNaturalMode()
      requires Valid()
      modifies this`mode
      ensures Valid() && mode == Natural
    {
      mode := Natural;
    }

    method UseStandardMode()
      requires Valid()
      modifies this`mode
      ensures Valid() && mode == Standard
    {
      mode := Standard;
    }

    method SetParticipants(ps: seq<Participant>)
      modifies this`participants
      ensures participants == ps
    {
      participants := ps;
    }

    method SetSubject(s: string)
      modifies this`subject
      ensures subject == s
    {
      subject := s;
    }

    method SetTime(t: Option<string>)
      modifies this`time
      ensures time == t
    {
      time := t;
    }

    method SetManualNote(note: string)
      modifies this`manualNote
      ensures manualNote == note
    {
      manualNote := note;
    }

    /** The Next button: a click does something only when the button is shown and enabled. */
    method Next()
      requires Valid()
      modifies this`currentStep
      ensures Valid()
      ensures currentStep == if ActionsVisible(mode) && !NextDisabled(old(currentStep), participants, subject, time)
                             then old(currentStep) + 1 else old(currentStep)
    {
      if ActionsVisible(mode) && !NextDisabled(currentStep, participants, subject, time) {
        currentStep := currentStep + 1;
      }
    }

    /** The Back button: shown, and so effective, only in standard mode past step 0. */
    method Back()
      requires Valid()
      modifies this`currentStep
      ensures Valid()
      ensures currentStep == if ActionsVisible(mode) && BackVisible(old(currentStep))
                             then old(currentStep) - 1 else old(currentStep)
    {
      if ActionsVisible(mode) && BackVisible(currentStep) {
        currentStep := currentStep - 1;
      }
    }

    /** A drag of the channel list: without a destination nothing changes; otherwise move in a copy and renumber. */
    method HandleDragEnd(source: nat, destination: Option<nat>)
      requires source < |channels|
      requires destination.Some? ==> destination.value < |channels|
      modifies this`channels
      ensures destination.None? ==> channels == old(channels)
      ensures destination.Some? ==> channels == DraggedChannels(old(channels), source, destination.value)
    {
      if destination.None? {
        return;
      }
      var current := channels;
      var items := new Channel[|current|](i requires 0 <= i < |current| => current[i]);
      assert items[..] == current;
      Reorder.MoveInPlace(items, source, destination.value);
      channels := Renumbered(items[..]);
    }

    /** A channel's switch. */
    method SetChannelEnabled(id: string, checked: bool)
      modifies this`channels
      ensures channels == WithEnabled(old(channels), id, checked)
    {
      channels := WithEnabled(channels, id, checked);
    }

    /** Choosing manual processing: the status becomes processing and the progress 0. */
    method HandleManualProcess()
      modifies this`inviteStatus, this`inviteProgress
      ensures inviteStatus == Processing && inviteProgress == 0
    {
      inviteStatus := Processing;
      inviteProgress := 0;
    }

    method HandleManualStatusChange(status: string)
      modifies this`currentManualStatus, this`inviteProgress
      ensures currentManualStatus == status && inviteProgress == ManualProgress(status)
    {
      currentManualStatus := status;
      inviteProgress := ManualProgress(status);
    }

    /** Append one entry stamped with the current time `now`; the log only grows. */
    method AddProcessingLog(kind: string, title: string, content: string, now: string)
      modifies this`processingLogs
      ensures processingLogs == old(processingLogs) + [LogEntry(kind, title, content, now)]
    {
      processingLogs := processingLogs + [LogEntry(kind, title, content, now)];
    }

    /** The finishing transition shared by the "完成处理" button and a completed manual log. */
    method FinishProcessing()
      requires Valid()
      modifies this`inviteProgress, this`inviteStatus, this`currentStep
      ensures Valid()
      ensures inviteProgress == 100 && inviteStatus == Succeeded && currentStep == DoneStep
    {
      inviteProgress := 100;
      inviteStatus := Succeeded;
      currentStep := DoneStep;
    }

    /**
     * "添加记录": a blank note only raises a warning (`warned`) and changes
     * nothing; otherwise one "info" entry titled after the manual status is
     * appended, the note is cleared, and a completed status finishes the
     * processing.
     */
    method HandleAddManualLog(now: string) returns (warned: bool)
      requires Valid()
      modifies this`processingLogs, this`manualNote, this`inviteProgress, this`inviteStatus, this`currentStep
      ensures Valid()
      ensures warned <==> IsBlank(old(manualNote))
      ensures warned ==>
        processingLogs == old(processingLogs) && manualNote == old(manualNote) &&
        inviteProgress == old(inviteProgress) && inviteStatus == old(inviteStatus) && currentStep == old(currentStep)
      ensures !warned ==>
        processingLogs == old(processingLogs) + [LogEntry("info", ManualLogTitle(currentManualStatus), old(manualNote), now)] &&
        manualNote == ""
      ensures !warned && currentManualStatus == "completed" ==>
        inviteProgress == 100 && inviteStatus == Succeeded && currentStep == DoneStep
      ensures !warned && currentManualStatus != "completed" ==>
        inviteProgress == old(inviteProgress) && inviteStatus == old(inviteStatus) && currentStep == old(currentStep)
    {
      var blank := TrimIsEmpty(manualNote);
      if blank {
        return true;
      }
      warned := false;
      AddProcessingLog("info", ManualLogTitle(currentManualStatus), manualNote, now);
      manualNote := "";
      if currentManualStatus == "completed" {
        FinishProcessing();
      }
    }

    /**
     * The result of a finished dialogue. On success the meeting fields are filled
     * with defaults for absent values, the dialogue is marked complete and the
     * wizard jumps to step 2 unless it is already past it; a failed request only
     * shows an error toast.
     */
    method HandleDialogueComplete(response: Result<ProcessedInfo, string>)
      requires Valid()
      modifies this`dialogueResult, this`participants, this`subject, this`time, this`location, this`description,
        this`dialogueComplete, this`currentStep
      ensures Valid()
      ensures response.Failure? ==>
        dialogueResult == old(dialogueResult) && participants == old(participants) && subject == old(subject) &&
        time == old(time) && location == old(location) && description == old(description) &&
        dialogueComplete == old(dialogueComplete) && currentStep == old(currentStep)
      ensures response.Success? ==>
        var info := response.value;
        dialogueResult == Some(info) &&
        participants == info.participants.GetOr([]) && subject == info.subject.GetOr("") &&
        time == TimeOrNull(info.time) && location == info.location.GetOr("") &&
        description == info.description.GetOr("") && dialogueComplete &&
        currentStep == (if old(currentStep) < 2 then 2 else old(currentStep))
    {
      if response.Failure? {
        return;
      }
      var info := response.value;
      dialogueResult := Some(info);
      participants := info.participants.GetOr([]);
      subject := info.subject.GetOr("");
      time := TimeOrNull(info.time);
      location := info.location.GetOr("");
      description := info.description.GetOr("");
      dialogueComplete := true;
      if currentStep < 2 {
        currentStep := 2;
      }
    }
  }
}
