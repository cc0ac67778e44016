/**
 * The assistant dialogue box (frontend/src/components/ChatDialog.js): a log
 * that starts with a welcome message, grows by the user's message, then by the
 * assistant's reply or an error notice, and may end the dialogue and hand the
 * summary to the parent. The HTTP request is an abstract outcome: `None` when
 * the request throws, otherwise the response body.
 */
module ChatDialog {
  import opened Wrappers
  import opened JsText

  datatype Role = UserRole | AssistantRole | SystemRole

  datatype DialogMessage = DialogMessage(kind: Role, content: string)

  /** The response body of the chat endpoint. */
  datatype Reply = Reply(status: string, response: string, dialogueComplete: bool, summary: string)

  /** The component's props: whether the parent passes a function under the name `onDialogComplete`. */
  datatype Props = Props(onDialogComplete: bool)

  datatype DialogState = DialogState(messages: seq<DialogMessage>, userInput: string, dialogueComplete: bool)

  /** The state after one send, and the summary handed to the parent's callback, if it was. */
  datatype SendResult = SendResult(state: DialogState, delivered: Option<string>)

  const Welcome: string := "你好！我是你的智能会议助手。我可以帮你：\n1. 安排新的会议\n2. 修改已有会议\n3. 查询会议信息\n请告诉我你需要什么帮助？"

  const ErrorNotice: DialogMessage := DialogMessage(SystemRole, "抱歉，发生了错误。")

  /** The state once the mount effect has run. */
  function Mounted(): (s: DialogState)
    ensures |s.messages| == 1 && s.messages[0].kind == AssistantRole
    ensures s.userInput == "" && !s.dialogueComplete
  {
    DialogState([DialogMessage(AssistantRole, Welcome)], "", false)
  }

  /**
   * Whether the send throws inside its try block: the request fails, or the
   * dialogue completes and the callback is not a function.
   */
  predicate Throws(props: Props, reply: Option<Reply>) {
    reply.None? || (reply.value.status == "success" && reply.value.dialogueComplete && !props.onDialogComplete)
  }

  /**
   * `sendMessage`. A blank input does nothing. Otherwise the user's message is
   * logged first; a "success" reply adds the assistant's text and, when the
   * dialogue is complete, disables the dialogue and calls the callback with the
   * summary; a throw adds the error notice and keeps the input, anything else
   * clears it.
   */
  function Send(props: Props, s: DialogState, reply: Option<Reply>): (r: SendResult)
    ensures |s.messages| <= |r.state.messages| && r.state.messages[..|s.messages|] == s.messages
  {
    if IsBlank(s.userInput) then SendResult(s, None)
    else
      var answered := reply.Some? && reply.value.status == "success";
      var completes := answered && reply.value.dialogueComplete;
      var appended :=
        [DialogMessage(UserRole, s.userInput)]
        + (if answered then [DialogMessage(AssistantRole, reply.value.response)] else [])
        + (if Throws(props, reply) then [ErrorNotice] else []);
      SendResult(
        DialogState(s.messages + appended, if Throws(props, reply) then s.userInput else "", s.dialogueComplete || completes),
        if completes && props.onDialogComplete then Some(reply.value.summary) else None)
  }

  /**
   * A blank input changes nothing; the dialogue becomes complete exactly on a
   * successful completing reply, and the summary is handed over exactly when
   * that happens and the callback exists.
   */
  lemma SendOutcome(props: Props, s: DialogState, reply: Option<Reply>)
    ensures var r := Send(props, s, reply);
      (IsBlank(s.userInput) ==> r == SendResult(s, None)) &&
      (r.state.dialogueComplete <==>
        s.dialogueComplete || (!IsBlank(s.userInput) && reply.Some? && reply.value.status == "success" && reply.value.dialogueComplete)) &&
      (r.delivered.Some? <==>
        !IsBlank(s.userInput) && reply.Some? && reply.value.status == "success" && reply.value.dialogueComplete && props.onDialogComplete) &&
      (r.delivered.Some? ==> r.delivered.value == reply.value.summary)
  {
  }

  /**
   * The log after a send of a non-blank input: the user's message comes first,
   * then the assistant's text for a "success" reply, then the error notice if
   * the send threw; the input is cleared exactly when nothing threw.
   */
  lemma SendLog(props: Props, s: DialogState, reply: Option<Reply>)
    requires !IsBlank(s.userInput)
    ensures var r := Send(props, s, reply);
      var answered := reply.Some? && reply.value.status == "success";
      |r.state.messages| == |s.messages| + 1 + (if answered then 1 else 0) + (if Throws(props, reply) then 1 else 0) &&
      r.state.messages[..|s.messages| + 1] == s.messages + [DialogMessage(UserRole, s.userInput)] &&
      (answered ==> r.state.messages[|s.messages| + 1] == DialogMessage(AssistantRole, reply.value.response)) &&
      (Throws(props, reply) ==> r.state.messages[|r.state.messages| - 1] == ErrorNotice) &&
      (r.state.userInput == "" <==> !Throws(props, reply))
  {
    var r := Send(props, s, reply);
    var answered := reply.Some? && reply.value.status == "success";
    var appended :=
      [DialogMessage(UserRole, s.userInput)]
      + (if answered then [DialogMessage(AssistantRole, reply.value.response)] else [])
      + (if Throws(props, reply) then [ErrorNotice] else []);
    assert r.state.messages == s.messages + appended;
    assert (s.messages + appended)[..|s.messages| + 1] == s.messages + [DialogMessage(UserRole, s.userInput)];
  }

  /** The props the invite wizard passes: its handler under the name `onComplete`, so `onDialogComplete` is undefined. */
  function PropsAsWritten(): Props {
    Props(false)
  }

  /** The props the invite wizard evidently means to pass: its handler as `onDialogComplete`. */
  function InviteProps(): Props {
    Props(true)
  }

  /**
   * With the wiring as written, a completing reply never reaches the wizard:
   * the call of the undefined callback throws, the error notice follows the
   * assistant's reply, the input stays, and the dialogue is disabled anyway.
   */
  lemma MissingCallbackLosesSummary(s: DialogState, body: Reply)
    requires !IsBlank(s.userInput)
    requires body.status == "success" && body.dialogueComplete
    ensures var r := Send(PropsAsWritten(), s, Some(body));
      r.delivered == None && r.state.dialogueComplete && r.state.userInput == s.userInput &&
      r.state.messages == s.messages + [DialogMessage(UserRole, s.userInput), DialogMessage(AssistantRole, body.response), ErrorNotice]
  {
  }

  /** With the corrected wiring, a completing reply hands its summary to the wizard and clears the input. */
  lemma WiredCallbackDeliversSummary(s: DialogState, body: Reply)
    requires !IsBlank(s.userInput)
    requires body.status == "success" && body.dialogueComplete
    ensures var r := Send(InviteProps(), s, Some(body));
      r.delivered == Some(body.summary) && r.state.dialogueComplete && r.state.userInput == "" &&
      r.state.messages == s.messages + [DialogMessage(UserRole, s.userInput), DialogMessage(AssistantRole, body.response)]
  {
  }

  /** Once complete, the dialogue stays complete, whatever is sent. */
  lemma CompletionIsFinal(props: Props, s: DialogState, reply: Option<Reply>)
    requires s.dialogueComplete
    ensures Send(props, s, reply).state.dialogueComplete
  {
  }

  class ChatDialogBox {
    const props: Props
    var messages: seq<DialogMessage>
    var userInput: string
    var dialogueComplete: bool

    /** The component after its mount effect has put the welcome message in the log. */
    constructor (props: Props)
      ensures this.props == props
      ensures DialogState(messages, userInput, dialogueComplete) == Mounted()
    {
      this.props := props;
      messages := [DialogMessage(AssistantRole, Welcome)];
      userInput := "";
      dialogueComplete := false;
    }

    /** The input and the send button are disabled once the dialogue is complete. */
    function InputDisabled(): bool
      reads this
    {
      dialogueComplete
    }

    method SetUserInput(text: string)
      modifies this`userInput
      ensures userInput == text
    {
      userInput := text;
    }

    /** `sendMessage`, step by step, with the request's outcome as a parameter. */
    method SendMessage(reply: Option<Reply>) returns (delivered: Option<string>)
      modifies this`messages, this`userInput, this`dialogueComplete
      ensures SendResult(DialogState(messages, userInput, dialogueComplete), delivered)
        == Send(props, old(DialogState(messages, userInput, dialogueComplete)), reply)
    {
      ghost var s0 := DialogState(messages, userInput, dialogueComplete);
      delivered := None;
      var blank := TrimIsEmpty(userInput);
      if blank {
        assert Send(props, s0, reply) == SendResult(s0, None);
        return;
      }
      var sent := userInput;
      var user := DialogMessage(UserRole, sent);
      messages := messages + [user];
      if reply.None? {
        messages := messages + [ErrorNotice];
        assert Send(props, s0, reply) == SendResult(DialogState(s0.messages + [user, ErrorNotice], sent, s0.dialogueComplete), None);
        return;
      }
      var body := reply.value;
      if body.status == "success" {
        var answer := DialogMessage(AssistantRole, body.response);
        messages := messages + [answer];
        if body.dialogueComplete {
          dialogueComplete := true;
          if !props.onDialogComplete {
            messages := messages + [ErrorNotice];
            assert Send(props, s0, reply) == SendResult(DialogState(s0.messages + [user, answer, ErrorNotice], sent, true), None);
            return;
          }
          delivered := Some(body.summary);
          assert Send(props, s0, reply) == SendResult(DialogState(s0.messages + [user, answer], "", true), delivered);
        } else {
          assert Send(props, s0, reply) == SendResult(DialogState(s0.messages + [user, answer], "", s0.dialogueComplete), None);
        }
      } else {
        assert Send(props, s0, reply) == SendResult(DialogState(s0.messages + [user], "", s0.dialogueComplete), None);
      }
      userInput := "";
    }
  }
}
