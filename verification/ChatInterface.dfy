/**
 * The socket chat window (frontend/components/ChatInterface.tsx): the
 * connection flag, the retry counter and the message log the socket events
 * append to, and sending. The socket itself is a flag plus an outbox of the
 * `chat_message` payloads emitted; the clock is a parameter.
 */
module ChatInterface {
  import opened Wrappers
  import opened JsText

  datatype Sender = UserSender | AssistantSender | SystemSender

  datatype TimePreference = TimePreference(startTime: string, endTime: string, title: Option<string>)

  datatype Message = Message(message: string, kind: Sender, timestamp: Option<string>, timePreference: Option<TimePreference>)

  /** Connection-error notices are shown for the first ten attempts only. */
  const MaxRetryNotices: nat := 10

  const DisconnectNotice: string := "连接已断开，正在尝试重新连接..."

  const RetryPrefix: string := "连接失败 ("
  const RetrySuffix: string := "/10)，正在重试..."

  /** The notice for the `count`-th failed attempt. */
  function RetryNotice(count: nat): (text: string)
    ensures |text| == |RetryPrefix| + |NatToString(count)| + |RetrySuffix|
    ensures text[..|RetryPrefix|] == RetryPrefix
    ensures text[|RetryPrefix|..|text| - |RetrySuffix|] == NatToString(count)
    ensures text[|text| - |RetrySuffix|..] == RetrySuffix
  {
    RetryPrefix + NatToString(count) + RetrySuffix
  }

  /** Different attempts give different notices. */
  lemma RetryNoticeShowsCount(a: nat, b: nat)
    ensures RetryNotice(a) == RetryNotice(b) ==> a == b
  {
    if RetryNotice(a) == RetryNotice(b) {
      NatToStringInjective(a, b);
    }
  }

  /** The system notices appended by `errors` consecutive connection errors when `count` attempts have failed before. */
  function RetryNotices(count: nat, errors: nat, now: string): (r: seq<Message>)
    ensures forall i :: 0 <= i < |r| ==> r[i].kind == SystemSender
    decreases errors
  {
    if errors == 0 then []
    else
      (if count + 1 <= MaxRetryNotices then [Message(RetryNotice(count + 1), SystemSender, Some(now), None)] else [])
      + RetryNotices(count + 1, errors - 1, now)
  }

  /** However many errors arrive, at most ten notices are ever shown from a fresh count. */
  lemma {:induction false} RetryNoticesCapped(count: nat, errors: nat, now: string)
    requires count <= MaxRetryNotices
    ensures |RetryNotices(count, errors, now)| ==
      (if count + errors <= MaxRetryNotices then errors else MaxRetryNotices - count)
    decreases errors
  {
    if errors > 0 && count + 1 <= MaxRetryNotices {
      RetryNoticesCapped(count + 1, errors - 1, now);
    } else if errors > 0 {
      RetryNoticesSilent(count + 1, errors - 1, now);
    }
  }

  /** Past ten failed attempts, further errors add nothing to the log. */
  lemma {:induction false} RetryNoticesSilent(count: nat, errors: nat, now: string)
    requires count > MaxRetryNotices
    ensures RetryNotices(count, errors, now) == []
    decreases errors
  {
    if errors > 0 {
      RetryNoticesSilent(count + 1, errors - 1, now);
    }
  }

  /** `data.timestamp || now`: an absent or empty timestamp is replaced by the current time. */
  function StampOf(timestamp: Option<string>, now: string): (t: string)
    ensures timestamp.Some? && timestamp.value != "" ==> t == timestamp.value
    ensures timestamp.None? || timestamp.value == "" ==> t == now
  {
    if timestamp.Some? && timestamp.value != "" then timestamp.value else now
  }

  /** The send button: enabled only when connected, labelled accordingly. */
  function SendButtonLabel(isConnected: bool): (text: string)
    ensures text == "发送" <==> isConnected
  {
    if isConnected then "发送" else "连接中..."
  }

  class ChatWindow {
    var messages: seq<Message>
    var inputMessage: string
    var hasSocket: bool
    var isConnected: bool
    var retryCount: nat
    /** The messages emitted on the socket as `chat_message`. */
    var emitted: seq<string>

    constructor ()
      ensures messages == [] && inputMessage == "" && !hasSocket && !isConnected && retryCount == 0 && emitted == []
    {
      messages := [];
      inputMessage := "";
      hasSocket := false;
      isConnected := false;
      retryCount := 0;
      emitted := [];
    }

    /** The mount effect stores the new socket. */
    method Mount()
      modifies this`hasSocket
      ensures hasSocket
    {
      hasSocket := true;
    }

    /** The `connect` event. */
    method OnConnect()
      modifies this`isConnected, this`retryCount
      ensures isConnected && retryCount == 0
    {
      isConnected := true;
      retryCount := 0;
    }

    /** The `message` event: the message goes at the end of the log with its own timestamp, or the current time. */
    method OnMessage(data: Message, now: string)
      modifies this`messages
      ensures messages == old(messages) + [data.(timestamp := Some(StampOf(data.timestamp, now)))]
    {
      messages := messages + [data.(timestamp := Some(StampOf(data.timestamp, now)))];
    }

    /** The `connect_error` event: the attempt is counted and, for the first ten, a notice is shown. */
    method OnConnectError(now: string)
      modifies this`isConnected, this`retryCount, this`messages
      ensures !isConnected
      ensures retryCount == old(retryCount) + 1
      ensures messages == old(messages) + RetryNotices(old(retryCount), 1, now)
      ensures retryCount <= MaxRetryNotices ==> messages == old(messages) + [Message(RetryNotice(retryCount), SystemSender, Some(now), None)]
      ensures retryCount > MaxRetryNotices ==> messages == old(messages)
    {
      isConnected := false;
      var newCount := retryCount + 1;
      if newCount <= MaxRetryNotices {
        messages := messages + [Message(RetryNotice(newCount), SystemSender, Some(now), None)];
      }
      retryCount := newCount;
    }

    /** The `disconnect` event. */
    method OnDisconnect(now: string)
      modifies this`isConnected, this`messages
      ensures !isConnected
      ensures messages == old(messages) + [Message(DisconnectNotice, SystemSender, Some(now), None)]
    {
      isConnected := false;
      messages := messages + [Message(DisconnectNotice, SystemSender, Some(now), None)];
    }

    method SetInputMessage(text: string)
      modifies this`inputMessage
      ensures inputMessage == text
    {
      inputMessage := text;
    }

    /**
     * `handleSendMessage`: nothing happens for a blank input, without a socket
     * or while disconnected; otherwise the text is logged as the user's,
     * emitted, and the input cleared.
     */
    method SendMessage(now: string) returns (sent: bool)
      modifies this`messages, this`emitted, this`inputMessage
      ensures sent <==> !IsBlank(old(inputMessage)) && hasSocket && isConnected
      ensures sent ==>
        messages == old(messages) + [Message(old(inputMessage), UserSender, Some(now), None)]
        && emitted == old(emitted) + [old(inputMessage)] && inputMessage == ""
      ensures !sent ==> messages == old(messages) && emitted == old(emitted) && inputMessage == old(inputMessage)
    {
      var blank := TrimIsEmpty(inputMessage);
      if blank || !hasSocket || !isConnected {
        return false;
      }
      messages := messages + [Message(inputMessage, UserSender, Some(now), None)];
      emitted := emitted + [inputMessage];
      inputMessage := "";
      sent := true;
    }
  }
}
