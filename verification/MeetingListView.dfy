/**
 * The meeting list backed by the API (frontend/components/MeetingList.tsx):
 * loading state, error state, the two tabs and cancellation.
 */
module MeetingListView {
  import opened Wrappers
  import opened Meetings
  import Api

  const UnknownErrorMessage: string := "An unknown error occurred"

  /** What the component renders, in the order its early returns test. */
  datatype Screen =
    | LoadingScreen
    | ErrorScreen(message: string)
    | TabsScreen(upcoming: seq<Meeting>, past: seq<Meeting>)

  /** The catch block's message: the Error's own message, or the fixed fallback. */
  function ErrorText(thrown: Api.Thrown): (message: string)
    ensures thrown.ErrorObject? ==> message == thrown.message
    ensures thrown.NonError? ==> message == UnknownErrorMessage
  {
    match thrown
    case ErrorObject(m) => m
    case NonError => UnknownErrorMessage
  }

  /**
   * The screen: the spinner while loading, otherwise the alert when the error
   * is truthy (a non-empty string), otherwise the two tabs.
   */
  function ScreenOf(isLoading: bool, error: Option<string>, meetings: seq<Meeting>): (s: Screen)
    ensures s.LoadingScreen? <==> isLoading
    ensures s.ErrorScreen? <==> !isLoading && error.Some? && error.value != ""
    ensures s.ErrorScreen? ==> s.message == error.value
    ensures s.TabsScreen? ==> s.upcoming == UpcomingMeetings(meetings) && s.past == PastMeetings(meetings)
  {
    if isLoading then LoadingScreen
    else if error.Some? && error.value != "" then ErrorScreen(error.value)
    else TabsScreen(UpcomingMeetings(meetings), PastMeetings(meetings))
  }

  /**
   * A failed fetch always ends on the alert, with the classified message and
   * never the fallback text: every failure `fetchMeetings` throws is an Error
   * with a non-empty message.
   */
  lemma FailedLoadShowsAlert(meetings: seq<Meeting>, e: Api.HttpError)
    ensures var outcome: Result<seq<Meeting>, Api.HttpError> := Failure(e);
      var message := ErrorText(Api.FetchMeetings(outcome).error);
      message != UnknownErrorMessage &&
      ScreenOf(false, Some(message), meetings) == ErrorScreen(Api.FetchErrorMessage(e))
  {
    var outcome: Result<seq<Meeting>, Api.HttpError> := Failure(e);
    var message := ErrorText(Api.FetchMeetings(outcome).error);
    assert message == Api.FetchErrorMessage(e);
    assert message[0] != UnknownErrorMessage[0];
  }

  class MeetingList {
    var meetings: seq<Meeting>
    var isLoading: bool
    var error: Option<string>

    /** The initial state, before the mount effect's first load. */
    constructor ()
      ensures meetings == [] && isLoading && error == None
    {
      meetings := [];
      isLoading := true;
      error := None;
    }

    function View(): Screen
      reads this
    {
      ScreenOf(isLoading, error, meetings)
    }

    /**
     * `loadMeetings` with the fetch's outcome as a parameter: loading is set
     * and the error cleared, then the data replaces the list or the error
     * message is recorded, and loading always ends.
     */
    method LoadMeetings(outcome: Result<seq<Meeting>, Api.HttpError>) returns (whilePending: Screen)
      modifies this
      ensures whilePending == LoadingScreen
      ensures !isLoading
      ensures outcome.Success? ==> meetings == outcome.value && error == None
      ensures outcome.Failure? ==> meetings == old(meetings) && error == Some(Api.FetchErrorMessage(outcome.error))
    {
      isLoading := true;
      error := None;
      whilePending := View();
      var result := Api.FetchMeetings(outcome);
      if result.Success? {
        meetings := result.value;
      } else {
        error := Some(ErrorText(result.error));
      }
      isLoading := false;
    }

    /** `handleCancelMeeting`. */
    method CancelMeeting(id: string)
      modifies this`meetings
      ensures meetings == Cancelled(old(meetings), id)
    {
      meetings := Cancelled(meetings, id);
    }
  }
}
