/**
 * The meeting record and the list logic the two meeting-list components share
 * (frontend/components/MeetingList.tsx and frontend/app/components/MeetingList.tsx):
 * the upcoming/past tabs and cancellation, both `filter` expressions.
 */
module Meetings {
  import opened Lists

  datatype MeetingStatus = Upcoming | Past

  datatype Meeting = Meeting(id: string, title: string, date: string, time: string, participants: seq<string>, status: MeetingStatus)

  predicate IsUpcoming(m: Meeting) {
    m.status == Upcoming
  }

  predicate IsPast(m: Meeting) {
    m.status == Past
  }

  /** The "即将到来" tab. */
  function UpcomingMeetings(meetings: seq<Meeting>): (r: seq<Meeting>)
    ensures forall i :: 0 <= i < |r| ==> r[i].status == Upcoming
  {
    Filter(meetings, IsUpcoming)
  }

  /** The "历史会议" tab. */
  function PastMeetings(meetings: seq<Meeting>): (r: seq<Meeting>)
    ensures forall i :: 0 <= i < |r| ==> r[i].status == Past
  {
    Filter(meetings, IsPast)
  }

  /** The cancel filter's test: a meeting other than `id`. */
  function OtherThan(id: string): Meeting -> bool {
    (m: Meeting) => m.id != id
  }

  function WithId(id: string): Meeting -> bool {
    (m: Meeting) => m.id == id
  }

  /** Cancelling meeting `id`: every meeting with that id goes, the rest stay in order. */
  function Cancelled(meetings: seq<Meeting>, id: string): (r: seq<Meeting>)
    ensures forall i :: 0 <= i < |r| ==> r[i].id != id
  {
    Filter(meetings, OtherThan(id))
  }

  /** The two tabs split the list: every meeting is on exactly one of them, as often as in the list. */
  lemma TabsPartition(meetings: seq<Meeting>)
    ensures multiset(UpcomingMeetings(meetings)) + multiset(PastMeetings(meetings)) == multiset(meetings)
    ensures |UpcomingMeetings(meetings)| + |PastMeetings(meetings)| == |meetings|
    ensures multiset(UpcomingMeetings(meetings)) !! multiset(PastMeetings(meetings))
  {
    FilterSplit(meetings, IsUpcoming, IsPast);
    FilterDisjoint(meetings, IsUpcoming, IsPast);
  }

  /** A meeting survives cancellation exactly when its id differs; a list without that id is unchanged. */
  lemma CancelRemovesExactly(meetings: seq<Meeting>, id: string)
    ensures forall m :: m in Cancelled(meetings, id) <==> m in meetings && m.id != id
    ensures (forall i :: 0 <= i < |meetings| ==> meetings[i].id != id) ==> Cancelled(meetings, id) == meetings
    ensures multiset(Cancelled(meetings, id)) + multiset(Filter(meetings, WithId(id))) == multiset(meetings)
  {
    forall m ensures m in Cancelled(meetings, id) <==> m in meetings && m.id != id {
      FilterMembership(meetings, OtherThan(id), m);
    }
    if forall i :: 0 <= i < |meetings| ==> meetings[i].id != id {
      FilterKeepsAll(meetings, OtherThan(id));
    }
    FilterSplit(meetings, OtherThan(id), WithId(id));
  }

  /** Cancelling and then looking at a tab is the same as removing the meeting from that tab. */
  lemma CancelCommutesWithTabs(meetings: seq<Meeting>, id: string)
    ensures UpcomingMeetings(Cancelled(meetings, id)) == Cancelled(UpcomingMeetings(meetings), id)
    ensures PastMeetings(Cancelled(meetings, id)) == Cancelled(PastMeetings(meetings), id)
  {
    FilterCommute(meetings, OtherThan(id), IsUpcoming);
    FilterCommute(meetings, OtherThan(id), IsPast);
  }

  /** Join, edit and cancel are offered only on upcoming meetings. */
  predicate ActionsOffered(m: Meeting) {
    m.status == Upcoming
  }

  /**
   * A meeting of the list offers join, edit and cancel exactly when it is on
   * the upcoming tab; no meeting on the past tab offers them.
   */
  lemma ActionsOnlyOnUpcomingTab(meetings: seq<Meeting>)
    ensures forall m | m in meetings :: ActionsOffered(m) <==> m in UpcomingMeetings(meetings)
    ensures forall m | m in PastMeetings(meetings) :: !ActionsOffered(m)
  {
    forall m | m in meetings
      ensures ActionsOffered(m) <==> m in UpcomingMeetings(meetings)
    {
      FilterMembership(meetings, IsUpcoming, m);
    }
    forall m | m in PastMeetings(meetings)
      ensures !ActionsOffered(m)
    {
      FilterMembership(meetings, IsPast, m);
    }
  }
}
