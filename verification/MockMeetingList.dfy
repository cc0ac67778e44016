/**
 * The meeting list over fixed sample data (frontend/app/components/MeetingList.tsx):
 * three sample meetings, the two tabs and cancellation.
 */
module MockMeetingList {
  import opened Meetings

  function MockMeetings(): (r: seq<Meeting>)
    ensures |r| == 3
    ensures forall i, j :: 0 <= i < j < |r| ==> r[i].id != r[j].id
  {
    [
      Meeting("1", "项目进度讨论", "2023-05-25", "14:00", ["张三", "李四", "王五"], Upcoming),
      Meeting("2", "客户需求分析", "2023-05-26", "10:00", ["张三", "赵六"], Upcoming),
      Meeting("3", "团队周会", "2023-05-20", "09:00", ["张三", "李四", "王五", "赵六"], Past)
    ]
  }

  /** The sample data shows meetings "1" and "2" as upcoming and "3" as past; cancelling "1" leaves "2" alone on the upcoming tab. */
  lemma {:induction false} MockTabs()
    ensures UpcomingMeetings(MockMeetings()) == MockMeetings()[..2]
    ensures PastMeetings(MockMeetings()) == MockMeetings()[2..]
    ensures UpcomingMeetings(Cancelled(MockMeetings(), "1")) == [MockMeetings()[1]]
  {
    var ms := MockMeetings();
    assert ms == [ms[0]] + [ms[1]] + [ms[2]];
    Lists.FilterAppend([ms[0]] + [ms[1]], [ms[2]], IsUpcoming);
    Lists.FilterAppend([ms[0]], [ms[1]], IsUpcoming);
    Lists.FilterAppend([ms[0]] + [ms[1]], [ms[2]], IsPast);
    Lists.FilterAppend([ms[0]], [ms[1]], IsPast);
    Lists.FilterAppend([ms[0]] + [ms[1]], [ms[2]], OtherThan("1"));
    Lists.FilterAppend([ms[0]], [ms[1]], OtherThan("1"));
    CancelCommutesWithTabs(ms, "1");
    assert UpcomingMeetings(ms) == [ms[0], ms[1]];
    assert Cancelled(UpcomingMeetings(ms), "1") == Lists.Filter([ms[0]] + [ms[1]], OtherThan("1"));
    Lists.FilterAppend([ms[0]], [ms[1]], OtherThan("1"));
  }

  class MeetingList {
    var meetings: seq<Meeting>

    constructor ()
      ensures meetings == MockMeetings()
    {
      meetings := MockMeetings();
    }

    /** `handleCancelMeeting`. */
    method CancelMeeting(id: string)
      modifies this
      ensures meetings == Cancelled(old(meetings), id)
    {
      meetings := Cancelled(meetings, id);
    }
  }
}
