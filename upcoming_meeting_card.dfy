/** The upcoming-meetings card (`src/components/reusable/UpcomingMeetingCard.jsx`)
    on the admin's, the manager's and the customer's dashboards: how many
    meetings lie ahead, and the date of the next one. */
module UpcomingMeetingCard {
  import opened JsValues
  import opened Seqs
  import opened Ledger

  /** `new Date(meeting.date) > now`; `when` stands for the parse, `now` for
      the clock, both in milliseconds. */
  function After(when: Meeting -> int, now: int): Meeting -> bool
  {
    (m: Meeting) => when(m) > now
  }

  /** `meetings.filter(m => new Date(m.date) > now)`. */
  function FutureMeetings(meetings: seq<Meeting>, when: Meeting -> int, now: int): (r: seq<Meeting>)
    ensures forall m :: m in r <==> m in meetings && when(m) > now
  {
    Filter(meetings, After(when, now))
  }

  /** `meetingCount`: the number of meetings still ahead, counted with
      repetitions. */
  function MeetingCount(meetings: seq<Meeting>, when: Meeting -> int, now: int): (n: nat)
    ensures n <= |meetings|
    ensures n == 0 <==> forall m :: m in meetings ==> when(m) <= now
  {
    var future := FutureMeetings(meetings, when, now);
    assert |future| > 0 ==> future[0] in future;
    |future|
  }

  /** The count starts at zero and grows by one for each meeting still
      ahead: it is the number of future meetings, repetitions included. */
  lemma {:induction false} MeetingCountStep(meetings: seq<Meeting>, m: Meeting, when: Meeting -> int, now: int)
    ensures MeetingCount([], when, now) == 0
    ensures MeetingCount(meetings + [m], when, now) == MeetingCount(meetings, when, now) + (if when(m) > now then 1 else 0)
  {
    FilterConcat(meetings, [m], After(when, now));
    assert [m][1..] == [];
  }

  /** `nextMeeting`: the first of the future meetings sorted by date, or
      `null` when none is ahead. */
  function NextMeeting(meetings: seq<Meeting>, when: Meeting -> int, now: int): (r: Option<Meeting>)
    ensures r.None? <==> forall m :: m in meetings ==> when(m) <= now
    ensures r.Some? ==> r.value in meetings && when(r.value) > now
    ensures r.Some? ==> forall m :: m in meetings && when(m) > now ==> when(r.value) <= when(m)
  {
    var future := FutureMeetings(meetings, when, now);
    if |future| > 0 then
      var sorted := SortBy(future, when);
      SortedHeadIsLeast(sorted, when);
      SameMembers(sorted, future);
      Some(sorted[0])
    else None
  }

  /** The card shows a next meeting exactly when its count is not zero. */
  lemma NextMeetingIffCount(meetings: seq<Meeting>, when: Meeting -> int, now: int)
    ensures NextMeeting(meetings, when, now).Some? <==> MeetingCount(meetings, when, now) > 0
  {
  }

  /** Time passing only shrinks the card's count. */
  lemma {:induction false} CountShrinksOverTime(meetings: seq<Meeting>, when: Meeting -> int, earlier: int, later: int)
    requires earlier <= later
    ensures MeetingCount(meetings, when, later) <= MeetingCount(meetings, when, earlier)
  {
    if meetings != [] {
      assert meetings == [meetings[0]] + meetings[1..];
      CountShrinksOverTime(meetings[1..], when, earlier, later);
      FilterConcat([meetings[0]], meetings[1..], After(when, later));
      FilterConcat([meetings[0]], meetings[1..], After(when, earlier));
    }
  }
}
