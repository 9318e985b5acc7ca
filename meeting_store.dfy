/** The meeting store (`src/store/useMeetingStore.jsx`): the manager's
    meetings. Failures are only logged: no operation of this store throws. */
module MeetingStore {
  import opened Http
  import opened Ledger

  class MeetingStore {
    var meetings: seq<Meeting>

    constructor()
      ensures meetings == []
    {
      meetings := [];
    }

    /** `fetchMeetings(token)`: `response.data` becomes the list. */
    method FetchMeetings(outcome: Response<seq<Meeting>>)
      modifies this
      ensures meetings == if outcome.Success? then outcome.body else old(meetings)
    {
      if outcome.Success? {
        meetings := outcome.body;
      }
    }

    /** `addMeeting(meeting, token)`: the meeting the server stored goes at the end. */
    method AddMeeting(outcome: Response<Meeting>)
      modifies this
      ensures meetings == if outcome.Success? then old(meetings) + [outcome.body] else old(meetings)
    {
      if outcome.Success? {
        meetings := meetings + [outcome.body];
      }
    }

    /** `clearMeetings()`. */
    method ClearMeetings()
      modifies this
      ensures meetings == []
    {
      meetings := [];
    }
  }
}
