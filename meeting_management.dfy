/** The manager's meeting page (`src/components/manager/MeetingManagement.jsx`):
    a form for a new meeting whose attendees are a comma-separated list of
    roles edited through check boxes, the add handler, and the meetings in
    date order. */
module MeetingManagement {
  import opened JsValues
  import opened Http
  import opened Seqs
  import opened Ledger
  import opened MeetingStore
  import AuthStore
  import opened Toasts

  /** The `newMeeting` form: every field is the text typed in. */
  datatype MeetingForm = MeetingForm(
    title: string,
    date: string,
    time: string,
    location: string,
    attendees: string,
    agenda: string)

  /** The form as the page starts, and as it is reset after an add. */
  const EmptyForm: MeetingForm := MeetingForm("", "", "", "", "", "")

  const Separator: char := ','

  /** `s.split(sep)`: the pieces between separators, so one more piece than
      there are separators; the empty string is one empty piece. */
  function Split(s: string, sep: char): (r: seq<string>)
    ensures |r| >= 1
    ensures forall i :: 0 <= i < |r| ==> sep !in r[i]
  {
    if s == [] then [""]
    else
      var rest := Split(s[1..], sep);
      if s[0] == sep then [""] + rest
      else [[s[0]] + rest[0]] + rest[1..]
  }

  /** `parts.join(sep)`: the empty list joins to the empty string. */
  function Join(parts: seq<string>, sep: char): string
  {
    if |parts| == 0 then ""
    else if |parts| == 1 then parts[0]
    else parts[0] + [sep] + Join(parts[1..], sep)
  }

  /** Joining the pieces of a split gives the string back. */
  lemma {:induction false} JoinSplit(s: string, sep: char)
    ensures Join(Split(s, sep), sep) == s
  {
    if s != [] {
      var rest := Split(s[1..], sep);
      JoinSplit(s[1..], sep);
      if s[0] == sep {
        assert Split(s, sep) == [""] + rest;
        assert ([""] + rest)[1..] == rest;
        assert s == [sep] + s[1..];
      } else {
        var r := Split(s, sep);
        assert r == [[s[0]] + rest[0]] + rest[1..];
        assert r[1..] == rest[1..];
        if |rest| == 1 {
          assert s == [s[0]] + rest[0];
        } else {
          assert Join(rest, sep) == rest[0] + [sep] + Join(rest[1..], sep);
          assert s == [s[0]] + rest[0] + [sep] + Join(rest[1..], sep);
        }
      }
    }
  }

  /** A piece followed by a separator splits off as its own first piece. */
  lemma {:induction false} SplitAfterPiece(a: string, b: string, sep: char)
    requires sep !in a
    ensures Split(a + [sep] + b, sep) == [a] + Split(b, sep)
  {
    if a == [] {
      assert a + [sep] + b == [sep] + b;
      assert ([sep] + b)[1..] == b;
    } else {
      var s := a + [sep] + b;
      assert s[0] == a[0] && s[1..] == a[1..] + [sep] + b;
      SplitAfterPiece(a[1..], b, sep);
      assert [a[0]] + a[1..] == a;
    }
  }

  /** A string without a separator splits into itself alone. */
  lemma {:induction false} SplitWithoutSeparator(a: string, sep: char)
    requires sep !in a
    ensures Split(a, sep) == [a]
  {
    if a != [] {
      SplitWithoutSeparator(a[1..], sep);
      assert [a[0]] + a[1..] == a;
    }
  }

  /** Splitting a join gives the pieces back when none holds the separator. */
  lemma {:induction false} SplitJoin(parts: seq<string>, sep: char)
    requires |parts| >= 1
    requires forall i :: 0 <= i < |parts| ==> sep !in parts[i]
    ensures Split(Join(parts, sep), sep) == parts
  {
    if |parts| == 1 {
      SplitWithoutSeparator(parts[0], sep);
    } else {
      SplitJoin(parts[1..], sep);
      SplitAfterPiece(parts[0], Join(parts[1..], sep), sep);
      assert [parts[0]] + parts[1..] == parts;
    }
  }

  /** `prev.attendees ? prev.attendees.split(",") : []`. */
  function AttendeeList(attendees: string): (r: seq<string>)
    ensures attendees == "" <==> r == []
    ensures forall i :: 0 <= i < |r| ==> Separator !in r[i]
  {
    if attendees == "" then [] else Split(attendees, Separator)
  }

  /** The list `attendeesArray.join(",")` stores is the one read back next time. */
  lemma {:induction false} AttendeesRoundTrip(list: seq<string>)
    requires forall i :: 0 <= i < |list| ==> Separator !in list[i]
    requires list != [""]
    ensures AttendeeList(Join(list, Separator)) == list
  {
    if list != [] {
      SplitJoin(list, Separator);
      if |list| == 1 {
        assert Join(list, Separator) == list[0];
      } else {
        assert Join(list, Separator) == list[0] + [Separator] + Join(list[1..], Separator);
      }
    }
  }

  /** `array.splice(array.indexOf(v), 1)` when `v` is there: the list without
      the first occurrence of `v`; the list itself when `v` is absent. */
  function RemoveFirst(xs: seq<string>, v: string): (r: seq<string>)
    ensures v !in xs ==> r == xs
    ensures |r| == if v in xs then |xs| - 1 else |xs|
  {
    if xs == [] then []
    else if xs[0] == v then xs[1..]
    else
      assert v in xs[1..] <==> v in xs;
      [xs[0]] + RemoveFirst(xs[1..], v)
  }

  /** Exactly one occurrence of `v` goes when `v` is there. */
  lemma {:induction false} RemoveFirstRemovesOne(xs: seq<string>, v: string)
    requires v in xs
    ensures multiset(RemoveFirst(xs, v)) == multiset(xs) - multiset{v}
  {
    assert xs == [xs[0]] + xs[1..];
    if xs[0] != v {
      RemoveFirstRemovesOne(xs[1..], v);
    }
  }

  /** The element removed is the first occurrence: what comes before it stays. */
  lemma {:induction false} RemoveFirstAt(xs: seq<string>, v: string, i: nat)
    requires i < |xs| && xs[i] == v
    requires forall j :: 0 <= j < i ==> xs[j] != v
    ensures RemoveFirst(xs, v) == xs[..i] + xs[i + 1..]
  {
    if i > 0 {
      assert RemoveFirst(xs, v) == [xs[0]] + RemoveFirst(xs[1..], v);
      RemoveFirstAt(xs[1..], v, i - 1);
      assert xs[1..][..i - 1] == xs[1..i];
      assert xs[1..][i..] == xs[i + 1..];
      assert [xs[0]] + xs[1..i] == xs[..i];
    }
  }

  /** Checking a role that was not listed and unchecking it again gives the
      list back. */
  lemma {:induction false} UncheckUndoesCheck(xs: seq<string>, v: string)
    requires v !in xs
    ensures RemoveFirst(xs + [v], v) == xs
  {
    RemoveFirstAt(xs + [v], v, |xs|);
    assert (xs + [v])[..|xs|] == xs;
  }

  /** `array.indexOf(v)`: the first index holding `v`, or -1. */
  method IndexOf(xs: seq<string>, v: string) returns (index: int)
    ensures -1 <= index < |xs|
    ensures index == -1 <==> v !in xs
    ensures 0 <= index ==> xs[index] == v && forall j :: 0 <= j < index ==> xs[j] != v
  {
    var i := 0;
    while i < |xs|
      invariant 0 <= i <= |xs|
      invariant forall j :: 0 <= j < i ==> xs[j] != v
    {
      if xs[i] == v {
        return i;
      }
      i := i + 1;
    }
    return -1;
  }

  /** `handleAddMeeting`'s guard: title, date, time and location are non-empty. */
  predicate Filled(form: MeetingForm)
  {
    form.title != "" && form.date != "" && form.time != "" && form.location != ""
  }

  const FillAllFields: string := "Please fill out all required fields before scheduling a meeting."

  /** The success toast: "`title` has been scheduled for `date` at `time`.". */
  function ScheduledMessage(form: MeetingForm): string
  {
    form.title + " has been scheduled for " + form.date + " at " + form.time + "."
  }

  /** `getSortedMeetings()`: a sorted copy, by the instant `new Date(date + "T" + time)`,
      which `when` stands for. */
  function SortedMeetings(meetings: seq<Meeting>, when: Meeting -> int): (r: seq<Meeting>)
    ensures SortedBy(r, when)
    ensures multiset(r) == multiset(meetings) && |r| == |meetings|
  {
    SortBy(meetings, when)
  }

  /** The earliest meeting is listed first. */
  lemma EarliestFirst(meetings: seq<Meeting>, when: Meeting -> int, m: Meeting)
    requires m in meetings
    ensures SortedMeetings(meetings, when) != []
    ensures when(SortedMeetings(meetings, when)[0]) <= when(m)
  {
    var r := SortedMeetings(meetings, when);
    assert m in multiset(r);
    SortedHeadIsLeast(r, when);
  }

  /** The page's state: the form being filled in. */
  class MeetingPage {
    var newMeeting: MeetingForm

    constructor()
      ensures newMeeting == EmptyForm
    {
      newMeeting := EmptyForm;
    }

    /** `handleCheckboxChange`: checking a role appends it to the attendees;
        unchecking removes its first occurrence, if any. Nothing else in the
        form changes. */
    method CheckboxChange(value: string, checked: bool)
      modifies this
      ensures checked ==> newMeeting.attendees == Join(AttendeeList(old(newMeeting.attendees)) + [value], Separator)
      ensures !checked ==> newMeeting.attendees == Join(RemoveFirst(AttendeeList(old(newMeeting.attendees)), value), Separator)
      ensures newMeeting == old(newMeeting).(attendees := newMeeting.attendees)
    {
      var list := AttendeeList(newMeeting.attendees);
      if checked {
        list := list + [value];
      } else {
        var index := IndexOf(list, value);
        if index > -1 {
          RemoveFirstAt(list, value, index);
          list := list[..index] + list[index + 1..];
        }
      }
      SetAttendees(Join(list, Separator));
    }

    /** `setNewMeeting({ ...prev, attendees })`. */
    method SetAttendees(attendees: string)
      modifies this
      ensures newMeeting == old(newMeeting).(attendees := attendees)
    {
      newMeeting := newMeeting.(attendees := attendees);
    }

    /** `handleAddMeeting`: an incomplete form only shows an error. A complete
        one goes to the store, which never throws, so the form is always
        reset and the success toast shown, whether or not the server stored
        the meeting. */
    method AddMeeting(store: MeetingStore, outcome: Response<Meeting>) returns (toast: Toast)
      modifies this, store
      ensures !Filled(old(newMeeting)) ==>
                toast == ErrorToast(FillAllFields) && newMeeting == old(newMeeting) &&
                store.meetings == old(store.meetings)
      ensures Filled(old(newMeeting)) ==>
                toast == SuccessToast(ScheduledMessage(old(newMeeting))) && newMeeting == EmptyForm &&
                store.meetings == if outcome.Success? then old(store.meetings) + [outcome.body] else old(store.meetings)
    {
      if Filled(newMeeting) {
        var sent := newMeeting;
        store.AddMeeting(outcome);
        newMeeting := EmptyForm;
        toast := SuccessToast(ScheduledMessage(sent));
      } else {
        toast := ErrorToast(FillAllFields);
      }
    }
  }

  /** Checking a role on an empty list stores exactly that role. */
  lemma FirstCheckIsTheRole(value: string)
    ensures Join(AttendeeList("") + [value], Separator) == value
  {
  }

  /** Checking a new role and reading the attendees back gives the old list
      with the role at the end. */
  lemma {:induction false} CheckAppends(attendees: string, value: string)
    requires value != "" && Separator !in value
    ensures AttendeeList(Join(AttendeeList(attendees) + [value], Separator)) == AttendeeList(attendees) + [value]
  {
    var list := AttendeeList(attendees) + [value];
    assert forall i :: 0 <= i < |list| ==> Separator !in list[i] by {
      forall i | 0 <= i < |list| ensures Separator !in list[i] {
        if i < |list| - 1 { assert list[i] == AttendeeList(attendees)[i]; }
      }
    }
    assert list[|list| - 1] == value;
    AttendeesRoundTrip(list);
  }

  /** Unchecking a role and reading the attendees back gives the old list
      without that role's first occurrence. */
  lemma {:induction false} UncheckRemoves(attendees: string, value: string)
    requires RemoveFirst(AttendeeList(attendees), value) != [""]
    ensures AttendeeList(Join(RemoveFirst(AttendeeList(attendees), value), Separator)) ==
            RemoveFirst(AttendeeList(attendees), value)
  {
    var list := RemoveFirst(AttendeeList(attendees), value);
    forall i | 0 <= i < |list| ensures Separator !in list[i] {
      if value in AttendeeList(attendees) {
        RemoveFirstRemovesOne(AttendeeList(attendees), value);
      }
      assert list[i] in multiset(list);
    }
    AttendeesRoundTrip(list);
  }

  /** The mount effect: with a token, the list is cleared and fetched again. */
  method Load(store: MeetingStore, token: Option<string>, outcome: Response<seq<Meeting>>)
    modifies store
    ensures !AuthStore.HasToken(token) ==> store.meetings == old(store.meetings)
    ensures AuthStore.HasToken(token) ==> store.meetings == if outcome.Success? then outcome.body else []
  {
    if AuthStore.HasToken(token) {
      store.ClearMeetings();
      store.FetchMeetings(outcome);
    }
  }
}
