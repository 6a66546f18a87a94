/**
 * The dialog in which a recruiter schedules an interview: a date, a time
 * slot, a duration and an optional meeting link. Dates are day numbers; the
 * caller supplies today's. The dialog's callbacks (`onSchedule`, `onClose`)
 * are modelled as the sequence of events a submit emits.
 */
module InterviewScheduler {
  import opened Wrappers
  import opened Decimal

  /** The time-slot list: every half hour from 09:00 to 17:30. */
  const TimeSlots: seq<string> := [
    "09:00", "09:30", "10:00", "10:30", "11:00", "11:30",
    "12:00", "12:30", "13:00", "13:30", "14:00", "14:30",
    "15:00", "15:30", "16:00", "16:30", "17:00", "17:30"
  ]

  /** The duration select's values, in minutes. */
  const Durations: seq<string> := ["30", "45", "60", "90"]

  const DefaultDuration := "60"
  const DefaultMeetingLink := "https://meet.google.com/new"

  /** An "HH:MM" text: two digits, a colon, two digits. */
  predicate IsClockText(s: string) {
    |s| == 5 && IsDigit(s[0]) && IsDigit(s[1]) && s[2] == ':' && IsDigit(s[3]) && IsDigit(s[4])
  }

  /** The minute of the day an "HH:MM" text denotes. */
  function MinutesOf(s: string): nat
    requires IsClockText(s)
  {
    (DigitValue(s[0]) * 10 + DigitValue(s[1])) * 60 + DigitValue(s[3]) * 10 + DigitValue(s[4])
  }

  /** The list has 18 clock texts, the i-th being 09:00 plus i half hours. */
  lemma TimeSlotsHalfHourly()
    ensures |TimeSlots| == 18
    ensures forall i :: 0 <= i < 18 ==> IsClockText(TimeSlots[i]) && MinutesOf(TimeSlots[i]) == 540 + 30 * i
  {
  }

  /** So the slots are in strictly ascending order of time, from 09:00 to 17:30. */
  lemma TimeSlotsAscending()
    ensures forall i :: 0 <= i < |TimeSlots| ==> IsClockText(TimeSlots[i])
    ensures forall i, j :: 0 <= i < j < |TimeSlots| ==> MinutesOf(TimeSlots[i]) < MinutesOf(TimeSlots[j])
    ensures MinutesOf(TimeSlots[0]) == 9 * 60 && MinutesOf(TimeSlots[|TimeSlots| - 1]) == 17 * 60 + 30
  {
    TimeSlotsHalfHourly();
  }

  /** Every duration of the select is read by `parseInt` as the number it shows. */
  lemma DurationsParse()
    ensures ParseInt("30") == Some(30) && ParseInt("45") == Some(45)
    ensures ParseInt("60") == Some(60) && ParseInt("90") == Some(90)
  {
    assert ToDecimal(30) == "30" && ToDecimal(45) == "45" && ToDecimal(60) == "60" && ToDecimal(90) == "90" by {
      assert ToDecimal(3) == "3" && ToDecimal(4) == "4" && ToDecimal(6) == "6" && ToDecimal(9) == "9";
    }
    ParseIntToDecimal(30);
    ParseIntToDecimal(45);
    ParseIntToDecimal(60);
    ParseIntToDecimal(90);
  }

  /** A duration the select offers is read as a number of minutes. */
  lemma DurationParses(d: string)
    requires d in Durations
    ensures ParseInt(d).Some? && ParseInt(d).value in {30, 45, 60, 90}
  {
    DurationsParse();
    var i :| 0 <= i < |Durations| && Durations[i] == d;
    if i == 0 {
      assert ParseInt(d) == ParseInt("30");
    } else if i == 1 {
      assert ParseInt(d) == ParseInt("45");
    } else if i == 2 {
      assert ParseInt(d) == ParseInt("60");
    } else {
      assert ParseInt(d) == ParseInt("90");
    }
  }

  /** The record handed to `onSchedule`; `duration` is None where `parseInt` gives NaN. */
  datatype ScheduleData = ScheduleData(
    applicantName: string, interviewRound: string, date: nat, time: string,
    duration: Option<int>, meetingLink: string)

  /** What the dialog tells its parent, in order. */
  datatype Event = Scheduled(data: ScheduleData) | Closed

  /** The link recorded: the entered one, the default when none was entered. */
  function LinkOrDefault(link: string): (r: string)
    ensures link != "" ==> r == link
    ensures link == "" ==> r == DefaultMeetingLink
  {
    if link != "" then link else DefaultMeetingLink
  }

  class Scheduler {
    var selectedDate: Option<nat>
    var selectedTime: string
    var duration: string
    var meetingLink: string

    /** The time is unset or a listed slot; the duration is one of the select's values. */
    ghost predicate Valid()
      reads this
    {
      (selectedTime == "" || selectedTime in TimeSlots) && duration in Durations
    }

    /** The dialog opens on today, with no time, 60 minutes and no link. */
    constructor (today: nat)
      ensures Valid()
      ensures selectedDate == Some(today) && selectedTime == "" && duration == DefaultDuration && meetingLink == ""
    {
      selectedDate, selectedTime, duration, meetingLink := Some(today), "", DefaultDuration, "";
    }

    /** The calendar: a day is picked, or the picked day unpicked. */
    method SelectDate(d: Option<nat>)
      requires Valid()
      modifies this`selectedDate
      ensures Valid() && selectedDate == d
    {
      selectedDate := d;
    }

    /** The time select offers the listed slots only. */
    method SelectTime(t: string)
      requires Valid() && t in TimeSlots
      modifies this`selectedTime
      ensures Valid() && selectedTime == t
    {
      selectedTime := t;
    }

    /** The duration select offers its listed values only. */
    method SelectDuration(d: string)
      requires Valid() && d in Durations
      modifies this`duration
      ensures Valid() && duration == d
    {
      duration := d;
    }

    /**
     * `handleSchedule`: without a date or a time nothing is emitted and
     * nothing changes; otherwise the record (verbatim name, round, date and
     * time, the duration in minutes, the link or its default) is handed over,
     * then the dialog is closed, then the fields are reset with today's date.
     */
    method HandleSchedule(applicantName: string, interviewRound: string, today: nat) returns (events: seq<Event>)
      requires Valid()
      modifies this
      ensures Valid()
      ensures old(selectedDate).None? || old(selectedTime) == "" ==>
        && events == []
        && selectedDate == old(selectedDate) && selectedTime == old(selectedTime)
        && duration == old(duration) && meetingLink == old(meetingLink)
      ensures old(selectedDate).Some? && old(selectedTime) != "" ==>
        && events == [Scheduled(ScheduleData(applicantName, interviewRound, old(selectedDate).value,
                                             old(selectedTime), ParseInt(old(duration)), LinkOrDefault(old(meetingLink)))),
                      Closed]
        && selectedDate == Some(today) && selectedTime == "" && duration == DefaultDuration && meetingLink == ""
    {
      if selectedDate.None? || selectedTime == "" {
        return [];
      }
      var data := ScheduleData(applicantName, interviewRound, selectedDate.value, selectedTime,
                               ParseInt(duration), LinkOrDefault(meetingLink));
      events := [Scheduled(data), Closed];
      selectedDate, selectedTime, duration, meetingLink := Some(today), "", DefaultDuration, "";
    }
  }
}
