/**
 * The reminder form: the quick-pick date arithmetic, the `YYYY-MM-DD` text
 * of the date input, and the status the two buttons drive.
 */
module ReminderForm {
  import opened Wrappers
  import opened Calendar
  import Decimal
  import opened Mailbox
  import FlagService

  datatype QuickPick = Today | Tomorrow | ThisWeek | NextWeek | Custom

  /** A start and a due day, as day numbers. */
  datatype Range = Range(start: int, due: int)

  // ---- Quick picks ----

  /** The days `getQuickPickDate` gives for a pick when today is the day number `today`. */
  function QuickPickRange(pick: QuickPick, today: int): (r: Range)
    ensures r.start <= r.due
    ensures today <= r.start <= today + 7
  {
    match pick
    case Today => Range(today, today)
    case Tomorrow => Range(today + 1, today + 1)
    case ThisWeek =>
      var day := Weekday(today);
      Range(today, today + (if day <= 5 then 5 - day else 0))
    case NextWeek =>
      var day := Weekday(today);
      var start := today + (if day == 0 then 1 else 8 - day);
      Range(start, start + 4)
    case Custom => Range(today, today)
  }

  /**
   * `getQuickPickDate` with "now" passed in as a day number. It copies today
   * into new `Date` objects and steps them in place; `today` and `tomorrow`
   * hand back one object as both start and due.
   */
  method GetQuickPickDate(pick: QuickPick, now: int) returns (start: Date, due: Date)
    ensures fresh(start) && fresh(due)
    ensures Range(start.day, due.day) == QuickPickRange(pick, now)
    ensures pick !in {ThisWeek, NextWeek} ==> start == due
  {
    var today := new Date(now);
    if pick == Tomorrow {
      var d := new Date.Copy(today);
      d.AddDays(1);
      start, due := d, d;
    } else if pick == ThisWeek {
      // Friday of the current week
      var d := new Date.Copy(today);
      var day := d.GetDay();
      var diff := if day <= 5 then 5 - day else 0;
      d.AddDays(diff);
      start, due := today, d;
    } else if pick == NextWeek {
      var s := new Date.Copy(today);
      var day := s.GetDay();
      var daysToMon := if day == 0 then 1 else 8 - day;
      s.AddDays(daysToMon);
      var e := new Date.Copy(s);
      e.AddDays(4);
      start, due := s, e;
    } else {
      // today, and the default branch that custom falls into
      start, due := today, today;
    }
  }

  /** `today` is today twice, `tomorrow` the next day twice. */
  lemma TodayAndTomorrow(today: int)
    ensures QuickPickRange(Today, today) == Range(today, today)
    ensures QuickPickRange(Tomorrow, today) == Range(today + 1, today + 1)
  {
  }

  /**
   * `thisWeek` starts today. Sunday to Friday, it is due on the first Friday
   * on or after today; on Saturday it is due today, with no roll into the
   * next week. Either way it is never due before it starts.
   */
  lemma ThisWeekDue(today: int)
    ensures var r := QuickPickRange(ThisWeek, today);
      && r.start == today
      && today <= r.due <= today + 5
      && (Weekday(today) <= Friday ==>
            Weekday(r.due) == Friday
            && forall j :: today <= j < r.due ==> Weekday(j) != Friday)
      && (Weekday(today) == Saturday ==> r.due == today)
  {
    var r := QuickPickRange(ThisWeek, today);
    if Weekday(today) <= Friday {
      WeekdayForward(today, r.due - today);
      forall j | today <= j < r.due ensures Weekday(j) != Friday {
        WeekdayForward(today, j - today);
      }
    }
  }

  /**
   * `nextWeek` starts on the first Monday after today (one to seven days
   * ahead, so a week ahead when today is Monday and tomorrow when today is
   * Sunday) and is due four days later, on a Friday.
   */
  lemma NextWeekMondayToFriday(today: int)
    ensures var r := QuickPickRange(NextWeek, today);
      && today + 1 <= r.start <= today + 7
      && Weekday(r.start) == Monday
      && (forall j :: today < j < r.start ==> Weekday(j) != Monday)
      && r.due == r.start + 4
      && Weekday(r.due) == Friday
  {
    var r := QuickPickRange(NextWeek, today);
    var w := Weekday(today);
    if w == Sunday {
      WeekdayForward(today, 1);
    } else {
      WeekdayWrap(today, 8 - w);
      forall j | today < j < r.start ensures Weekday(j) != Monday {
        if w + (j - today) < 7 {
          WeekdayForward(today, j - today);
        } else {
          WeekdayWrap(today, j - today);
        }
      }
    }
    WeekdayForward(r.start, 4);
  }

  /**
   * Day 19884 is Monday 2024-06-10 and day 19888 Friday 2024-06-14: this
   * week ends 2024-06-14, next week runs 2024-06-17 to 2024-06-21.
   */
  lemma JuneSecondWeek2024()
    ensures Weekday(19884) == Monday && Weekday(19888) == Friday
    ensures QuickPickRange(ThisWeek, 19884) == Range(19884, 19888)
    ensures QuickPickRange(NextWeek, 19884) == Range(19891, 19895)
    ensures QuickPickRange(ThisWeek, 19888) == Range(19888, 19888)
    ensures QuickPickRange(NextWeek, 19888) == Range(19891, 19895)
  {
  }

  // ---- The date input's text ----

  /** Where the three fields of `year-mm-dd` text sit. */
  lemma FieldPositions(y: string, mm: string, dd: string)
    requires |mm| == 2 && |dd| == 2
    ensures var s := y + "-" + mm + "-" + dd;
      && |s| == |y| + 6
      && s[..|s| - 6] == y && s[|s| - 6] == '-'
      && s[|s| - 5..|s| - 3] == mm && s[|s| - 3] == '-'
      && s[|s| - 2..] == dd
  {
    var s := y + "-" + mm + "-" + dd;
    assert s[..|s| - 6] == y;
    assert s[|s| - 5..|s| - 3] == mm;
    assert s[|s| - 2..] == dd;
  }

  /**
   * `s` is the year as `String` writes it, then `-`, the tens and units
   * digits of the month number (index + 1), `-`, and the tens and units
   * digits of the day.
   */
  predicate InputDateLayout(s: string, date: CivilDate) {
    var y := Decimal.IntToString(date.year);
    && |s| == |y| + 6
    && s[..|s| - 6] == y && s[|s| - 6] == '-' && s[|s| - 3] == '-'
    && s[|s| - 5..|s| - 3] == [Decimal.DigitChar((date.month + 1) / 10), Decimal.DigitChar((date.month + 1) % 10)]
    && s[|s| - 2..] == [Decimal.DigitChar(date.day / 10), Decimal.DigitChar(date.day % 10)]
  }

  /** Joining the year text and two-digit month and day fields with dashes gives that layout. */
  lemma LayoutOfFields(y: string, mm: string, dd: string, date: CivilDate)
    requires y == Decimal.IntToString(date.year)
    requires mm == [Decimal.DigitChar((date.month + 1) / 10), Decimal.DigitChar((date.month + 1) % 10)]
    requires dd == [Decimal.DigitChar(date.day / 10), Decimal.DigitChar(date.day % 10)]
    ensures InputDateLayout(y + "-" + mm + "-" + dd, date)
  {
    FieldPositions(y, mm, dd);
  }

  /**
   * `toInputDate`: the year as `String` writes it, then `-`, the tens and
   * units digits of the month number (index + 1), `-`, and the tens and
   * units digits of the day.
   */
  function ToInputDate(date: CivilDate): (s: string)
    ensures InputDateLayout(s, date)
  {
    var y := Decimal.IntToString(date.year);
    var mm := Decimal.PadStart(Decimal.NatToString(date.month + 1), 2, '0');
    var dd := Decimal.PadStart(Decimal.NatToString(date.day), 2, '0');
    Decimal.TwoDigits(date.month + 1);
    Decimal.TwoDigits(date.day);
    LayoutOfFields(y, mm, dd, date);
    y + "-" + mm + "-" + dd
  }

  /** Reads the text `ToInputDate` writes: year, then two-digit month and day fields. */
  function ParseInputDate(s: string): (r: Option<CivilDate>)
    ensures r.Some? ==> |s| >= 7 && s[|s| - 6] == '-' && s[|s| - 3] == '-'
  {
    var n := |s|;
    if n < 7 || s[n - 6] != '-' || s[n - 3] != '-' then None
    else
      match (Decimal.ParseInt(s[..n - 6]), Decimal.ParseNat(s[n - 5..n - 3]), Decimal.ParseNat(s[n - 2..]))
      case (Some(y), Some(m), Some(d)) =>
        if 1 <= m <= 12 && 1 <= d <= 31 then Some(CivilDate(y, m - 1, d)) else None
      case _ => None
  }

  /** For a four-digit year `toInputDate` is ten characters long. */
  lemma InputDateLength(date: CivilDate)
    requires 1000 <= date.year <= 9999
    ensures |ToInputDate(date)| == 10
  {
    Decimal.NatToStringLength(date.year, 3);
  }

  /** Two digits of a month number 1 to 12 read "01" to "12". */
  lemma MonthDigits(m: int)
    requires 1 <= m <= 12
    ensures var a, b := Decimal.DigitChar(m / 10), Decimal.DigitChar(m % 10);
      (a == '0' && '1' <= b <= '9') || (a == '1' && '0' <= b <= '2')
  {
    if m < 10 {
      assert m / 10 == 0 && m % 10 == m;
    } else {
      assert m / 10 == 1 && m % 10 == m - 10;
    }
  }

  /** Two digits of a day number 1 to 31 read "01" to "31". */
  lemma DayDigits(d: int)
    requires 1 <= d <= 31
    ensures var a, b := Decimal.DigitChar(d / 10), Decimal.DigitChar(d % 10);
      (a == '0' && '1' <= b <= '9') || ('1' <= a <= '2' && Decimal.IsDigit(b)) || (a == '3' && '0' <= b <= '1')
  {
    if d < 10 {
      assert d / 10 == 0 && d % 10 == d;
    } else if d < 30 {
      assert 1 <= d / 10 <= 2;
    } else {
      assert d / 10 == 3 && d % 10 == d - 30;
    }
  }

  /** Text laid out as `InputDateLayout` says has a month field "01".."12" and a day field "01".."31". */
  lemma LayoutFields(s: string, date: CivilDate)
    requires InputDateLayout(s, date)
    ensures var month := s[|s| - 5..|s| - 3];
      var day := s[|s| - 2..];
      && ((month[0] == '0' && '1' <= month[1] <= '9') || (month[0] == '1' && '0' <= month[1] <= '2'))
      && ((day[0] == '0' && '1' <= day[1] <= '9') || ('1' <= day[0] <= '2' && Decimal.IsDigit(day[1]))
          || (day[0] == '3' && '0' <= day[1] <= '1'))
  {
    MonthDigits(date.month + 1);
    DayDigits(date.day);
  }

  /** The month and day fields of such text read back as the month number and the day. */
  lemma LayoutFieldValues(s: string, date: CivilDate)
    requires InputDateLayout(s, date)
    ensures |s| >= 7
    ensures Decimal.ParseNat(s[|s| - 5..|s| - 3]) == Some(date.month + 1)
    ensures Decimal.ParseNat(s[|s| - 2..]) == Some(date.day)
  {
    var m: int := date.month + 1;
    var d: int := date.day;
    Decimal.ParseTwoChars(Decimal.DigitChar(m / 10), Decimal.DigitChar(m % 10));
    Decimal.ParseTwoChars(Decimal.DigitChar(d / 10), Decimal.DigitChar(d % 10));
  }

  /** Text laid out as `InputDateLayout` says reads back as its date. */
  lemma LayoutReadsBack(s: string, date: CivilDate)
    requires InputDateLayout(s, date)
    ensures ParseInputDate(s) == Some(date)
  {
    LayoutFieldValues(s, date);
    Decimal.ParseIntToString(date.year);
  }

  /** The month field of `toInputDate` is one of "01" to "12" and its day field one of "01" to "31". */
  lemma InputDateFields(date: CivilDate)
    ensures var s := ToInputDate(date);
      var month := s[|s| - 5..|s| - 3];
      var day := s[|s| - 2..];
      && s[|s| - 6] == '-' && s[|s| - 3] == '-'
      && ((month[0] == '0' && '1' <= month[1] <= '9') || (month[0] == '1' && '0' <= month[1] <= '2'))
      && ((day[0] == '0' && '1' <= day[1] <= '9') || ('1' <= day[0] <= '2' && Decimal.IsDigit(day[1]))
          || (day[0] == '3' && '0' <= day[1] <= '1'))
  {
    LayoutFields(ToInputDate(date), date);
  }

  /** Reading back the text of `toInputDate` gives the same date, for every year. */
  lemma InputDateRoundTrip(date: CivilDate)
    ensures ParseInputDate(ToInputDate(date)) == Some(date)
  {
    LayoutReadsBack(ToInputDate(date), date);
  }

  // ---- Status ----

  datatype Status = Idle | Loading(message: string) | Success(message: string) | Error(message: string)

  /** How an awaited call settled, as the `catch` sees it: a rejection may lack a message. */
  datatype Completion = Resolved | Rejected(message: Option<string>)

  function AsCompletion(r: Result<()>): (c: Completion)
    ensures c.Resolved? <==> r.Ok?
    ensures r.Err? ==> c.message == Some(r.message)
  {
    match r
    case Ok(_) => Resolved
    case Err(m) => Rejected(Some(m))
  }

  const SettingMessage := "Setting reminder and sending..."
  const SentWithReminder := "Email sent with follow-up reminder!"
  const ReminderSetSendManually := "Reminder set! Please click Send to send the email."
  const SendingMessage := "Sending..."
  const SentWithoutReminder := "Email sent without reminder."
  const SendManually := "Please click Send to send the email."

  /**
   * The status a handler settles on: success when the call resolves, the
   * manual-send success when it rejects with SEND_UNAVAILABLE, and otherwise
   * an error carrying the rejection's message or "Unknown error".
   */
  function Settle(c: Completion, sent: string, sendManually: string): (st: Status)
    ensures !st.Loading? && !st.Idle?
    ensures st.Success? <==> c.Resolved? || c == Rejected(Some(FlagService.SendUnavailable))
    ensures c.Resolved? ==> st == Success(sent)
    ensures c == Rejected(Some(FlagService.SendUnavailable)) ==> st == Success(sendManually)
    ensures st.Error? ==> st.message != FlagService.SendUnavailable
    ensures st.Error? && c.message.Some? ==> st.message == c.message.value
    ensures c == Rejected(None) ==> st == Error("Unknown error")
  {
    match c
    case Resolved => Success(sent)
    case Rejected(m) =>
      if m == Some(FlagService.SendUnavailable) then Success(sendManually)
      else Error(FlagService.MessageOr(m, "Unknown error"))
  }

  /** The days `handleSetReminder` flags: the custom day twice, or the quick pick's range. */
  function ChosenRange(pick: QuickPick, today: int, customDay: int): (r: Range)
    ensures r.start <= r.due
    ensures pick == Custom ==> r.start == r.due == customDay
    ensures pick != Custom ==> today <= r.start <= today + 7
    ensures pick in {Today, Tomorrow} ==> r.start == r.due
  {
    if pick == Custom then Range(customDay, customDay) else QuickPickRange(pick, today)
  }

  /**
   * End to end: with the flag set and no `sendAsync`, "Set Reminder & Send"
   * shows the manual-send success; a clean run shows the sent success; any
   * other outcome shows an error with the workflow's message.
   */
  lemma SetReminderOutcome(env: Env, dates: FlagService.FlagDates)
    ensures var run := FlagService.SetFlagAndSendRun(env, dates);
      var st := Settle(AsCompletion(run.result), SentWithReminder, ReminderSetSendManually);
      && (FlagService.FlagUpdated(env) && !env.sendAvailable ==> st == Success(ReminderSetSendManually))
      && (FlagService.FlagUpdated(env) && env.sendAvailable && env.send.Succeeded? ==> st == Success(SentWithReminder))
      && (st.Error? ==> run.result == Err(st.message))
      && (!FlagService.FlagUpdated(env) && run.result != Err(FlagService.SendUnavailable) ==> st.Error?)
  {
    FlagService.SendOnlyAfterFlagUpdate(env, dates);
    FlagService.SendUnavailableIff(env);
  }

  // ---- The form ----

  class Form {
    var selected: Option<QuickPick>
    /** The day the custom date input holds. */
    var customDay: int
    var status: Status
    /** Every status the form has been set to, oldest first. */
    ghost var history: seq<Status>

    constructor (now: int)
      ensures selected == None && customDay == now && status == Idle && history == []
    {
      selected := None;
      customDay := now;
      status := Idle;
      history := [];
    }

    /** A quick-pick button; the buttons are disabled while loading. */
    method Select(pick: QuickPick)
      requires !status.Loading?
      modifies this`selected
      ensures selected == Some(pick)
    {
      selected := Some(pick);
    }

    /** The custom date input, shown only while "custom" is selected; disabled while loading. */
    method SetCustomDay(day: int)
      requires selected == Some(Custom) && !status.Loading?
      modifies this`customDay
      ensures customDay == day
    {
      customDay := day;
    }

    method SetStatus(st: Status)
      modifies this`status, this`history
      ensures status == st && history == old(history) + [st]
    {
      status := st;
      history := history + [st];
    }

    /**
     * "Set Reminder & Send" (disabled while loading). With no pick it does
     * nothing; otherwise the status goes to loading, the workflow runs on the
     * chosen days written by `toIso`, and the status settles on its outcome.
     */
    method HandleSetReminder(now: int, toIso: int -> string, host: Host)
      requires !status.Loading?
      modifies this`status, this`history, host
      ensures selected == old(selected) && customDay == old(customDay)
      ensures old(selected).None? ==>
        status == old(status) && history == old(history) && host.trace == old(host.trace)
      ensures old(selected).Some? ==>
        var r := ChosenRange(old(selected).value, now, customDay);
        var run := FlagService.SetFlagAndSendRun(host.env, FlagService.FlagDates(toIso(r.start), toIso(r.due)));
        && host.trace == old(host.trace) + run.calls
        && status == Settle(AsCompletion(run.result), SentWithReminder, ReminderSetSendManually)
        && history == old(history) + [Loading(SettingMessage), status]
    {
      if selected.None? {
        return;
      }
      var pick := selected.value;
      var start: int;
      var due: int;
      if pick == Custom {
        start, due := customDay, customDay;
      } else {
        var startDate, dueDate := GetQuickPickDate(pick, now);
        start, due := startDate.day, dueDate.day;
      }
      SetStatus(Loading(SettingMessage));
      var r := FlagService.SetFlagAndSend(host, FlagService.FlagDates(toIso(start), toIso(due)));
      match r
      case Ok(_) =>
        SetStatus(Success(SentWithReminder));
      case Err(m) =>
        if m == FlagService.SendUnavailable {
          SetStatus(Success(ReminderSetSendManually));
        } else {
          SetStatus(Error(m));
        }
    }

    /**
     * "Send Without Reminder" (disabled while loading): the status goes to
     * loading, only the send runs, and the status settles on its outcome.
     */
    method HandleSendWithout(host: Host)
      requires !status.Loading?
      modifies this`status, this`history, host
      ensures selected == old(selected) && customDay == old(customDay)
      ensures var run := FlagService.SendWithoutFlagRun(host.env);
        && host.trace == old(host.trace) + run.calls
        && status == Settle(AsCompletion(run.result), SentWithoutReminder, SendManually)
        && history == old(history) + [Loading(SendingMessage), status]
    {
      SetStatus(Loading(SendingMessage));
      var r := FlagService.SendWithoutFlag(host);
      match r
      case Ok(_) =>
        SetStatus(Success(SentWithoutReminder));
      case Err(m) =>
        if m == FlagService.SendUnavailable {
          SetStatus(Success(SendManually));
        } else {
          SetStatus(Error(m));
        }
    }
  }
}
