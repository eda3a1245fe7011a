/**
 * How the app turns a task and its suggestion into a calendar event
 * (`scheduleTaskInCalendar` and `createCalendarEvent`): an ordered keyword
 * table picks the hour of the deadline day, the time-of-day preference is
 * the fallback, and the event gets a one-hour slot, a marked title, notes
 * and, for high priority only, an alarm.
 */
module Scheduling {
  import opened Wrappers
  import opened Strings
  import opened Tasks

  /** One row of the table: if the lower-cased suggestion contains any keyword, start at this hour. */
  datatype Rule = Rule(keywords: seq<string>, hour: int)

  /** The rows in the order the `if ... else if` chain tests them. */
  const Rules: seq<Rule> := [
    Rule(["morning", "9", "10"], 9),
    Rule(["early morning", "7", "8"], 8),
    Rule(["afternoon", "2", "3", "14", "15"], 14),
    Rule(["evening", "6", "7", "18", "19"], 18),
    Rule(["late", "4", "5", "16", "17"], 16)
  ]

  predicate Fires(rule: Rule, s: string) {
    exists j :: 0 <= j < |rule.keywords| && Contains(s, rule.keywords[j])
  }

  /** Row i fires and no earlier row does. */
  predicate Decides(rules: seq<Rule>, s: string, i: int) {
    0 <= i < |rules| && Fires(rules[i], s) && forall j :: 0 <= j < i ==> !Fires(rules[j], s)
  }

  /** The hour of the first row that fires, if any. */
  function FirstMatch(rules: seq<Rule>, s: string): (r: Option<int>)
    ensures r.None? <==> forall i :: 0 <= i < |rules| ==> !Fires(rules[i], s)
    ensures r.Some? ==> exists i :: Decides(rules, s, i) && r.value == rules[i].hour
  {
    if rules == [] then None
    else if Fires(rules[0], s) then
      assert Decides(rules, s, 0);
      Some(rules[0].hour)
    else
      var r := FirstMatch(rules[1..], s);
      assert forall i :: 1 <= i < |rules| ==> rules[i] == rules[1..][i - 1];
      assert r.Some? ==> exists i :: Decides(rules[1..], s, i) && r.value == rules[1..][i].hour;
      assert forall i :: Decides(rules[1..], s, i) ==> Decides(rules, s, i + 1);
      r
  }

  /** The hour the moon selector stands for: full moon 9, half moon 14, new moon 20. */
  function PreferenceHour(timePreference: Priority): (h: int)
    ensures h in {9, 14, 20}
    ensures timePreference.TimeDescription() == "Morning" ==> h < 12
    ensures timePreference.TimeDescription() == "Afternoon" ==> 12 <= h < 18
    ensures timePreference.TimeDescription() == "Night" ==> 20 <= h
  {
    match timePreference
    case High => 9
    case Medium => 14
    case Low => 20
  }

  /**
   * The start hour for a suggestion: the first row of the table that the
   * lower-cased suggestion fires, else the preference hour. It is always one
   * of six hours.
   */
  function ResolveHour(suggestion: Option<string>, timePreference: Priority): (h: int)
    ensures h in {8, 9, 14, 16, 18, 20}
  {
    match suggestion
    case None => PreferenceHour(timePreference)
    case Some(text) =>
      var m := FirstMatch(Rules, Lower(text));
      assert m.Some? ==> exists i :: 0 <= i < |Rules| && m.value == Rules[i].hour;
      m.GetOr(PreferenceHour(timePreference))
  }

  // -------------------------------------------------------------- events

  /** `EKAlarm(relativeOffset:)`, in seconds relative to the start. */
  datatype Alarm = Alarm(relativeOffset: int)

  /** The fields of the `EKEvent` the app fills in. */
  datatype CalendarEvent = CalendarEvent(
    title: string,
    notes: string,
    startDate: DateTime,
    endDate: DateTime,
    alarms: seq<Alarm>)

  const TitleMarker := "🐢 "
  const NoSuggestion := "No suggestion available"

  function EventNotes(task: Task): string {
    "Priority: " + task.priority.RawValue() + "\nAI Suggestion: " + task.aiSuggestion.GetOr(NoSuggestion)
  }

  /** The event the app builds for a task and a time-of-day preference. */
  function EventFor(task: Task, timePreference: Priority): (e: CalendarEvent)
    requires task.deadline.Valid()
    ensures e.title == TitleMarker + task.title
    ensures e.startDate.day == task.deadline.day && e.startDate.hour == ResolveHour(task.aiSuggestion, timePreference)
    ensures e.startDate.minute == 0 && e.startDate.second == 0
    ensures e.endDate.Seconds() == e.startDate.Seconds() + 3600
    ensures |e.alarms| == (if task.priority == High then 1 else 0)
  {
    var start := SettingHour(task.deadline, ResolveHour(task.aiSuggestion, timePreference));
    CalendarEvent(
      TitleMarker + task.title,
      EventNotes(task),
      start,
      AddingHour(start),
      if task.priority == High then [Alarm(-3600)] else [])
  }

  /**
   * `createCalendarEvent`, step by step: title, notes, a start date chosen by
   * the suggestion (or, without one, the preference), an end one hour later
   * and, for high priority, one alarm. It builds exactly `EventFor`.
   */
  method CreateCalendarEvent(task: Task, timePreference: Priority) returns (event: CalendarEvent)
    requires task.deadline.Valid()
    ensures event == EventFor(task, timePreference)
  {
    var title := TitleMarker + task.title;
    var notes := "Priority: " + task.priority.RawValue() + "\nAI Suggestion: " + task.aiSuggestion.GetOr(NoSuggestion);
    var eventDate := task.deadline;
    if task.aiSuggestion.Some? {
      var suggestion := Lower(task.aiSuggestion.value);
      eventDate := SuggestedDate(task.deadline, suggestion, timePreference);
    } else {
      match timePreference {
        case High => eventDate := SettingHour(task.deadline, 9);
        case Medium => eventDate := SettingHour(task.deadline, 14);
        case Low => eventDate := SettingHour(task.deadline, 20);
      }
    }
    var endDate := AddingHour(eventDate);
    var alarms: seq<Alarm> := [];
    if task.priority == High {
      alarms := alarms + [Alarm(-3600)];
    }
    event := CalendarEvent(title, notes, eventDate, endDate, alarms);
  }

  /** A row of three keywords fires exactly when one of the three occurs. */
  lemma FiresThree(rule: Rule, s: string)
    requires |rule.keywords| == 3
    ensures Fires(rule, s) <==> Contains(s, rule.keywords[0]) || Contains(s, rule.keywords[1])
                                || Contains(s, rule.keywords[2])
  {
  }

  /** A row of five keywords fires exactly when one of the five occurs. */
  lemma FiresFive(rule: Rule, s: string)
    requires |rule.keywords| == 5
    ensures Fires(rule, s) <==> Contains(s, rule.keywords[0]) || Contains(s, rule.keywords[1])
                                || Contains(s, rule.keywords[2]) || Contains(s, rule.keywords[3])
                                || Contains(s, rule.keywords[4])
  {
  }

  /** Each row of the table fires exactly when one of its keywords occurs. */
  lemma RowsFire(s: string)
    ensures Fires(Rules[0], s) <==> Contains(s, "morning") || Contains(s, "9") || Contains(s, "10")
    ensures Fires(Rules[1], s) <==> Contains(s, "early morning") || Contains(s, "7") || Contains(s, "8")
    ensures Fires(Rules[2], s) <==> Contains(s, "afternoon") || Contains(s, "2") || Contains(s, "3")
                                    || Contains(s, "14") || Contains(s, "15")
    ensures Fires(Rules[3], s) <==> Contains(s, "evening") || Contains(s, "6") || Contains(s, "7")
                                    || Contains(s, "18") || Contains(s, "19")
    ensures Fires(Rules[4], s) <==> Contains(s, "late") || Contains(s, "4") || Contains(s, "5")
                                    || Contains(s, "16") || Contains(s, "17")
  {
    FiresThree(Rules[0], s);
    FiresThree(Rules[1], s);
    FiresFive(Rules[2], s);
    FiresFive(Rules[3], s);
    FiresFive(Rules[4], s);
  }

  /** A five-row table is tried row by row. */
  lemma FirstMatchFive(rules: seq<Rule>, s: string)
    requires |rules| == 5
    ensures FirstMatch(rules, s) ==
      if Fires(rules[0], s) then Some(rules[0].hour)
      else if Fires(rules[1], s) then Some(rules[1].hour)
      else if Fires(rules[2], s) then Some(rules[2].hour)
      else if Fires(rules[3], s) then Some(rules[3].hour)
      else if Fires(rules[4], s) then Some(rules[4].hour)
      else None
  {
    var t1 := rules[1..];
    var t2 := t1[1..];
    var t3 := t2[1..];
    var t4 := t3[1..];
    assert t1[0] == rules[1] && t2[0] == rules[2] && t3[0] == rules[3] && t4[0] == rules[4];
    assert t4[1..] == [];
  }

  /**
   * The keyword branch of `createCalendarEvent` for a lower-cased suggestion:
   * the chain of `contains` tests gives the date of the first table row that
   * fires, and the preference hour when none does.
   */
  method SuggestedDate(deadline: DateTime, suggestion: string, timePreference: Priority) returns (eventDate: DateTime)
    ensures eventDate == SettingHour(deadline, FirstMatch(Rules, suggestion).GetOr(PreferenceHour(timePreference)))
  {
    FirstMatchUnfolded(suggestion);
    if Contains(suggestion, "morning") || Contains(suggestion, "9") || Contains(suggestion, "10") {
      eventDate := SettingHour(deadline, 9);
    } else if Contains(suggestion, "early morning") || Contains(suggestion, "7") || Contains(suggestion, "8") {
      eventDate := SettingHour(deadline, 8);
    } else if Contains(suggestion, "afternoon") || Contains(suggestion, "2") || Contains(suggestion, "3")
           || Contains(suggestion, "14") || Contains(suggestion, "15") {
      eventDate := SettingHour(deadline, 14);
    } else if Contains(suggestion, "evening") || Contains(suggestion, "6") || Contains(suggestion, "7")
           || Contains(suggestion, "18") || Contains(suggestion, "19") {
      eventDate := SettingHour(deadline, 18);
    } else if Contains(suggestion, "late") || Contains(suggestion, "4") || Contains(suggestion, "5")
           || Contains(suggestion, "16") || Contains(suggestion, "17") {
      eventDate := SettingHour(deadline, 16);
    } else {
      match timePreference {
        case High => eventDate := SettingHour(deadline, 9);
        case Medium => eventDate := SettingHour(deadline, 14);
        case Low => eventDate := SettingHour(deadline, 20);
      }
    }
  }

  /** The table, read row by row, is the `if ... else if` chain. */
  lemma FirstMatchUnfolded(s: string)
    ensures FirstMatch(Rules, s) ==
      if Contains(s, "morning") || Contains(s, "9") || Contains(s, "10") then Some(9)
      else if Contains(s, "early morning") || Contains(s, "7") || Contains(s, "8") then Some(8)
      else if Contains(s, "afternoon") || Contains(s, "2") || Contains(s, "3")
           || Contains(s, "14") || Contains(s, "15") then Some(14)
      else if Contains(s, "evening") || Contains(s, "6") || Contains(s, "7")
           || Contains(s, "18") || Contains(s, "19") then Some(18)
      else if Contains(s, "late") || Contains(s, "4") || Contains(s, "5")
           || Contains(s, "16") || Contains(s, "17") then Some(16)
      else None
  {
    FirstMatchFive(Rules, s);
    RowsFire(s);
  }

  /** With calendar access the one event of `EventFor` is created; without it, none. */
  method ScheduleTaskInCalendar(task: Task, timePreference: Priority, accessGranted: bool)
    returns (event: Option<CalendarEvent>)
    requires task.deadline.Valid()
    ensures event == if accessGranted then Some(EventFor(task, timePreference)) else None
  {
    if accessGranted {
      var e := CreateCalendarEvent(task, timePreference);
      event := Some(e);
    } else {
      event := None;
    }
  }

  // ---------------------------------------------------------- properties

  /** The hours every row and the preference produce. */
  lemma StartOnDeadlineDay(task: Task, timePreference: Priority)
    requires task.deadline.Valid()
    ensures var e := EventFor(task, timePreference);
      && e.startDate.day == task.deadline.day
      && e.startDate.hour in {8, 9, 14, 16, 18, 20}
      && e.startDate.minute == 0 && e.startDate.second == 0
      && e.endDate.day == e.startDate.day
      && e.endDate.hour == e.startDate.hour + 1
      && e.endDate.Seconds() == e.startDate.Seconds() + 3600
  {
  }

  /** An alarm one hour before the start is attached exactly for high priority, and never more than one. */
  lemma AlarmOnlyForHighPriority(task: Task, timePreference: Priority)
    requires task.deadline.Valid()
    ensures var e := EventFor(task, timePreference);
      && |e.alarms| <= 1
      && (|e.alarms| == 1 <==> task.priority == High)
      && forall a :: a in e.alarms ==> a.relativeOffset == -3600
  {
  }

  /** The title is the task's title behind the turtle marker; the notes name the priority and the suggestion. */
  lemma EventText(task: Task, timePreference: Priority)
    requires task.deadline.Valid()
    ensures var e := EventFor(task, timePreference);
      && e.title[..|TitleMarker|] == TitleMarker && e.title[|TitleMarker|..] == task.title
      && Contains(e.notes, task.priority.RawValue())
      && (task.aiSuggestion.Some? ==> Contains(e.notes, task.aiSuggestion.value))
      && (task.aiSuggestion.None? ==> Contains(e.notes, NoSuggestion))
      && e.notes[..10] == "Priority: "
      && var shown := task.aiSuggestion.GetOr(NoSuggestion);
         |shown| <= |e.notes| && e.notes[|e.notes| - |shown|..] == shown
  {
    var e := EventFor(task, timePreference);
    assert e.notes == EventNotes(task);
    NotesParts("Priority: ", task.priority.RawValue(), "\nAI Suggestion: ", task.aiSuggestion.GetOr(NoSuggestion));
  }

  /** Where the second and the last of four joined texts sit in the joined text. */
  lemma NotesParts(a: string, b: string, c: string, d: string)
    ensures var s := a + b + c + d;
      && s[..|a|] == a && Contains(s, b) && Contains(s, d)
      && |d| <= |s| && s[|s| - |d|..] == d
  {
    var s := a + b + c + d;
    assert s[|a|..][..|b|] == b;
    assert s[|a + b + c|..] == d;
    assert s[|a + b + c|..][..|d|] == d;
  }

  /** The task's own priority plays no part in the start time; only the suggestion and the preference do. */
  lemma StartIgnoresTaskPriority(task: Task, p: Priority, timePreference: Priority)
    requires task.deadline.Valid()
    ensures EventFor(task.(priority := p), timePreference).startDate == EventFor(task, timePreference).startDate
  {
  }

  /** A suggestion that fires no row lands where no suggestion at all lands: on the preference hour. */
  lemma NoKeywordFallsBack(text: string, timePreference: Priority)
    requires FirstMatch(Rules, Lower(text)).None?
    ensures ResolveHour(Some(text), timePreference) == ResolveHour(None, timePreference)
    ensures ResolveHour(None, timePreference) == PreferenceHour(timePreference)
  {
  }

  /** The preference hours: full moon 9, half moon 14, new moon 20. */
  lemma PreferenceHours()
    ensures ResolveHour(None, High) == 9
    ensures ResolveHour(None, Medium) == 14
    ensures ResolveHour(None, Low) == 20
  {
  }

  /** Matching ignores case: a suggestion and its lower-cased form resolve alike. */
  lemma ResolveIgnoresCase(text: string, timePreference: Priority)
    ensures ResolveHour(Some(text), timePreference) == ResolveHour(Some(Lower(text)), timePreference)
  {
    LowerIdempotent(text);
  }

  /** Any suggestion mentioning "morning", "9" or "10" starts at 09:00, whatever the priority or preference. */
  lemma MorningKeywordsGiveNine(text: string, timePreference: Priority)
    requires Contains(Lower(text), "morning") || Contains(Lower(text), "9") || Contains(Lower(text), "10")
    ensures ResolveHour(Some(text), timePreference) == 9
  {
    FirstMatchUnfolded(Lower(text));
  }

  /** A keyword that contains a shorter keyword occurs only where the shorter one does. */
  lemma KeywordImplies(s: string, k: string, k': string, at: nat)
    requires at + |k'| <= |k| && k[at..][..|k'|] == k'
    ensures Contains(s, k) ==> Contains(s, k')
  {
    if Contains(s, k) {
      assert Contains(k, k');
      ContainsTransitive(s, k, k');
    }
  }

  /** The longer keywords whose shorter part is tested in an earlier row. */
  lemma ShadowingKeywords(s: string)
    ensures Contains(s, "early morning") ==> Contains(s, "morning")
    ensures Contains(s, "18") ==> Contains(s, "8")
    ensures Contains(s, "19") ==> Contains(s, "9")
    ensures Contains(s, "16") ==> Contains(s, "6")
    ensures Contains(s, "17") ==> Contains(s, "7")
  {
    KeywordImplies(s, "early morning", "morning", 6);
    KeywordImplies(s, "18", "8", 1);
    KeywordImplies(s, "19", "9", 1);
    KeywordImplies(s, "16", "6", 1);
    KeywordImplies(s, "17", "7", 1);
  }

  /** A row that has lost its shadowed keywords. */
  lemma FiresTwo(rule: Rule, s: string)
    requires |rule.keywords| == 2
    ensures Fires(rule, s) <==> Contains(s, rule.keywords[0]) || Contains(s, rule.keywords[1])
  {
  }

  /**
   * The table with every keyword that can never decide the outcome taken
   * out: "early morning" (it contains "morning", tested first), the evening
   * row's "7" (the row before already tests it), "18" and "19" (they contain
   * "8" and "9", tested earlier), "16" and "17" (they contain "6" and "7",
   * tested earlier).
   */
  const DecidingRules: seq<Rule> := [
    Rule(["morning", "9", "10"], 9),
    Rule(["7", "8"], 8),
    Rule(["afternoon", "2", "3", "14", "15"], 14),
    Rule(["evening", "6"], 18),
    Rule(["late", "4", "5"], 16)
  ]

  /** Dropping the shadowed keywords changes no outcome. */
  lemma ShadowedKeywordsNeverDecide(s: string)
    ensures FirstMatch(Rules, s) == FirstMatch(DecidingRules, s)
  {
    FirstMatchFive(Rules, s);
    FirstMatchFive(DecidingRules, s);
    RowsFire(s);
    ShadowingKeywords(s);
    FiresThree(DecidingRules[0], s);
    FiresTwo(DecidingRules[1], s);
    FiresFive(DecidingRules[2], s);
    FiresTwo(DecidingRules[3], s);
    FiresThree(DecidingRules[4], s);
  }

  /** "7" starts at 08:00 and never at 18:00: the early-morning row tests it first. */
  lemma SevenMeansEight(timePreference: Priority)
    ensures ResolveHour(Some("7"), timePreference) == 8
  {
    var s := "7";
    assert Lower(s) == s;
    assert !Contains(s, "morning") && !Contains(s, "9") && !Contains(s, "10") && Contains(s, "7") by {
      ContainsShort(s, "morning");
      ContainsShort(s, "9");
      ContainsShort(s, "10");
      ContainsShort(s, "7");
    }
    FirstMatchUnfolded(s);
  }

  /** "16" starts at 18:00, through the evening row's "6", not the late row's "16". */
  lemma SixteenMeansEighteen(timePreference: Priority)
    ensures ResolveHour(Some("16"), timePreference) == 18
  {
    var s := "16";
    assert Lower(s) == s;
    assert && !Contains(s, "morning") && !Contains(s, "9") && !Contains(s, "10")
           && !Contains(s, "early morning") && !Contains(s, "7") && !Contains(s, "8")
           && !Contains(s, "afternoon") && !Contains(s, "2") && !Contains(s, "3")
           && !Contains(s, "14") && !Contains(s, "15")
           && Contains(s, "6") by {
      ContainsShort(s, "morning");
      ContainsShort(s, "9");
      ContainsShort(s, "10");
      ContainsShort(s, "early morning");
      ContainsShort(s, "7");
      ContainsShort(s, "8");
      ContainsShort(s, "afternoon");
      ContainsShort(s, "2");
      ContainsShort(s, "3");
      ContainsShort(s, "14");
      ContainsShort(s, "15");
      ContainsShort(s, "6");
    }
    FirstMatchUnfolded(s);
  }

  /** A suggestion mentioning "16" starts at 18:00 unless one of the first three rows fires first. */
  lemma SixteenMeansEvening(text: string, timePreference: Priority)
    requires Contains(Lower(text), "16")
    requires forall i :: 0 <= i < 3 ==> !Fires(Rules[i], Lower(text))
    ensures ResolveHour(Some(text), timePreference) == 18
  {
    ShadowingKeywords(Lower(text));
    FirstMatchUnfolded(Lower(text));
    RowsFire(Lower(text));
  }

  /** A suggestion mentioning "17" or "18" starts at 08:00 unless the morning row fires first. */
  lemma SeventeenEighteenMeanEight(text: string, timePreference: Priority)
    requires Contains(Lower(text), "17") || Contains(Lower(text), "18")
    requires !Fires(Rules[0], Lower(text))
    ensures ResolveHour(Some(text), timePreference) == 8
  {
    ShadowingKeywords(Lower(text));
    FirstMatchUnfolded(Lower(text));
    RowsFire(Lower(text));
  }

  /** A suggestion mentioning "19" always starts at 09:00. */
  lemma NineteenMeansNine(text: string, timePreference: Priority)
    requires Contains(Lower(text), "19")
    ensures ResolveHour(Some(text), timePreference) == 9
  {
    ShadowingKeywords(Lower(text));
    MorningKeywordsGiveNine(text, timePreference);
  }
}
