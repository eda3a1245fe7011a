/**
 * The suggestion service and the scheduler together: what hour each of the
 * service's fallback texts produces when it reaches `createCalendarEvent`.
 */
module Crosscheck {
  import opened Wrappers
  import opened Strings
  import opened Tasks
  import opened Scheduling
  import opened TurtlAI

  const MediumLowered := "afternoon (2-4 pm) - " + "good for medium priority tasks"
  const LowLowered := "evening (6-8 pm) - " + "suitable for low priority tasks"

  /** The high default mentions "morning" first thing, so it starts at 09:00. */
  lemma HighDefaultHour(timePreference: Priority)
    ensures ResolveHour(Some(DefaultSuggestion(High)), timePreference) == 9
  {
    var text := DefaultSuggestion(High);
    assert Lower(text)[0..][..7] == "morning";
    MorningKeywordsGiveNine(text, timePreference);
  }

  lemma LowerMediumDefault()
    ensures Lower(DefaultSuggestion(Medium)) == MediumLowered
  {
    var a, b := "Afternoon (2-4 PM) - ", "Good for medium priority tasks";
    LowerConcat(a, b);
    assert Lower(a) == "afternoon (2-4 pm) - ";
    assert Lower(b) == "good for medium priority tasks";
  }

  lemma LowerLowDefault()
    ensures Lower(DefaultSuggestion(Low)) == LowLowered
  {
    var a, b := "Evening (6-8 PM) - ", "Suitable for low priority tasks";
    LowerConcat(a, b);
    assert Lower(a) == "evening (6-8 pm) - ";
    assert Lower(b) == "suitable for low priority tasks";
  }

  /** "morning" occurs in no piece of the medium text between two spaces, hence not in the text. */
  lemma NoMorningInMedium()
    ensures !Contains(MediumLowered, "morning")
  {
    var lb := "good for medium priority tasks";
    NoMorningInMediumHead();
    NoMorningInMediumTail();
    NotContainsAcross("afternoon (2-4 pm) -", ' ', lb, "morning");
    assert MediumLowered == "afternoon (2-4 pm) -" + [' '] + lb;
  }

  lemma NoMorningInMediumHead()
    ensures !Contains("afternoon (2-4 pm) -", "morning")
  {
    MissingChar("afternoon (2-4", "morning", 0);
    ContainsShort("pm) -", "morning");
    NotContainsAcross("afternoon (2-4", ' ', "pm) -", "morning");
    assert "afternoon (2-4" + [' '] + "pm) -" == "afternoon (2-4 pm) -";
  }

  lemma NoMorningInMediumTail()
    ensures !Contains("good for medium priority tasks", "morning")
  {
    MissingChar("good for", "morning", 0);
    ContainsShort("medium", "morning");
    MissingChar("priority tasks", "morning", 0);
    NotContainsAcross("medium", ' ', "priority tasks", "morning");
    assert "medium" + [' '] + "priority tasks" == "medium priority tasks";
    NotContainsAcross("good for", ' ', "medium priority tasks", "morning");
    assert "good for" + [' '] + "medium priority tasks" == "good for medium priority tasks";
  }

  lemma NoMorningInLow()
    ensures !Contains(LowLowered, "morning")
  {
    var lb := "suitable for low priority tasks";
    MissingChar("evening (6-8", "morning", 0);
    ContainsShort("pm) -", "morning");
    NotContainsAcross("evening (6-8", ' ', "pm) -", "morning");
    assert "evening (6-8" + [' '] + "pm) -" == "evening (6-8 pm) -";
    MissingChar(lb, "morning", 0);
    NotContainsAcross("evening (6-8 pm) -", ' ', lb, "morning");
    assert LowLowered == "evening (6-8 pm) -" + [' '] + lb;
  }

  /** Which keywords of the first three rows the lowered medium default contains. */
  lemma MediumKeywords()
    ensures !Contains(MediumLowered, "morning") && !Contains(MediumLowered, "9") && !Contains(MediumLowered, "10")
    ensures !Contains(MediumLowered, "early morning") && !Contains(MediumLowered, "7") && !Contains(MediumLowered, "8")
    ensures Contains(MediumLowered, "afternoon")
  {
    var s := MediumLowered;
    NoMorningInMedium();
    MissingChar(s, "9", 0);
    MissingChar(s, "10", 0);
    ShadowingKeywords(s);
    MissingChar(s, "7", 0);
    MissingChar(s, "8", 0);
    assert s[0..][..9] == "afternoon";
  }

  /** The medium default has no morning keyword but begins with "afternoon", so it starts at 14:00. */
  lemma MediumDefaultHour(timePreference: Priority)
    ensures ResolveHour(Some(DefaultSuggestion(Medium)), timePreference) == 14
  {
    LowerMediumDefault();
    MediumKeywords();
    FirstMatchUnfolded(MediumLowered);
  }

  /**
   * The low default reads "Evening (6-8 PM)", but its "8" is caught by the
   * early-morning row before the evening row is tried: it starts at 08:00.
   */
  lemma LowDefaultHour(timePreference: Priority)
    ensures ResolveHour(Some(DefaultSuggestion(Low)), timePreference) == 8
  {
    var s := LowLowered;
    LowerLowDefault();
    NoMorningInLow();
    MissingChar(s, "9", 0);
    MissingChar(s, "10", 0);
    assert s[11] == '8';
    ContainsShort(s, "8");
    FirstMatchUnfolded(s);
  }
}
