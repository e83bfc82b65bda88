/** The new-period form (components/TripSetup.tsx): its fields, the reset
    when it opens, the default month label and the acceptance rule. */
module Setup {
  import opened Types
  import opened Text

  /** The proposed month label: the month name with its first character
      upper-cased, a '/', then the year in decimal. */
  function DefaultMonthLabel(monthName: string, year: int): string
  {
    Capitalize(monthName) + "/" + IntToDecimal(year)
  }

  /** The separator is the label's last '/': the name part holds a '/' only
      when the name does, so a '/'-free name gets exactly one, and what
      follows the separator reads back as the year, written without
      leading zeros. */
  lemma {:induction false} DefaultLabelSeparator(monthName: string, year: int)
    ensures var proposed := DefaultMonthLabel(monthName, year);
            var k := |proposed| - |IntToDecimal(year)| - 1;
            && 0 <= k < |proposed| && proposed[k] == '/'
            && proposed[..k] == Capitalize(monthName)
            && ('/' in proposed[..k] <==> '/' in monthName)
            && '/' !in proposed[k + 1..]
            && (year >= 0 ==> ReadsAsDecimal(proposed[k + 1..], year))
            && (year < 0 ==> proposed[k + 1] == '-' && ReadsAsDecimal(proposed[k + 2..], -year))
            && (year >= 0 ==> (proposed[k + 1] == '0') == (year == 0))
            && (year < 0 ==> k + 2 < |proposed| && proposed[k + 2] != '0')
  {
    var c, y := Capitalize(monthName), IntToDecimal(year);
    SeparatedParts(c, y);
    assert DefaultMonthLabel(monthName, year) == c + "/" + y;
  }

  /** A name starting with a lower-case letter gets that letter's capital
      and keeps the rest of the name, followed by the separator. */
  lemma {:induction false} DefaultLabelCapital(monthName: string, year: int)
    requires monthName != [] && 'a' <= monthName[0] <= 'z'
    ensures var proposed := DefaultMonthLabel(monthName, year);
            && |proposed| > |monthName|
            && proposed[0] == (monthName[0] as int - 32) as char
            && proposed[1..|monthName|] == monthName[1..]
            && proposed[|monthName|] == '/'
  {
    var c, y := Capitalize(monthName), IntToDecimal(year);
    SeparatedParts(c, y);
    assert |c| == |monthName|;
    assert DefaultMonthLabel(monthName, year) == c + "/" + y;
  }

  /** Where the two parts and the separator sit in `c + "/" + y`. */
  lemma SeparatedParts(c: string, y: string)
    ensures var p := c + "/" + y;
            && |p| == |c| + 1 + |y| && p[|c|] == '/'
            && p[..|c|] == c && p[|c| + 1..] == y
            && (|c| >= 1 ==> p[1..|c|] == c[1..])
            && (|y| > 0 ==> p[|c| + 2..] == y[1..])
  {
    var p := c + "/" + y;
    assert p == c + ("/" + y);
    assert ("/" + y)[1..] == y;
  }

  /** The proposed label is never all whitespace, so a freshly opened form
      is accepted as soon as it has a date. */
  lemma {:induction false} DefaultLabelAccepted(monthName: string, year: int)
    ensures Trim(DefaultMonthLabel(monthName, year)) != []
  {
    var proposed := DefaultMonthLabel(monthName, year);
    var k := |Capitalize(monthName)|;
    SeparatedParts(Capitalize(monthName), IntToDecimal(year));
    assert proposed[k] == '/' && !IsJsWhitespace(proposed[k]);
  }

  /** For a month name without '/', the label's only '/' is the separator,
      so the month part of the report file names reads "<Month>-<year>". */
  lemma {:induction false} DefaultLabelFileName(monthName: string, year: int)
    requires '/' !in monthName
    ensures ReplaceSlashes(DefaultMonthLabel(monthName, year)) == Capitalize(monthName) + "-" + IntToDecimal(year)
  {
    var c, y := Capitalize(monthName), IntToDecimal(year);
    ReplaceSlashesConcat(c + "/", y);
    ReplaceSlashesConcat(c, "/");
    ReplaceSlashesRemovesAll(c);
    ReplaceSlashesRemovesAll(y);
    assert ReplaceSlashes("/") == "-";
    assert DefaultMonthLabel(monthName, year) == c + "/" + y;
  }

  /** The form's state cells. */
  class SetupForm {
    var month: string
    var goal: string
    var date: string

    /** Mounting: empty month and goal, today's date. */
    constructor (today: string)
      ensures month == "" && goal == "" && date == today
    {
      month, goal, date := "", "", today;
    }

    /** The effect run when `isOpen` changes: on opening, propose the month
      label, clear the goal and reset the date to today. The clock supplies
      `monthName`, `year` and `today`. */
    method OnOpenChanged(isOpen: bool, monthName: string, year: int, today: string)
      modifies this
      ensures isOpen ==> month == DefaultMonthLabel(monthName, year) && goal == "" && date == today
      ensures !isOpen ==> month == old(month) && goal == old(goal) && date == old(date)
    {
      if isOpen {
        month := DefaultMonthLabel(monthName, year);
        goal := "";
        date := today;
      }
    }

    method EditMonth(text: string)
      modifies this
      ensures month == text && goal == old(goal) && date == old(date)
    {
      month := text;
    }

    method EditGoal(text: string)
      modifies this
      ensures goal == text && month == old(month) && date == old(date)
    {
      goal := text;
    }

    method EditDate(text: string)
      modifies this
      ensures date == text && month == old(month) && goal == old(goal)
    {
      date := text;
    }

    /** `handleSubmit`. A closed form draws nothing, so nothing can be
      submitted; an open one starts a period exactly when the trimmed month
      and the date are non-empty. The period keeps the month as typed
      (untrimmed) and the goal as typed, possibly empty. */
    method Submit(isOpen: bool) returns (started: Option<BudgetPeriod>)
      ensures started.Some? <==> isOpen && Trim(month) != [] && date != []
      ensures started.Some? ==> started.value == BudgetPeriod(month, goal, date)
      ensures started.Some? ==> started.value.month != [] && started.value.startDate != []
    {
      started := None;
      if isOpen && Trim(month) != [] && date != [] {
        started := Some(BudgetPeriod(month, goal, date));
      }
    }
  }
}
