/**
  Turning `@daily-random` and its siblings into fixed crontab text
  (operator/schedulecontroller/randomizer.go). The checksum of the seed is any natural number.
 */
module Randomizer {
  import opened Text

  const HourlyRandom := "@hourly-random"
  const DailyRandom := "@daily-random"
  const YearlyRandom := "@yearly-random"
  const AnnuallyRandom := "@annually-random"
  const MonthlyRandom := "@monthly-random"
  const WeeklyRandom := "@weekly-random"

  predicate IsNonStandard(s: string) {
    s != "" && s[0] == '@'
  }

  predicate IsRandom(s: string) {
    IsNonStandard(s) && HasSuffix(s, "-random")
  }

  /** Random definitions are those that begin with "@" and end in "-random". */
  lemma IsRandomMeans(s: string)
    ensures IsRandom(s) <==> exists kind :: s == "@" + kind + "-random"
  {
    var tail := "-random";
    if IsRandom(s) {
      assert |s| > |tail| by {
        assert s[0] == '@' && tail[0] == '-';
      }
      assert s == "@" + s[1..|s| - |tail|] + tail;
    }
    forall kind: string | s == "@" + kind + tail
      ensures IsRandom(s)
    {
      assert s[|s| - |tail|..] == tail;
    }
  }

  function Remainder(checksum: nat, divisor: nat, offset: nat): nat
    requires divisor > 0
  {
    offset + checksum % divisor
  }

  datatype Randomized = Randomized(schedule: string, ok: bool)

  /** randomizeSchedule: `@annually-random` has a case of its own that does nothing. */
  function RandomizeSchedule(checksum: nat, original: string): Randomized {
    var minute := Itoa(Remainder(checksum, 60, 0));
    var hour := Itoa(Remainder(checksum, 24, 0));
    var dayOfMonth := Itoa(Remainder(checksum, 27, 1));
    if original == HourlyRandom then Randomized(minute + " * * * *", true)
    else if original == DailyRandom then Randomized(minute + " " + hour + " * * *", true)
    else if original == MonthlyRandom then Randomized(minute + " " + hour + " " + dayOfMonth + " * *", true)
    else if original == AnnuallyRandom then Randomized(original, true)
    else if original == YearlyRandom then
      var month := Itoa(Remainder(checksum, 12, 1));
      Randomized(minute + " " + hour + " " + dayOfMonth + " " + month + " *", true)
    else if original == WeeklyRandom then
      var weekday := Itoa(Remainder(checksum, 6, 0));
      Randomized(minute + " " + hour + " * * " + weekday, true)
    else Randomized(original, false)
  }

  /** A crontab field: every value, or one number within the bounds. */
  ghost predicate Field(f: string, low: nat, high: nat) {
    f == "*" || exists n: nat :: f == Itoa(n) && low <= n <= high
  }

  /** A time specification in the crontab entry format of POSIX, with a day every month has. */
  ghost predicate CrontabEntry(text: string) {
    var f := Split(text, ' ');
    && |f| == 5
    && Field(f[0], 0, 59) && Field(f[1], 0, 23) && Field(f[2], 1, 27) && Field(f[3], 1, 12) && Field(f[4], 0, 6)
  }

  predicate Translated(original: string) {
    original in {"@hourly-random", "@daily-random", "@weekly-random", "@monthly-random", "@yearly-random"}
  }

  lemma ItoaHasNoSpace(n: nat)
    ensures ' ' !in Itoa(n)
  {
    assert !IsDigit(' ');
  }

  /** Five texts without spaces, separated by single spaces, are the fields of the whole. */
  lemma FiveFields(a: string, b: string, c: string, d: string, e: string)
    requires ' ' !in a && ' ' !in b && ' ' !in c && ' ' !in d && ' ' !in e
    ensures Split(a + " " + b + " " + c + " " + d + " " + e, ' ') == [a, b, c, d, e]
  {
    ThreeFields(c, d, e);
    var rest := c + " " + d + " " + e;
    SplitAtSeparator(b, rest, ' ');
    SplitAtSeparator(a, b + " " + rest, ' ');
    assert a + " " + b + " " + c + " " + d + " " + e == a + " " + (b + " " + rest);
  }

  lemma ThreeFields(c: string, d: string, e: string)
    requires ' ' !in c && ' ' !in d && ' ' !in e
    ensures Split(c + " " + d + " " + e, ' ') == [c, d, e]
  {
    SplitOfPlain(e, ' ');
    SplitAtSeparator(d, e, ' ');
    SplitAtSeparator(c, d + " " + e, ' ');
    assert c + " " + d + " " + e == c + " " + (d + " " + e);
  }

  /** The five fields each translated schedule consists of. */
  function Fields(checksum: nat, original: string): (f: seq<string>)
    requires Translated(original)
    ensures |f| == 5
  {
    var minute, hour, day := Itoa(checksum % 60), Itoa(checksum % 24), Itoa(1 + checksum % 27);
    if original == "@hourly-random" then [minute, "*", "*", "*", "*"]
    else if original == "@daily-random" then [minute, hour, "*", "*", "*"]
    else if original == "@weekly-random" then [minute, hour, "*", "*", Itoa(checksum % 6)]
    else if original == "@monthly-random" then [minute, hour, day, "*", "*"]
    else [minute, hour, day, Itoa(1 + checksum % 12), "*"]
  }

  function Spaced(f: seq<string>): string
    requires |f| == 5
  {
    f[0] + " " + f[1] + " " + f[2] + " " + f[3] + " " + f[4]
  }

  /** The format strings of randomizeSchedule put single spaces between the fields. */
  lemma FormatsAreSpaced(m: string, h: string, d: string)
    ensures m + " * * * *" == Spaced([m, "*", "*", "*", "*"])
    ensures m + " " + h + " * * *" == Spaced([m, h, "*", "*", "*"])
    ensures m + " " + h + " * * " + d == Spaced([m, h, "*", "*", d])
    ensures m + " " + h + " " + d + " * *" == Spaced([m, h, d, "*", "*"])
  {
    var s1, s2, s3 := " * * * *", " * * *", " * * ";
    assert s1 == " " + "*" + " " + "*" + " " + "*" + " " + "*";
    assert s2 == " " + "*" + " " + "*" + " " + "*";
    assert s3 == " " + "*" + " " + "*" + " ";
    assert " * *" == " " + "*" + " " + "*";
  }

  lemma YearlyIsSpaced(m: string, h: string, d: string, month: string)
    ensures m + " " + h + " " + d + " " + month + " *" == Spaced([m, h, d, month, "*"])
  {
    assert " *" == " " + "*";
  }

  lemma FieldsOfSchedule(checksum: nat, original: string)
    requires Translated(original)
    ensures Split(RandomizeSchedule(checksum, original).schedule, ' ') == Fields(checksum, original)
  {
    var f := Fields(checksum, original);
    FieldsHaveNoSpace(checksum, original);
    FiveFields(f[0], f[1], f[2], f[3], f[4]);
    ScheduleIsSpaced(checksum, original);
  }

  lemma FieldsHaveNoSpace(checksum: nat, original: string)
    requires Translated(original)
    ensures forall k :: 0 <= k < 5 ==> ' ' !in Fields(checksum, original)[k]
  {
    ItoaHasNoSpace(checksum % 60);
    ItoaHasNoSpace(checksum % 24);
    ItoaHasNoSpace(checksum % 6);
    ItoaHasNoSpace(1 + checksum % 27);
    ItoaHasNoSpace(1 + checksum % 12);
  }

  lemma ScheduleIsSpaced(checksum: nat, original: string)
    requires Translated(original)
    ensures RandomizeSchedule(checksum, original).schedule == Spaced(Fields(checksum, original))
  {
    var m, h, d := Itoa(checksum % 60), Itoa(checksum % 24), Itoa(1 + checksum % 27);
    if original == YearlyRandom {
      YearlyIsSpaced(m, h, d, Itoa(1 + checksum % 12));
    } else {
      FormatsAreSpaced(m, h, if original == WeeklyRandom then Itoa(checksum % 6) else d);
    }
  }

  /**
    For every seed, the hourly, daily, weekly, monthly and yearly random schedules become five
    crontab fields in range, the day of the month is one that every month has, and the text is not
    random any more.
   */
  lemma RandomScheduleIsCrontab(checksum: nat, original: string)
    requires Translated(original)
    ensures RandomizeSchedule(checksum, original).ok
    ensures CrontabEntry(RandomizeSchedule(checksum, original).schedule)
    ensures !IsRandom(RandomizeSchedule(checksum, original).schedule)
  {
    FieldsOfSchedule(checksum, original);
    var f := Fields(checksum, original);
    assert Field(Itoa(checksum % 60), 0, 59) && Field(Itoa(checksum % 24), 0, 23) && Field(Itoa(1 + checksum % 27), 1, 27);
    assert Field(Itoa(1 + checksum % 12), 1, 12) && Field(Itoa(checksum % 6), 0, 6);
    var minute := Itoa(checksum % 60);
    var text := RandomizeSchedule(checksum, original).schedule;
    assert text[0] == minute[0] && minute[0] in minute;
  }

  /** Every other definition comes back unchanged; among the random ones only `@annually-random` as a success. */
  lemma OtherSchedulesUnchanged(checksum: nat, original: string)
    requires !Translated(original)
    ensures RandomizeSchedule(checksum, original) == Randomized(original, original == "@annually-random")
  {
  }
}
