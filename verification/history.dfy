/**
 * The age label of a saved simulation in the history list
 * (src/components/parallel/History.tsx:13-27). The clock and the date
 * parser are outside the model: the label is computed from the elapsed
 * milliseconds (`None` when the stored timestamp does not parse) and, for old
 * or unreadable dates, the locale's short date text, which is a parameter.
 */
module History {
  import opened Wrappers
  import opened Text

  const MS_PER_MINUTE := 60000
  const MS_PER_HOUR := 3600000
  const MS_PER_DAY := 86400000

  /** The bucket an elapsed time falls in. */
  datatype Age = JustNow | MinutesAgo(minutes: nat) | HoursAgo(hours: nat) | DaysAgo(days: nat) | OnDate

  /** The bucket chosen by the chain of comparisons. `Math.floor` of a quotient
      by a positive divisor is Dafny's `/`. A future timestamp reads as "Just
      now"; a timestamp that does not parse makes every comparison false. */
  function Classify(diffMs: Option<int>): (age: Age)
    ensures diffMs.None? ==> age == OnDate
    ensures diffMs.Some? ==> var d := diffMs.value;
      && (age == JustNow <==> d < MS_PER_MINUTE)
      && (age.MinutesAgo? ==> 1 <= age.minutes < 60
                              && age.minutes * MS_PER_MINUTE <= d < (age.minutes + 1) * MS_PER_MINUTE)
      && (age.HoursAgo? ==> 1 <= age.hours < 24
                            && age.hours * MS_PER_HOUR <= d < (age.hours + 1) * MS_PER_HOUR)
      && (age.DaysAgo? ==> 1 <= age.days < 7
                           && age.days * MS_PER_DAY <= d < (age.days + 1) * MS_PER_DAY)
      && (age == OnDate <==> d >= 7 * MS_PER_DAY)
  {
    if diffMs.None? then OnDate
    else
      var diffMins := diffMs.value / MS_PER_MINUTE;
      var diffHours := diffMs.value / MS_PER_HOUR;
      var diffDays := diffMs.value / MS_PER_DAY;
      if diffMins < 1 then JustNow
      else if diffMins < 60 then MinutesAgo(diffMins)
      else if diffHours < 24 then HoursAgo(diffHours)
      else if diffDays < 7 then DaysAgo(diffDays)
      else OnDate
  }

  /** An older timestamp never gets a younger bucket. */
  lemma ClassifyMonotone(d: int, d': int)
    requires d <= d'
    ensures Rank(Classify(Some(d))) <= Rank(Classify(Some(d')))
  {
  }

  /** The order of the buckets, youngest first. */
  function Rank(age: Age): nat
  {
    match age
    case JustNow => 0
    case MinutesAgo(_) => 1
    case HoursAgo(_) => 2
    case DaysAgo(_) => 3
    case OnDate => 4
  }

  const JUST_NOW := "Just now"
  const MINUTES_SUFFIX := "m ago"
  const HOURS_SUFFIX := "h ago"
  const DAYS_SUFFIX := "d ago"

  /** The text shown for a bucket. */
  function Render(age: Age, dateLabel: string): (r: string)
  {
    match age
    case JustNow => JUST_NOW
    case MinutesAgo(m) => NatToString(m) + MINUTES_SUFFIX
    case HoursAgo(h) => NatToString(h) + HOURS_SUFFIX
    case DaysAgo(d) => NatToString(d) + DAYS_SUFFIX
    case OnDate => dateLabel
  }

  /** `formatDate(dateString)`: an unparsable date and one a week old or more
      show the locale's date; anything younger than a minute, or in the future,
      shows "Just now". */
  function FormatDate(diffMs: Option<int>, dateLabel: string): (r: string)
    ensures diffMs.None? || diffMs.value >= 7 * MS_PER_DAY ==> r == dateLabel
    ensures diffMs.Some? && diffMs.value < MS_PER_MINUTE ==> r == JUST_NOW
  {
    Render(Classify(diffMs), dateLabel)
  }

  /** Within the first week the label can be read back: it determines the
      bucket and the count shown. */
  lemma RenderDeterminesAge(a: Age, b: Age, dateLabel: string)
    requires !a.OnDate? && !b.OnDate?
    requires Render(a, dateLabel) == Render(b, dateLabel)
    ensures a == b
  {
    var r := Render(a, dateLabel);
    if a.JustNow? || b.JustNow? {
      if !a.JustNow? {
        NumberedFirstIsDigit(a);
      } else if !b.JustNow? {
        NumberedFirstIsDigit(b);
      }
    } else {
      var (na, sa) := Parts(a);
      var (nb, sb) := Parts(b);
      assert r == NatToString(na) + sa && r == NatToString(nb) + sb;
      assert |sa| == 5 && |sb| == 5;
      assert r[|r| - 5] == sa[0] == sb[0];
      assert r[..|r| - 5] == NatToString(na) == NatToString(nb);
      assert na == nb;
    }
  }

  /** The count and the suffix of a numbered label. */
  function Parts(a: Age): (p: (nat, string))
    requires !a.OnDate? && !a.JustNow?
    ensures |p.1| == 5 && forall l :: Render(a, l) == NatToString(p.0) + p.1
  {
    match a
    case MinutesAgo(m) => (m, MINUTES_SUFFIX)
    case HoursAgo(h) => (h, HOURS_SUFFIX)
    case DaysAgo(d) => (d, DAYS_SUFFIX)
  }

  lemma NumberedFirstIsDigit(a: Age)
    requires !a.OnDate? && !a.JustNow?
    ensures forall l :: |Render(a, l)| > 0 && IsDigit(Render(a, l)[0])
  {
    var (n, s) := Parts(a);
    var digits := NatToString(n);
    assert IsDigit(digits[0]);
    forall l ensures |Render(a, l)| > 0 && IsDigit(Render(a, l)[0]) {
      assert Render(a, l) == digits + s;
    }
  }
}
