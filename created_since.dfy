/**
 * setCreatedSince (src/resolvers/common.js): the `created_since` field of a
 * post or comment, computed from the interval the database returns for
 * `age(now(), created_at)`. The most significant nonzero of years, days,
 * hours and minutes is shown; months, seconds and milliseconds are never
 * read.
 */
module CreatedSince {
  import opened Wrappers
  import opened TimeLabel

  /**
   * A database interval. A field the interval object leaves out is 0 here:
   * JavaScript treats an absent field and 0 alike (both falsy, neither > 1).
   */
  datatype Interval = Interval(
    years: int, months: int, days: int,
    hours: int, minutes: int, seconds: int, milliseconds: int)

  /** The units the label may show, most significant first. */
  predicate Shown(u: Unit) {
    u != Month
  }

  /** Precedence of the shown units: years > days > hours > minutes. */
  function Rank(u: Unit): nat {
    match u
    case Minute => 0
    case Hour => 1
    case Day => 2
    case Month => 3
    case Year => 4
  }

  /** The interval's field for a shown unit. */
  function Count(a: Interval, u: Unit): int
    requires Shown(u)
  {
    match u
    case Minute => a.minutes
    case Hour => a.hours
    case Day => a.days
    case Year => a.years
  }

  /** u is the unit the label must use: nonzero, and every more significant shown unit is zero. */
  predicate Leads(a: Interval, u: Unit) {
    Shown(u) && Count(a, u) != 0 &&
    forall v :: Shown(v) && Rank(v) > Rank(u) ==> Count(a, v) == 0
  }

  /** setCreatedSince: null without an age, else the leading unit's label or "just now". */
  function CreatedSinceText(age: Option<Interval>): (r: Option<string>)
    ensures r.None? <==> age.None?
  {
    match age
    case None => None
    case Some(a) =>
      if a.years != 0 then Some(Label(a.years, Year))
      else if a.days != 0 then Some(Label(a.days, Day))
      else if a.hours != 0 then Some(Label(a.hours, Hour))
      else if a.minutes != 0 then Some(Label(a.minutes, Minute))
      else Some(JustNow)
  }

  /** Every interval has a leading unit unless its four shown fields are all zero. */
  lemma LeadingUnit(a: Interval) returns (u: Unit)
    requires a.years != 0 || a.days != 0 || a.hours != 0 || a.minutes != 0
    ensures Leads(a, u)
    ensures CreatedSinceText(Some(a)) == Some(Label(Count(a, u), u))
  {
    u := if a.years != 0 then Year else if a.days != 0 then Day
         else if a.hours != 0 then Hour else Minute;
  }

  /**
   * The label shows count n of unit u exactly when u leads the interval and
   * n is its field: years win over everything, then days, hours, minutes.
   */
  lemma CreatedSinceShows(a: Interval, n: int, u: Unit)
    ensures CreatedSinceText(Some(a)) == Some(Label(n, u)) <==> Leads(a, u) && n == Count(a, u)
  {
    if a.years != 0 || a.days != 0 || a.hours != 0 || a.minutes != 0 {
      var w := LeadingUnit(a);
      LabelInjective(n, u, Count(a, w), w);
      if Leads(a, u) {
        // two leading units cannot differ in rank, so they are the same
        assert Rank(u) == Rank(w);
      }
    } else {
      LabelIsNotJustNow(n, u);
    }
  }

  /** "just now" exactly when years, days, hours and minutes are all zero. */
  lemma CreatedSinceJustNow(a: Interval)
    ensures CreatedSinceText(Some(a)) == Some(JustNow) <==>
            a.years == 0 && a.days == 0 && a.hours == 0 && a.minutes == 0
  {
  }

  /** Months, seconds and milliseconds never influence the label. */
  lemma CreatedSinceIgnoresOtherFields(a: Interval, b: Interval)
    requires a.years == b.years && a.days == b.days
    requires a.hours == b.hours && a.minutes == b.minutes
    ensures CreatedSinceText(Some(a)) == CreatedSinceText(Some(b))
  {
  }
}
