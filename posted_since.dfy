/**
 * setPostedSince (src/helpers/post.js): writes a relative-age text into the
 * `postedSince` field of a post. The elapsed time since posting, in integer
 * milliseconds, falls into one band -- under a minute, minutes, hours, days,
 * 30-day months or 365-day years -- and the band's count is the elapsed time
 * divided by the band's unit, rounded half up.
 */
module PostedSince {
  import opened Wrappers
  import opened TimeLabel
  import opened TimeUnits

  /** Length of one unit in milliseconds; it is also where that unit's band starts. */
  function UnitMs(u: Unit): (ms: int)
    ensures ms >= MsPerMinute
  {
    match u
    case Minute => MsPerMinute
    case Hour => MsPerHour
    case Day => MsPerDay
    case Month => MsPerMonth
    case Year => MsPerYear
  }

  /** The next larger unit, whose band starts where u's band ends. */
  function Next(u: Unit): (v: Unit)
    requires u != Year
    ensures UnitMs(u) < UnitMs(v)
  {
    match u
    case Minute => Hour
    case Hour => Day
    case Day => Month
    case Month => Year
  }

  /** An elapsed time lies in u's band: at least one u, and less than one of the next unit. */
  predicate InBand(elapsed: int, u: Unit) {
    UnitMs(u) <= elapsed && (u != Year ==> elapsed < UnitMs(Next(u)))
  }

  /** The band of an elapsed time of at least one minute. */
  function BandOf(elapsed: int): (u: Unit)
    requires elapsed >= MsPerMinute
    ensures InBand(elapsed, u)
  {
    if elapsed < MsPerHour then Minute
    else if elapsed < MsPerDay then Hour
    else if elapsed < MsPerMonth then Day
    else if elapsed < MsPerYear then Month
    else Year
  }

  /** The bands do not overlap: an elapsed time lies in exactly one. */
  lemma BandUnique(elapsed: int, u: Unit)
    requires elapsed >= MsPerMinute
    ensures InBand(elapsed, u) <==> BandOf(elapsed) == u
  {
  }

  /**
   * Math.round(n / d) for n >= 0 and d > 0, on integers: the nearest integer
   * to n / d, halves rounded up.
   */
  function RoundHalfUp(n: int, d: int): (r: int)
    requires n >= 0 && d > 0
    ensures 2 * d * r - d <= 2 * n < 2 * d * r + d
  {
    var q := (2 * n + d) / (2 * d);
    assert (2 * d) * q <= 2 * n + d < (2 * d) * (q + 1);
    q
  }

  /** `Date.now() - postedOn`; None stands for NaN, from an invalid posting date. */
  function Elapsed(now: int, postedOn: Option<int>): Option<int> {
    match postedOn
    case None => None
    case Some(t) => Some(now - t)
  }

  /** The count shown for an elapsed time of at least one minute. */
  function ShownCount(elapsed: int): int
    requires elapsed >= MsPerMinute
  {
    RoundHalfUp(elapsed, UnitMs(BandOf(elapsed)))
  }

  /**
   * The text setPostedSince writes. A NaN elapsed time fails every band
   * test, lands in the years branch and shows as "NaN year ago".
   */
  function PostedSinceText(elapsed: Option<int>): string {
    match elapsed
    case None => "NaN" + Singular(Year)
    case Some(e) =>
      if e < MsPerMinute then JustNow
      else Label(ShownCount(e), BandOf(e))
  }

  /** The largest count each band below years can show. */
  function MaxCount(u: Unit): int
    requires u != Year
  {
    match u
    case Minute => 60
    case Hour => 24
    case Day => 30
    case Month => 12
  }

  /** "just now" exactly for an elapsed time under one minute, negative ones included. */
  lemma PostedSinceJustNow(e: int)
    ensures PostedSinceText(Some(e)) == JustNow <==> e < MsPerMinute
  {
  }

  /**
   * The count is between 1 and the band's maximum (60 minutes, 24 hours,
   * 30 days, 12 months), and at least 1 year in the years band.
   */
  lemma ShownCountBounds(e: int)
    requires e >= MsPerMinute
    ensures 1 <= ShownCount(e)
    ensures BandOf(e) != Year ==> ShownCount(e) <= MaxCount(BandOf(e))
  {
  }

  /** Each band's maximum is reached one millisecond before the next band starts. */
  lemma MaxCountReached(u: Unit)
    requires u != Year
    ensures var e := UnitMs(Next(u)) - 1; e >= MsPerMinute && BandOf(e) == u && ShownCount(e) == MaxCount(u)
  {
  }

  /**
   * The text reads back as the band's unit and the rounded count; with
   * Suffix's contract this makes the suffix plural exactly when the count
   * exceeds one.
   */
  lemma PostedSinceShows(e: int)
    requires e >= MsPerMinute
    ensures ParseLabel(PostedSinceText(Some(e))) == Some((ShownCount(e), BandOf(e)))
    ensures PostedSinceText(Some(e)) == IntText(ShownCount(e)) + Suffix(ShownCount(e), BandOf(e))
  {
    LabelRoundTrip(ShownCount(e), BandOf(e));
  }

  /** A post as stored; setPostedSince adds the derived `postedSince` text. */
  class Post {
    var message: string
    /** Time value of `new Date(post.postedOn)`; None when that date is invalid. */
    var postedOn: Option<int>
    var postedBy: string
    var postedSince: Option<string>

    constructor (message: string, postedOn: Option<int>, postedBy: string)
      ensures this.message == message && this.postedOn == postedOn
      ensures this.postedBy == postedBy && postedSince == None
    {
      this.message := message;
      this.postedOn := postedOn;
      this.postedBy := postedBy;
      postedSince := None;
    }

    /** setPostedSince, with `Date.now()` passed in as `now`. Only `postedSince` is written. */
    method SetPostedSince(now: int)
      modifies this`postedSince
      ensures postedSince == Some(PostedSinceText(Elapsed(now, postedOn)))
    {
      var elapsed := Elapsed(now, postedOn);
      var time: Option<int>;  // None is NaN
      var ago: string;

      if elapsed.Some? && elapsed.value < MsPerMinute {
        postedSince := Some(JustNow);
        return;
      } else if elapsed.Some? && elapsed.value < MsPerHour {
        time := Some(RoundHalfUp(elapsed.value, MsPerMinute));
        ago := if time.value > 1 then " minutes ago" else " minute ago";
      } else if elapsed.Some? && elapsed.value < MsPerDay {
        time := Some(RoundHalfUp(elapsed.value, MsPerHour));
        ago := if time.value > 1 then " hours ago" else " hour ago";
      } else if elapsed.Some? && elapsed.value < MsPerMonth {
        time := Some(RoundHalfUp(elapsed.value, MsPerDay));
        ago := if time.value > 1 then " days ago" else " day ago";
      } else if elapsed.Some? && elapsed.value < MsPerYear {
        time := Some(RoundHalfUp(elapsed.value, MsPerMonth));
        ago := if time.value > 1 then " months ago" else " month ago";
      } else {
        time := if elapsed.Some? then Some(RoundHalfUp(elapsed.value, MsPerYear)) else None;
        ago := if time.Some? && time.value > 1 then " years ago" else " year ago";
      }

      var timeText := match time
        case None => "NaN"
        case Some(n) => IntText(n);
      postedSince := Some(timeText + ago);
    }
  }
}
