/**
 * The "<count> <unit> ago" text shared by the two relative-age helpers
 * (src/resolvers/common.js and src/helpers/post.js): the count's decimal
 * text followed by a singular or plural suffix. ParseLabel reads such a
 * text back; the round trip shows that a label determines its count and
 * unit and is never the text "just now".
 */
module TimeLabel {
  import opened Wrappers

  datatype Unit = Minute | Hour | Day | Month | Year

  const JustNow: string := "just now"

  function Singular(u: Unit): string {
    match u
    case Minute => " minute ago"
    case Hour => " hour ago"
    case Day => " day ago"
    case Month => " month ago"
    case Year => " year ago"
  }

  function Plural(u: Unit): string {
    match u
    case Minute => " minutes ago"
    case Hour => " hours ago"
    case Day => " days ago"
    case Month => " months ago"
    case Year => " years ago"
  }

  /** `time > 1 ? " <units> ago" : " <unit> ago"` */
  function Suffix(n: int, u: Unit): (r: string)
    ensures r == Plural(u) <==> n > 1
    ensures r == Singular(u) <==> n <= 1
  {
    if n > 1 then Plural(u) else Singular(u)
  }

  predicate IsDigit(c: char) {
    '0' <= c <= '9'
  }

  function DigitChar(d: nat): (c: char)
    requires d < 10
    ensures IsDigit(c) && DigitValue(c) == d
  {
    ('0' as int + d) as char
  }

  function DigitValue(c: char): nat
    requires IsDigit(c)
  {
    c as int - '0' as int
  }

  /** Decimal text of a non-negative integer, without leading zeros. */
  function NatText(n: nat): (s: string)
    ensures |s| > 0
    ensures forall k :: 0 <= k < |s| ==> IsDigit(s[k])
  {
    if n < 10 then [DigitChar(n)] else NatText(n / 10) + [DigitChar(n % 10)]
  }

  /** Decimal text of an integer, as JavaScript's number-to-string gives it. */
  function IntText(n: int): string {
    if n < 0 then "-" + NatText(-n) else NatText(n)
  }

  /** `time + ago`: the count's decimal text followed by its suffix. */
  function Label(n: int, u: Unit): string {
    IntText(n) + Suffix(n, u)
  }

  // ---------------------------------------------------------------------
  // Reading a label back.

  function ParseNat(s: string): Option<nat> {
    if s == [] || !IsDigit(s[|s| - 1]) then None
    else if |s| == 1 then Some(DigitValue(s[0]))
    else match ParseNat(s[..|s| - 1])
      case None => None
      case Some(p) => Some(10 * p + DigitValue(s[|s| - 1]))
  }

  function ParseInt(s: string): Option<int> {
    if |s| > 0 && s[0] == '-' then
      match ParseNat(s[1..])
      case None => None
      case Some(p) => Some(-(p as int))
    else
      match ParseNat(s)
      case None => None
      case Some(p) => Some(p)
  }

  /** Index of the first blank in s, or |s| when there is none. */
  function FirstBlank(s: string): (k: nat)
    ensures k <= |s|
    ensures forall j :: 0 <= j < k ==> s[j] != ' '
    ensures k < |s| ==> s[k] == ' '
  {
    if s == [] then 0 else if s[0] == ' ' then 0 else 1 + FirstBlank(s[1..])
  }

  function ParseSuffix(s: string): Option<(bool, Unit)> {
    if s == Singular(Minute) then Some((false, Minute))
    else if s == Plural(Minute) then Some((true, Minute))
    else if s == Singular(Hour) then Some((false, Hour))
    else if s == Plural(Hour) then Some((true, Hour))
    else if s == Singular(Day) then Some((false, Day))
    else if s == Plural(Day) then Some((true, Day))
    else if s == Singular(Month) then Some((false, Month))
    else if s == Plural(Month) then Some((true, Month))
    else if s == Singular(Year) then Some((false, Year))
    else if s == Plural(Year) then Some((true, Year))
    else None
  }

  /** The count and unit a label shows, if s is a well-formed label. */
  function ParseLabel(s: string): Option<(int, Unit)> {
    var k := FirstBlank(s);
    match (ParseInt(s[..k]), ParseSuffix(s[k..]))
    case (Some(n), Some((plural, u))) =>
      if plural == (n > 1) then Some((n, u)) else None
    case _ => None
  }

  // ---------------------------------------------------------------------
  // Round trip.

  lemma {:induction false} ParseNatText(n: nat)
    ensures ParseNat(NatText(n)) == Some(n)
  {
    if n >= 10 {
      var s := NatText(n);
      ParseNatText(n / 10);
      assert s[..|s| - 1] == NatText(n / 10);
    }
  }

  lemma ParseIntText(n: int)
    ensures ParseInt(IntText(n)) == Some(n)
  {
    if n < 0 {
      assert IntText(n)[1..] == NatText(-n);
      ParseNatText(-n);
    } else {
      ParseNatText(n);
    }
  }

  lemma SuffixRoundTrip(n: int, u: Unit)
    ensures ParseSuffix(Suffix(n, u)) == Some((n > 1, u))
  {
  }

  /** A label reads back as the count and unit it was made from. */
  lemma LabelRoundTrip(n: int, u: Unit)
    ensures ParseLabel(Label(n, u)) == Some((n, u))
  {
    var t, x := IntText(n), Suffix(n, u);
    var s := t + x;
    assert forall j :: 0 <= j < |t| ==> s[j] == t[j] && t[j] != ' ';
    assert s[|t|] == ' ';
    assert FirstBlank(s) == |t|;
    assert s[..|t|] == t && s[|t|..] == x;
    ParseIntText(n);
    SuffixRoundTrip(n, u);
  }

  /** Different counts or units never give the same label. */
  lemma LabelInjective(n1: int, u1: Unit, n2: int, u2: Unit)
    ensures Label(n1, u1) == Label(n2, u2) <==> n1 == n2 && u1 == u2
  {
    LabelRoundTrip(n1, u1);
    LabelRoundTrip(n2, u2);
  }

  /** No label is the text "just now". */
  lemma LabelIsNotJustNow(n: int, u: Unit)
    ensures Label(n, u) != JustNow
  {
  }
}
