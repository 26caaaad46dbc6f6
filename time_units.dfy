/**
 * Lengths of time in milliseconds, as src/helpers/post.js spells them out
 * (a month is 30 days, a year 365 days); the `hot` feed criterion of
 * src/apollo.js truncates to whole days of the same length.
 */
module TimeUnits {
  const MsPerMinute: int := 60 * 1000
  const MsPerHour: int := MsPerMinute * 60
  const MsPerDay: int := MsPerHour * 24
  const MsPerMonth: int := MsPerDay * 30
  const MsPerYear: int := MsPerDay * 365
}
