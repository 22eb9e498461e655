/** Time units in milliseconds, as both the server and the page write them
    (`60 * 60 * 1000`, `1000 * 60 * 60 * 24`). */
module Units {
  const SecondMs := 1000
  const MinuteMs := 60000      // 1000 * 60
  const HourMs := 3600000      // 1000 * 60 * 60
  const DayMs := 86400000      // 1000 * 60 * 60 * 24
}
