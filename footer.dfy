/**
  The footer's open/closed badge (`checkStatus` in frontend/src/components/Footer.tsx),
  checked against the opening hours the footer posts: Monday to Saturday 9:00 AM
  to 8:00 PM, Sunday 10:00 AM to 7:00 PM. Days are numbered as `Date.getDay`
  numbers them, 0 for Sunday; the hour and minute are local time.
*/
module Footer {

  /** Whether a day number is Sunday. */
  predicate IsSunday(day: int)
  {
    day == 0
  }

  /** Opening and closing time of a day as posted, in minutes after midnight. */
  function PostedHours(day: int): (hours: (int, int))
    requires 0 <= day <= 6
    ensures 9 * 60 <= hours.0 < hours.1 <= 20 * 60
    ensures IsSunday(day) <==> hours.0 == 10 * 60
  {
    if IsSunday(day) then (10 * 60, 19 * 60) else (9 * 60, 20 * 60)
  }

  /** The posted hours cover this minute of the day. */
  predicate WithinPostedHours(day: int, minuteOfDay: int)
    requires 0 <= day <= 6
  {
    PostedHours(day).0 <= minuteOfDay < PostedHours(day).1
  }

  /** `checkStatus`: Sunday open from hour 10 to before 19, other days from 9 to before 20. */
  function IsOpen(day: int, hour: int): (open: bool)
    requires 0 <= day <= 6 && 0 <= hour < 24
    ensures open <==> WithinPostedHours(day, hour * 60)
  {
    if day == 0 then 10 <= hour < 19 else 9 <= hour < 20
  }

  /**
    Minutes play no part, and at every minute of the day the badge agrees with
    the posted hours, since they all start and end on the hour.
  */
  lemma OpenAgreesWithPostedHours(day: int, minuteOfDay: int)
    requires 0 <= day <= 6 && 0 <= minuteOfDay < 24 * 60
    ensures IsOpen(day, minuteOfDay / 60) <==> WithinPostedHours(day, minuteOfDay)
  {
    var h := minuteOfDay / 60;
    assert h * 60 <= minuteOfDay < h * 60 + 60;
  }

  /** Hours 9 and 19 are open Monday to Saturday and closed on Sunday. */
  lemma SundayOpensLaterAndClosesEarlier(day: int)
    requires 1 <= day <= 6
    ensures IsOpen(day, 9) && IsOpen(day, 19)
    ensures !IsOpen(0, 9) && !IsOpen(0, 19)
  {
  }

  /** `isOpen` before the first check. */
  const InitialIsOpen: bool := false

  /** The badge text. */
  function Badge(isOpen: bool): (text: string)
    ensures text == "Open Now" <==> isOpen
    ensures text == "Closed" <==> !isOpen
  {
    if isOpen then "Open Now" else "Closed"
  }

  /** Before the first check the badge reads "Closed", whatever the hour. */
  lemma InitialBadge()
    ensures Badge(InitialIsOpen) == "Closed"
  {
  }
}
