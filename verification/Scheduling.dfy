/** Visit times and service hours, at one fixed offset from UTC per property. */
module Scheduling {
  import opened Domain

  datatype Window = Always | Between(start: int, end: int)

  datatype SchedulingError = InPast | TooSoon | OutsideHours

  datatype Admission = Admitted(at: Option<Time>) | Rejected(error: SchedulingError)

  function TimeOfDay(local: int): int { local % DAY }

  function ServiceWindow(hours: ServiceHours): Window {
    if hours.enabled then Between(hours.start, hours.end) else Always
  }

  /** The closing time is inclusive, and a window may run past midnight. */
  predicate Within(local: int, window: Window) {
    match window
    case Always => true
    case Between(start, end) =>
      var t := TimeOfDay(local);
      if start < end then start <= t <= end else t >= start || t <= end
  }

  predicate OpenAt(t: Time, offset: int, window: Window) { Within(t + offset, window) }

  /** Validates a scheduled visit, or, without one, an immediate request. */
  function Admit(when: Option<Time>, offset: int, window: Window, leadMinutes: nat, now: Time): Admission {
    match when
    case None => if OpenAt(now, offset, window) then Admitted(None) else Rejected(OutsideHours)
    case Some(t) =>
      if t <= now then Rejected(InPast)
      else if leadMinutes > 0 && t < now + leadMinutes * MINUTE then Rejected(TooSoon)
      else if !OpenAt(t, offset, window) then Rejected(OutsideHours)
      else Admitted(Some(t))
  }

  /** The opening time with seconds and fractions dropped, as the clock display of an hour and a minute keeps it. */
  function WholeMinute(start: int): int { start - start % MINUTE }

  /** The first moment strictly after local whose clock shows the given time of day. */
  function NextOccurrence(local: int, clock: int): int {
    var today := local - TimeOfDay(local) + clock;
    if today <= local then today + DAY else today
  }

  /** The next opening announced to the customer; nothing while open. */
  function NextOpenAt(now: Time, offset: int, window: Window): Option<Time> {
    if OpenAt(now, offset, window) then None
    else Some(NextOccurrence(now + offset, WholeMinute(window.start)) - offset)
  }

  ghost predicate IsLeastOpening(next: Time, now: Time, offset: int, window: Window) {
    && now < next
    && OpenAt(next, offset, window)
    && forall t :: now < t < next ==> !OpenAt(t, offset, window)
  }

  predicate WellFormed(window: Window) {
    window.Between? ==> 0 <= window.start < DAY && 0 <= window.end < DAY
  }

  /** Nothing is announced exactly when an immediate request is admitted at this moment. */
  lemma AnnouncedExactlyWhenClosed(now: Time, offset: int, window: Window, lead: nat)
    ensures NextOpenAt(now, offset, window).None? <==> Admit(None, offset, window, lead, now).Admitted?
  {
  }

  ghost predicate EverCloses(window: Window) { exists local: int :: !Within(local, window) }

  /**
   * Equal opening and closing times, which the settings form rejects, would leave the doors open for ever; so would
   * a window that reaches from midnight to midnight or closes only for the instant before it opens.
   */
  lemma WindowClosesIff(window: Window)
    requires window.Between? && WellFormed(window)
    ensures EverCloses(window) <==>
            if window.start < window.end then window.start > 0 || window.end < DAY - 1 else window.end + 1 < window.start
    ensures window.start == window.end ==> !EverCloses(window)
  {
    if window.start < window.end && window.start > 0 {
      assert !Within(window.start - 1, window);
    } else if window.end < DAY - 1 && (window.start < window.end || window.end + 1 < window.start) {
      assert !Within(window.end + 1, window);
    }
  }

  /** Inside one local day, and a whole day later, the time of day is the distance from midnight. */
  lemma TimeOfDayFrom(local: int, later: int)
    requires local <= later < local + DAY
    ensures TimeOfDay(later) == (if TimeOfDay(local) + (later - local) < DAY then TimeOfDay(local) + (later - local)
                                 else TimeOfDay(local) + (later - local) - DAY)
  {
  }

  /** While closed, the first open instant strictly later is the next occurrence of the opening time. */
  lemma LeastOpeningIsNextStart(now: Time, offset: int, window: Window, next: Time)
    requires window.Between? && WellFormed(window) && !OpenAt(now, offset, window)
    requires now < next <= now + DAY && TimeOfDay(next + offset) == window.start
    ensures IsLeastOpening(next, now, offset, window)
  {
    var local := now + offset;
    TimeOfDayFrom(local, if next == now + DAY then local else next + offset);
    forall t | now < t < next ensures !OpenAt(t, offset, window) {
      TimeOfDayFrom(local, t + offset);
    }
  }

  /** A customer turned away now may book the announced instant, unless the minimum lead time forbids it. */
  lemma AnnouncedIsBookable(now: Time, offset: int, window: Window, lead: nat)
    requires window.Between? && WellFormed(window) && !OpenAt(now, offset, window) && window.start % MINUTE == 0
    ensures NextOpenAt(now, offset, window).Some?
    ensures var t := NextOpenAt(now, offset, window).value;
            Admit(Some(t), offset, window, lead, now) == Admitted(Some(t)) <==> now + lead * MINUTE <= t
  {
    NextOpenIsLeastIffWholeMinute(now, offset, window);
  }

  lemma NextOccurrenceShowsTheClock(local: int, clock: int)
    requires 0 <= clock < DAY
    ensures local < NextOccurrence(local, clock) <= local + DAY
    ensures TimeOfDay(NextOccurrence(local, clock)) == clock
  {
    var t := TimeOfDay(local);
    var d := local / DAY;
    assert local == d * DAY + t;
    assert (d * DAY + clock) % DAY == clock && ((d + 1) * DAY + clock) % DAY == clock;
  }

  /** The announced instant is the least open one after now exactly when the opening time is a whole minute. */
  lemma NextOpenIsLeastIffWholeMinute(now: Time, offset: int, window: Window)
    requires window.Between? && WellFormed(window) && !OpenAt(now, offset, window)
    ensures NextOpenAt(now, offset, window).Some?
    ensures IsLeastOpening(NextOpenAt(now, offset, window).value, now, offset, window) <==> window.start % MINUTE == 0
  {
    var announced := NextOccurrence(now + offset, WholeMinute(window.start)) - offset;
    var exact := NextOccurrence(now + offset, window.start) - offset;
    NextOccurrenceShowsTheClock(now + offset, WholeMinute(window.start));
    NextOccurrenceShowsTheClock(now + offset, window.start);
    LeastOpeningIsNextStart(now, offset, window, exact);
    assert IsLeastOpening(announced, now, offset, window) <==> announced == exact;
  }
}
