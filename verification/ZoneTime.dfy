/**
 * Callback times of kits/debrief/src/timing.ts. A zone is its offset function; instants, offsets and
 * wall-clock times are whole milliseconds, a wall-clock time being written as the instant it would
 * name in UTC. Offsets are whole seconds, so a wall-clock time keeps its instant's milliseconds.
 */
module ZoneTime {
  import opened Base

  type Zone = int -> int

  const MINUTE := 60 * 1000
  const DAY := 24 * 60 * MINUTE

  function Wall(zone: Zone, x: int): int {
    x + zone(x)
  }

  // ---- The offset iteration ----

  /** The candidate after n corrections. */
  function Corrected(zone: Zone, wall: int, n: nat): int {
    if n == 0 then wall else wall - zone(Corrected(zone, wall, n - 1))
  }

  function Solve(zone: Zone, wall: int): int {
    Corrected(zone, wall, 3)
  }

  method ZonedDate(zone: Zone, wall: int) returns (candidate: int)
    ensures candidate == Solve(zone, wall)
  {
    candidate := wall;
    for attempt := 0 to 3
      invariant candidate == Corrected(zone, wall, attempt)
    {
      var actual := Wall(zone, candidate);
      candidate := candidate + (wall - actual);
    }
  }

  /** Around `at`, the offset is `before` until instant `change` and `after` from then on. */
  ghost predicate OneChange(zone: Zone, at: int, reach: int, change: int, before: int, after: int) {
    && -reach <= before <= reach && -reach <= after <= reach
    && forall x | at - reach <= x <= at + reach :: zone(x) == if x < change then before else after
  }

  ghost predicate Bounded(zone: Zone, reach: int) {
    forall x :: -reach <= zone(x) <= reach
  }

  predicate Shows(zone: Zone, x: int, wall: int) {
    Wall(zone, x) == wall
  }

  /**
   * When some instant shows the requested wall-clock time, the result shows it; in a repeated hour
   * it is the earlier one exactly when the time, read as UTC, precedes the change.
   */
  lemma SolveFinds(zone: Zone, wall: int, reach: int, change: int, before: int, after: int, x: int)
    requires Bounded(zone, reach) && OneChange(zone, wall, reach, change, before, after) && Shows(zone, x, wall)
    ensures Shows(zone, Solve(zone, wall), wall)
    ensures Shows(zone, wall - before, wall) && Shows(zone, wall - after, wall) ==>
              Solve(zone, wall) == if wall < change then wall - before else wall - after
  {
    assert x == wall - zone(x);
    assert zone(x) == if x < change then before else after;
    var c1 := wall - zone(wall);
    assert Corrected(zone, wall, 1) == c1;
    var c2 := wall - zone(c1);
    assert Corrected(zone, wall, 2) == c2;
    assert Solve(zone, wall) == wall - zone(c2);
    assert zone(wall - before) == if wall - before < change then before else after;
    assert zone(wall - after) == if wall - after < change then before else after;
  }

  /** When no instant shows it, it was skipped by a forward jump, and the result is off by exactly the jump. */
  lemma SolveInGap(zone: Zone, wall: int, reach: int, change: int, before: int, after: int)
    requires Bounded(zone, reach) && OneChange(zone, wall, reach, change, before, after)
    requires forall x :: !Shows(zone, x, wall)
    ensures before < after && change + before <= wall < change + after
    ensures Wall(zone, Solve(zone, wall)) - wall == if wall < change then after - before else before - after
  {
    assert !Shows(zone, wall - before, wall) && !Shows(zone, wall - after, wall);
    assert zone(wall - before) == if wall - before < change then before else after;
    assert zone(wall - after) == if wall - after < change then before else after;
    var c1 := wall - zone(wall);
    assert Corrected(zone, wall, 1) == c1;
    var c2 := wall - zone(c1);
    assert Corrected(zone, wall, 2) == c2;
    assert Solve(zone, wall) == wall - zone(c2);
  }

  // ---- The next time of day ----

  function Midnight(wall: int): int {
    wall / DAY * DAY
  }

  /** The callback instant for a time of day given in milliseconds since midnight. */
  function NextTimeOfDay(zone: Zone, now: int, timeOfDay: int): int {
    var wanted := Midnight(Wall(zone, now)) + timeOfDay;
    var today := Solve(zone, wanted);
    if today <= now then Solve(zone, wanted + DAY) else today
  }

  datatype Refusal = BadBuffer | BadTime | InPast | TooFar

  datatype Schedule = Refused(why: Refusal) | Accepted(callback: int, scheduledCall: int)

  function TimeOfDay(hour: int, minute: int, second: int): int {
    (hour * 60 + minute) * MINUTE + second * 1000
  }

  predicate ValidTime(hour: nat, minute: nat, second: nat) {
    hour <= 23 && minute <= 59 && second <= 59
  }

  method ResolveTimeOfDay(zone: Zone, now: int, timeOfDay: int) returns (candidate: int)
    ensures candidate == NextTimeOfDay(zone, now, timeOfDay)
  {
    var current := Wall(zone, now);
    candidate := ZonedDate(zone, Midnight(current) + timeOfDay);
    if candidate <= now {
      candidate := ZonedDate(zone, Midnight(current) + timeOfDay + DAY);
    }
  }

  /** `normalizeDebriefSchedule` for an HH:mm[:ss] callback and a buffer in whole minutes. */
  method NormalizeSchedule(zone: Zone, now: int, hour: nat, minute: nat, second: nat, buffer: int) returns (s: Schedule)
    ensures s == Normalized(zone, now, hour, minute, second, buffer)
  {
    if buffer < 0 || buffer > 24 * 60 {
      return Refused(BadBuffer);
    }
    if hour > 23 || minute > 59 || second > 59 {
      return Refused(BadTime);
    }
    var callback := ResolveTimeOfDay(zone, now, TimeOfDay(hour, minute, second));
    var delta := callback - now;
    if delta < 0 {
      return Refused(InPast);
    }
    if delta > 24 * 60 * MINUTE {
      return Refused(TooFar);
    }
    s := Accepted(callback, callback + buffer * MINUTE);
  }

  function Normalized(zone: Zone, now: int, hour: nat, minute: nat, second: nat, buffer: int): Schedule {
    if !(0 <= buffer <= 24 * 60) then Refused(BadBuffer)
    else if !ValidTime(hour, minute, second) then Refused(BadTime)
    else
      var callback := NextTimeOfDay(zone, now, TimeOfDay(hour, minute, second));
      if callback < now then Refused(InPast)
      else if callback > now + DAY then Refused(TooFar)
      else Accepted(callback, callback + buffer * MINUTE)
  }

  // ---- One change in the window: every time of day ----

  /** Around `now` the offset is `before` until instant `change` and `after` from then on; offsets are at most a day. */
  ghost predicate Around(zone: Zone, now: int, change: int, before: int, after: int) {
    && -DAY <= before <= DAY && -DAY <= after <= DAY
    && forall x | now - 5 * DAY <= x <= now + 5 * DAY :: zone(x) == if x < change then before else after
  }

  /** The change as read off both clocks; a wall-clock time between the two readings is skipped or repeated. */
  function Earlier(change: int, before: int, after: int): int {
    change + if before < after then before else after
  }

  function Later(change: int, before: int, after: int): int {
    change + if before < after then after else before
  }

  predicate Skipped(wall: int, change: int, before: int, after: int) {
    change + before <= wall < change + after
  }

  predicate Repeated(wall: int, change: int, before: int, after: int) {
    change + after <= wall < change + before
  }

  /** Where the iteration turns to the later offset: at the change read as UTC, kept between its two readings. */
  function Pivot(change: int, before: int, after: int): int {
    if change < Earlier(change, before, after) then Earlier(change, before, after)
    else if change > Later(change, before, after) then Later(change, before, after)
    else change
  }

  function Used(wall: int, change: int, before: int, after: int): int {
    if wall < Pivot(change, before, after) then before else after
  }

  /** The iteration in closed form, for every wall-clock time near `now`, skipped and repeated ones included. */
  lemma SolveUses(zone: Zone, wall: int, now: int, change: int, before: int, after: int)
    requires Around(zone, now, change, before, after) && now - 3 * DAY <= wall <= now + 3 * DAY
    ensures Solve(zone, wall) == wall - Used(wall, change, before, after)
    ensures Shows(zone, Solve(zone, wall), wall) <==> !Skipped(wall, change, before, after)
  {
    var c1 := wall - zone(wall);
    assert Corrected(zone, wall, 1) == c1;
    var c2 := wall - zone(c1);
    assert Corrected(zone, wall, 2) == c2;
    assert Solve(zone, wall) == wall - zone(c2);
  }

  /** Today's wall-clock time of that name. */
  function Wanted(zone: Zone, now: int, timeOfDay: int): int {
    Midnight(Wall(zone, now)) + timeOfDay
  }

  /** Whether today's time is still to come, as the code finds it. */
  predicate StillToday(zone: Zone, now: int, timeOfDay: int, change: int, before: int, after: int) {
    var wanted := Wanted(zone, now, timeOfDay);
    wanted - Used(wanted, change, before, after) > now
  }

  /** The wall-clock time the callback is meant to show. */
  function Chosen(zone: Zone, now: int, timeOfDay: int, change: int, before: int, after: int): int {
    var wanted := Wanted(zone, now, timeOfDay);
    if StillToday(zone, now, timeOfDay, change, before, after) then wanted else wanted + DAY
  }

  lemma ModDay(days: int, timeOfDay: int)
    requires 0 <= timeOfDay < DAY
    ensures (days * DAY + timeOfDay) % DAY == timeOfDay
  {
  }

  lemma MidnightNear(wall: int)
    ensures Midnight(wall) <= wall < Midnight(wall) + DAY && Midnight(wall) == wall / DAY * DAY
  {
  }

  /** A time of day shifted by at most a day shows the same time of day only by nothing or a whole day. */
  lemma ModShift(wall: int, shift: int)
    requires -DAY <= shift <= DAY
    ensures (wall + shift) % DAY == wall % DAY <==> shift == 0 || shift == DAY || shift == -DAY
  {
    var q, r := wall / DAY, wall % DAY;
    assert wall == q * DAY + r && 0 <= r < DAY;
    if r + shift < 0 {
      ModDayAt(wall + shift, q - 1, r + shift + DAY);
    } else if r + shift < DAY {
      ModDayAt(wall + shift, q, r + shift);
    } else {
      ModDayAt(wall + shift, q + 1, r + shift - DAY);
    }
  }

  lemma ModDayAt(wall: int, days: int, timeOfDay: int)
    requires wall == days * DAY + timeOfDay && 0 <= timeOfDay < DAY
    ensures wall % DAY == timeOfDay
  {
    ModDay(days, timeOfDay);
  }

  lemma WantedNear(zone: Zone, now: int, timeOfDay: int)
    requires 0 <= timeOfDay < DAY && -DAY <= zone(now) <= DAY
    ensures var wanted := Wanted(zone, now, timeOfDay);
      && now - 2 * DAY < wanted < now + 2 * DAY && -DAY < wanted - Wall(zone, now) < DAY
      && wanted % DAY == timeOfDay && (wanted + DAY) % DAY == timeOfDay && (wanted - DAY) % DAY == timeOfDay
      && wanted - DAY < Midnight(Wall(zone, now)) <= Wall(zone, now) < wanted + DAY
  {
    var wanted := Wanted(zone, now, timeOfDay);
    var days := Wall(zone, now) / DAY;
    MidnightNear(Wall(zone, now));
    hide Midnight;
    assert wanted == days * DAY + timeOfDay;
    ModDay(days, timeOfDay);
    ModShift(wanted, DAY);
    ModShift(wanted, -DAY);
  }

  lemma NextUses(zone: Zone, now: int, timeOfDay: int, change: int, before: int, after: int)
    requires Around(zone, now, change, before, after) && 0 <= timeOfDay < DAY
    ensures var w := Chosen(zone, now, timeOfDay, change, before, after);
      && NextTimeOfDay(zone, now, timeOfDay) == w - Used(w, change, before, after)
      && (Wall(zone, NextTimeOfDay(zone, now, timeOfDay)) == w <==> !Skipped(w, change, before, after))
  {
    WantedNear(zone, now, timeOfDay);
    var wanted := Wanted(zone, now, timeOfDay);
    SolveUses(zone, wanted, now, change, before, after);
    SolveUses(zone, wanted + DAY, now, change, before, after);
  }

  /** How far the wall clock is from the chosen time, corrected by the offset the iteration used. */
  function ExactWait(zone: Zone, now: int, timeOfDay: int, change: int, before: int, after: int): int {
    var w := Chosen(zone, now, timeOfDay, change, before, after);
    w - Wall(zone, now) + zone(now) - Used(w, change, before, after)
  }

  /** With a proper buffer and time of day: the wait decides. */
  lemma AcceptedInTime(zone: Zone, now: int, hour: nat, minute: nat, second: nat, buffer: int,
                       change: int, before: int, after: int)
    requires ValidTime(hour, minute, second) && 0 <= buffer <= 24 * 60
    requires Around(zone, now, change, before, after)
    ensures var wait := ExactWait(zone, now, TimeOfDay(hour, minute, second), change, before, after);
      var s := Normalized(zone, now, hour, minute, second, buffer);
      && (s.Accepted? <==> 0 <= wait <= DAY)
      && (s == Refused(InPast) <==> wait < 0)
      && (s == Refused(TooFar) <==> wait > DAY)
      && (s.Accepted? ==> s.callback == now + wait && s.scheduledCall == s.callback + buffer * MINUTE)
  {
    NextUses(zone, now, TimeOfDay(hour, minute, second), change, before, after);
  }

  lemma RefusedAtOnce(zone: Zone, now: int, hour: nat, minute: nat, second: nat, buffer: int)
    ensures var s := Normalized(zone, now, hour, minute, second, buffer);
      var proper, timely := 0 <= buffer <= 1440, hour < 24 && minute < 60 && second < 60;
      && (s == Refused(BadBuffer) <==> !proper) && (s == Refused(BadTime) <==> proper && !timely)
      && (ValidTime(hour, minute, second) <==> timely)
  {
    hide NextTimeOfDay;
  }

  lemma TimeOfDayIs(hour: nat, minute: nat, second: nat)
    ensures TimeOfDay(hour, minute, second) == ((hour * 60 + minute) * 60 + second) * 1000
  {
  }

  /**
   * For every input, skipped and repeated times of day included: accepted exactly when the buffer is at most
   * 1440 minutes, the time is one of the day's, and the wait is between nothing and a day; refused for the first
   * of these that fails, as past or as too far by the wait; the call follows by exactly the buffer.
   */
  lemma AcceptedExactly(zone: Zone, now: int, hour: nat, minute: nat, second: nat, buffer: int,
                        change: int, before: int, after: int)
    requires Around(zone, now, change, before, after)
    ensures var wait := ExactWait(zone, now, TimeOfDay(hour, minute, second), change, before, after);
      var s := Normalized(zone, now, hour, minute, second, buffer);
      var proper, timely := 0 <= buffer <= 1440, hour < 24 && minute < 60 && second < 60;
      && TimeOfDay(hour, minute, second) == ((hour * 60 + minute) * 60 + second) * 1000
      && (s.Accepted? <==> proper && timely && 0 <= wait <= DAY)
      && (s == Refused(BadBuffer) <==> !proper)
      && (s == Refused(BadTime) <==> proper && !timely)
      && (s == Refused(InPast) <==> proper && timely && wait < 0)
      && (s == Refused(TooFar) <==> proper && timely && wait > DAY)
      && (s.Accepted? ==> s.callback == now + wait && s.scheduledCall == s.callback + buffer * MINUTE)
  {
    TimeOfDayIs(hour, minute, second);
    RefusedAtOnce(zone, now, hour, minute, second, buffer);
    hide Normalized, TimeOfDay, ExactWait, Around, ValidTime;
    if 0 <= buffer <= 1440 && hour < 24 && minute < 60 && second < 60 {
      AcceptedInTime(zone, now, hour, minute, second, buffer, change, before, after);
    }
  }

  /** `c` is the first instant after `now` that shows the time of day. */
  ghost predicate LeastLater(zone: Zone, now: int, timeOfDay: int, c: int) {
    && now < c && Wall(zone, c) % DAY == timeOfDay
    && forall x | now < x < c :: Wall(zone, x) % DAY != timeOfDay
  }

  /** One of the two readings of a repeated wall-clock time lies between `now` and `c`. */
  predicate PassedOver(v: int, now: int, c: int, change: int, before: int, after: int) {
    Repeated(v, change, before, after) && (now < v - before < c || now < v - after < c)
  }

  /** A shown wall-clock time that is not repeated has one reading, the one the iteration finds. */
  lemma OneReading(zone: Zone, now: int, x: int, change: int, before: int, after: int)
    requires Around(zone, now, change, before, after) && now - 5 * DAY <= x <= now + 5 * DAY
    requires !Repeated(Wall(zone, x), change, before, after)
    ensures x == Wall(zone, x) - Used(Wall(zone, x), change, before, after)
  {
  }

  /** Times of day with the same name are whole days apart. */
  lemma DaysApart(v: int, wanted: int)
    requires v % DAY == wanted % DAY && wanted - 2 * DAY < v < wanted + 2 * DAY
    ensures v == wanted - DAY || v == wanted || v == wanted + DAY
  {
    assert v == v / DAY * DAY + v % DAY && wanted == wanted / DAY * DAY + wanted % DAY;
  }

  /** A reading of a repeated time of that name, yesterday's, today's or tomorrow's, is passed over. */
  predicate PassesOver(wanted: int, now: int, c: int, change: int, before: int, after: int) {
    || PassedOver(wanted - DAY, now, c, change, before, after)
    || PassedOver(wanted, now, c, change, before, after)
    || PassedOver(wanted + DAY, now, c, change, before, after)
  }

  /** A passed-over reading is an instant that shows the time. */
  lemma PassedOverShows(zone: Zone, now: int, timeOfDay: int, v: int, c: int, change: int, before: int, after: int)
    requires Around(zone, now, change, before, after) && v % DAY == timeOfDay && c <= now + 5 * DAY
    requires PassedOver(v, now, c, change, before, after)
    ensures !LeastLater(zone, now, timeOfDay, c)
  {
    if now < v - before < c {
      assert Wall(zone, v - before) == v;
    } else {
      assert Wall(zone, v - after) == v;
    }
  }

  /** A time that is not repeated is not shown between now and the callback. */
  lemma OneReadingMisses(zone: Zone, now: int, timeOfDay: int, change: int, before: int, after: int, v: int)
    requires Around(zone, now, change, before, after) && 0 <= timeOfDay < DAY && -DAY <= after - before <= DAY
    requires var wanted := Wanted(zone, now, timeOfDay);
      -DAY < wanted - Wall(zone, now) < DAY && (v == wanted - DAY || v == wanted || v == wanted + DAY)
    ensures var x, w := v - Used(v, change, before, after), Chosen(zone, now, timeOfDay, change, before, after);
      !Repeated(v, change, before, after) && Wall(zone, x) == v ==>
        !(now < x < w - Used(w, change, before, after))
  {
    hide Wanted;
  }

  /** Between now and the callback only yesterday's, today's and tomorrow's time of that name can be shown. */
  lemma NamesNear(zone: Zone, now: int, timeOfDay: int, change: int, before: int, after: int, x: int)
    requires Around(zone, now, change, before, after) && 0 <= timeOfDay < DAY && -DAY <= after - before <= DAY
    requires now < x < NextTimeOfDay(zone, now, timeOfDay) && Wall(zone, x) % DAY == timeOfDay
    ensures var v, wanted := Wall(zone, x), Wanted(zone, now, timeOfDay);
      && x <= now + 5 * DAY && -DAY < wanted - Wall(zone, now) < DAY
      && (v == wanted - DAY || v == wanted || v == wanted + DAY)
  {
    NextUses(zone, now, timeOfDay, change, before, after);
    WantedNear(zone, now, timeOfDay);
    var wanted := Wanted(zone, now, timeOfDay);
    hide NextTimeOfDay, Midnight, Wanted;
    assert wanted - 2 * DAY < Wall(zone, x) < wanted + 2 * DAY;
    DaysApart(Wall(zone, x), wanted);
  }

  /** An instant between now and the callback that shows the time of day is a passed-over reading. */
  lemma OnlyPassedOver(zone: Zone, now: int, timeOfDay: int, change: int, before: int, after: int, x: int)
    requires Around(zone, now, change, before, after) && 0 <= timeOfDay < DAY && -DAY <= after - before <= DAY
    requires now < x < NextTimeOfDay(zone, now, timeOfDay) && Wall(zone, x) % DAY == timeOfDay
    ensures PassesOver(Wanted(zone, now, timeOfDay), now, NextTimeOfDay(zone, now, timeOfDay), change, before, after)
  {
    var v := Wall(zone, x);
    NextUses(zone, now, timeOfDay, change, before, after);
    NamesNear(zone, now, timeOfDay, change, before, after, x);
    OneReadingMisses(zone, now, timeOfDay, change, before, after, v);
    hide NextTimeOfDay, Wanted, Chosen, Used;
    if !Repeated(v, change, before, after) {
      OneReading(zone, now, x, change, before, after);
    }
  }

  /** The callback shows the time of day exactly when the chosen time is not skipped, or is with a whole day. */
  lemma ShownExactly(zone: Zone, now: int, timeOfDay: int, change: int, before: int, after: int)
    requires Around(zone, now, change, before, after) && 0 <= timeOfDay < DAY && -DAY <= after - before <= DAY
    ensures var w := Chosen(zone, now, timeOfDay, change, before, after);
      Wall(zone, NextTimeOfDay(zone, now, timeOfDay)) % DAY == timeOfDay <==>
        (Skipped(w, change, before, after) ==> after - before == DAY)
  {
    NextUses(zone, now, timeOfDay, change, before, after);
    WantedNear(zone, now, timeOfDay);
    var w, c := Chosen(zone, now, timeOfDay, change, before, after), NextTimeOfDay(zone, now, timeOfDay);
    assert w % DAY == timeOfDay;
    var shift := Wall(zone, c) - w;
    hide NextTimeOfDay, Chosen, Wanted;
    assert shift == (if c < change then before else after) - Used(w, change, before, after);
    ModShift(w, shift);
  }

  /** The callback is the first later instant exactly when it is a later one, shows the time and passes none over. */
  lemma LeastLaterUnlessPassed(zone: Zone, now: int, timeOfDay: int, change: int, before: int, after: int)
    requires Around(zone, now, change, before, after) && 0 <= timeOfDay < DAY && -DAY <= after - before <= DAY
    ensures var c, w := NextTimeOfDay(zone, now, timeOfDay), Chosen(zone, now, timeOfDay, change, before, after);
      LeastLater(zone, now, timeOfDay, c) <==>
        && now < c
        && (Skipped(w, change, before, after) ==> after - before == DAY)
        && !PassesOver(Wanted(zone, now, timeOfDay), now, c, change, before, after)
  {
    var c, wanted := NextTimeOfDay(zone, now, timeOfDay), Wanted(zone, now, timeOfDay);
    NextUses(zone, now, timeOfDay, change, before, after);
    WantedNear(zone, now, timeOfDay);
    assert c <= now + 5 * DAY;
    ShownExactly(zone, now, timeOfDay, change, before, after);
    hide NextTimeOfDay, Wanted, Chosen, PassedOver, Skipped, Around, Used;
    forall v | v in {wanted - DAY, wanted, wanted + DAY} && PassedOver(v, now, c, change, before, after)
      ensures !LeastLater(zone, now, timeOfDay, c)
    {
      PassedOverShows(zone, now, timeOfDay, v, c, change, before, after);
    }
    hide PassesOver;
    forall x | now < x < c && Wall(zone, x) % DAY == timeOfDay
      ensures PassesOver(wanted, now, c, change, before, after)
    {
      OnlyPassedOver(zone, now, timeOfDay, change, before, after, x);
    }
  }

  lemma WaitIs(zone: Zone, now: int, timeOfDay: int, change: int, before: int, after: int)
    requires Around(zone, now, change, before, after) && 0 <= timeOfDay < DAY
    ensures NextTimeOfDay(zone, now, timeOfDay) == now + ExactWait(zone, now, timeOfDay, change, before, after)
  {
    NextUses(zone, now, timeOfDay, change, before, after);
    hide NextTimeOfDay, Chosen, Used, Around;
  }

  /**
   * For every time of day: the callback is the first later instant that shows it exactly when the wait is
   * positive, the chosen wall-clock time is not skipped (unless a whole day is), and no reading of a repeated
   * time of that name is passed over. All of it can be told before the callback is computed.
   */
  lemma LeastLaterExactly(zone: Zone, now: int, timeOfDay: int, change: int, before: int, after: int)
    requires Around(zone, now, change, before, after) && 0 <= timeOfDay < DAY && -DAY <= after - before <= DAY
    ensures var w := Chosen(zone, now, timeOfDay, change, before, after);
      var wait := ExactWait(zone, now, timeOfDay, change, before, after);
      LeastLater(zone, now, timeOfDay, NextTimeOfDay(zone, now, timeOfDay)) <==>
        && 0 < wait
        && (Skipped(w, change, before, after) ==> after - before == DAY)
        && !PassesOver(Wanted(zone, now, timeOfDay), now, now + wait, change, before, after)
  {
    hide LeastLater, NextTimeOfDay, Chosen, ExactWait, Wanted, PassesOver, Skipped, Around;
    WaitIs(zone, now, timeOfDay, change, before, after);
    LeastLaterUnlessPassed(zone, now, timeOfDay, change, before, after);
  }

  // ---- Consequences ----

  /** The wait as the wall clock suggests it: more than nothing, at most a day. */
  function WallWait(zone: Zone, now: int, timeOfDay: int): int {
    var wait := timeOfDay - Wall(zone, now) % DAY;
    if wait > 0 then wait else wait + DAY
  }

  predicate Disturbed(wall: int, change: int, before: int, after: int) {
    Skipped(wall, change, before, after) || Repeated(wall, change, before, after)
  }

  lemma WallWaitIs(zone: Zone, now: int, timeOfDay: int)
    requires 0 <= timeOfDay < DAY
    ensures var wanted := Wanted(zone, now, timeOfDay);
      WallWait(zone, now, timeOfDay) == (if wanted > Wall(zone, now) then wanted else wanted + DAY) - Wall(zone, now)
  {
    MidnightNear(Wall(zone, now));
  }

  /**
   * The wait, for every time of day; and where neither today's nor tomorrow's is skipped or repeated, it is
   * the wall clock's wait plus the change's shift if it is crossed, and the callback shows the time.
   */
  lemma WaitExactly(zone: Zone, now: int, timeOfDay: int, change: int, before: int, after: int)
    requires Around(zone, now, change, before, after) && 0 <= timeOfDay < DAY
    ensures var c, wanted := NextTimeOfDay(zone, now, timeOfDay), Wanted(zone, now, timeOfDay);
      var wait := WallWait(zone, now, timeOfDay);
      && c - now == ExactWait(zone, now, timeOfDay, change, before, after)
      && (!Disturbed(wanted, change, before, after) && !Disturbed(wanted + DAY, change, before, after) ==>
            && c > now && Wall(zone, c) % DAY == timeOfDay
            && c - now == wait + if now < change <= now + wait then before - after else 0)
  {
    NextUses(zone, now, timeOfDay, change, before, after);
    WantedNear(zone, now, timeOfDay);
    WallWaitIs(zone, now, timeOfDay);
    hide NextTimeOfDay, WallWait, Wanted, Midnight;
  }

  /** With a constant offset: the first later instant with that time of day, at most a day away, so always accepted. */
  lemma ConstantOffset(zone: Zone, now: int, hour: nat, minute: nat, second: nat, buffer: int, offset: int)
    requires ValidTime(hour, minute, second) && 0 <= buffer <= 24 * 60 && -DAY <= offset <= DAY
    requires forall x | now - 5 * DAY <= x <= now + 5 * DAY :: zone(x) == offset
    ensures var s := Normalized(zone, now, hour, minute, second, buffer);
      && s.Accepted? && now < s.callback <= now + DAY && s.scheduledCall == s.callback + buffer * MINUTE
      && LeastLater(zone, now, TimeOfDay(hour, minute, second), s.callback)
  {
    var tod := TimeOfDay(hour, minute, second);
    assert Around(zone, now, now, offset, offset);
    WantedNear(zone, now, tod);
    NextUses(zone, now, tod, now, offset, offset);
    AcceptedInTime(zone, now, hour, minute, second, buffer, now, offset, offset);
    LeastLaterExactly(zone, now, tod, now, offset, offset);
  }

  lemma SameTimeTomorrow(zone: Zone, now: int, timeOfDay: int, change: int, before: int, after: int)
    requires Around(zone, now, change, before, after) && timeOfDay == Wall(zone, now) % DAY
    requires after < before && now + (before - after) < change <= now + DAY
    ensures ExactWait(zone, now, timeOfDay, change, before, after) == DAY + before - after
  {
    MidnightNear(Wall(zone, now));
    assert Wanted(zone, now, timeOfDay) == Wall(zone, now) == now + before;
    hide Midnight, Wanted;
    assert Used(now + before, change, before, after) == before;
    assert Used(now + before + DAY, change, before, after) == after;
  }

  /** On a day the clocks go back, asking for this same time of day is refused, though it names a moment tomorrow. */
  lemma FallBackRefuses(zone: Zone, now: int, hour: nat, minute: nat, second: nat, change: int, before: int, after: int)
    requires ValidTime(hour, minute, second) && TimeOfDay(hour, minute, second) == Wall(zone, now) % DAY
    requires Around(zone, now, change, before, after)
    requires after < before && now + (before - after) < change <= now + DAY
    ensures Normalized(zone, now, hour, minute, second, 0) == Refused(TooFar)
  {
    AcceptedInTime(zone, now, hour, minute, second, 0, change, before, after);
    SameTimeTomorrow(zone, now, TimeOfDay(hour, minute, second), change, before, after);
    hide Normalized, ExactWait, Around;
  }

  /**
   * While the clocks go back, a repeated time whose first reading has passed is refused as too far away,
   * although its second reading is still to come, whenever the iteration takes the first.
   */
  lemma SecondReadingRefused(zone: Zone, now: int, hour: nat, minute: nat, second: nat, change: int, before: int,
                             after: int)
    requires ValidTime(hour, minute, second) && Around(zone, now, change, before, after) && before - after <= DAY
    requires var wanted := Wanted(zone, now, TimeOfDay(hour, minute, second));
      && Repeated(wanted, change, before, after) && wanted < Pivot(change, before, after)
      && wanted - before <= now < wanted - after
    ensures var wanted := Wanted(zone, now, TimeOfDay(hour, minute, second));
      && Normalized(zone, now, hour, minute, second, 0) == Refused(TooFar)
      && Wall(zone, wanted - after) == wanted && wanted - after <= now + (before - after)
  {
    WantedNear(zone, now, TimeOfDay(hour, minute, second));
    AcceptedInTime(zone, now, hour, minute, second, 0, change, before, after);
  }

  /** Offset -4 hours until 06:00 UTC, then -5: at 01:45 a callback at 01:30 is refused, though 45 minutes away. */
  lemma FallBackNight(zone: Zone)
    requires Around(zone, 345 * MINUTE, 360 * MINUTE, -240 * MINUTE, -300 * MINUTE)
    ensures Normalized(zone, 345 * MINUTE, 1, 30, 0, 0) == Refused(TooFar)
    ensures Wall(zone, 390 * MINUTE) == TimeOfDay(1, 30, 0)
  {
    SecondReadingRefused(zone, 345 * MINUTE, 1, 30, 0, 360 * MINUTE, -240 * MINUTE, -300 * MINUTE);
  }
}
