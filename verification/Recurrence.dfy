/** Weekly maintenance windows across changes of the local offset. */
module Recurrence {
  import opened Common

  const HOUR := 3600
  const DAY := 86400

  /** The offset of a zone at each instant, in seconds: less than a day either way. */
  datatype Zone = Zone(offset: int -> int)

  ghost predicate ValidZone(z: Zone)
  {
    forall t :: -DAY < z.offset(t) < DAY
  }

  /** The wall time shown at an instant. */
  function Wall(z: Zone, t: int): int
  {
    t + z.offset(t)
  }

  // ----- Resolving a wall time -----

  /** The offsets in force around a wall time, seen from two days before to two days after. */
  function Sampled(z: Zone, wall: int): seq<int>
  {
    [z.offset(wall - 2 * DAY), z.offset(wall - DAY), z.offset(wall), z.offset(wall + DAY), z.offset(wall + 2 * DAY)]
  }

  function Earlier(a: Option<int>, b: Option<int>): Option<int>
  {
    if a.None? then b else if b.None? then a else if b.value < a.value then b else a
  }

  /** The instant at which an offset would show the wall time, if it does. */
  function Shown(z: Zone, wall: int, o: int): Option<int>
  {
    if Wall(z, wall - o) == wall then Some(wall - o) else None
  }

  function FirstShown(z: Zone, wall: int, offsets: seq<int>): Option<int>
  {
    if offsets == [] then None
    else Earlier(FirstShown(z, wall, offsets[..|offsets| - 1]), Shown(z, wall, offsets[|offsets| - 1]))
  }

  function LocalTime(z: Zone, wall: int): Option<int>
  {
    FirstShown(z, wall, Sampled(z, wall))
  }

  lemma {:induction false} FirstShownMeaning(z: Zone, wall: int, offsets: seq<int>)
    ensures var r := FirstShown(z, wall, offsets);
      && (r.Some? ==> Wall(z, r.value) == wall && wall - r.value in offsets)
      && (forall o :: o in offsets && Wall(z, wall - o) == wall ==> r.Some? && r.value <= wall - o)
  {
    if offsets != [] {
      var init, last := offsets[..|offsets| - 1], offsets[|offsets| - 1];
      FirstShownMeaning(z, wall, init);
      assert offsets == init + [last];
    }
  }

  /** The offset changes at most once in the sampled span: from `a` to `b` at `change`. */
  ghost predicate OneChange(z: Zone, wall: int, change: int, a: int, b: int)
  {
    forall t :: wall - 2 * DAY <= t <= wall + 2 * DAY ==> z.offset(t) == if t < change then a else b
  }

  /** Every instant that shows the wall time is among those tried. */
  lemma NothingMissed(z: Zone, wall: int, change: int, a: int, b: int, t: int)
    requires ValidZone(z) && OneChange(z, wall, change, a, b) && Wall(z, t) == wall
    ensures wall - t in Sampled(z, wall)
  {
    assert -DAY < z.offset(t) < DAY;
    assert wall - 2 * DAY <= t <= wall + 2 * DAY;
    assert Sampled(z, wall)[0] == z.offset(wall - 2 * DAY) && Sampled(z, wall)[4] == z.offset(wall + 2 * DAY);
  }

  /** Across one change of offset: the first instant that shows the wall time, and none exactly if the wall time is skipped. */
  lemma LocalTimeIsFirst(z: Zone, wall: int, change: int, a: int, b: int)
    requires ValidZone(z) && OneChange(z, wall, change, a, b)
    ensures var r := LocalTime(z, wall);
      && (r.Some? ==> Wall(z, r.value) == wall && forall t :: Wall(z, t) == wall ==> r.value <= t)
      && (r.None? <==> forall t :: Wall(z, t) != wall)
  {
    var r := LocalTime(z, wall);
    FirstShownMeaning(z, wall, Sampled(z, wall));
    forall t | Wall(z, t) == wall
      ensures r.Some? && r.value <= t
    {
      NothingMissed(z, wall, change, a, b, t);
      assert wall - (wall - t) == t;
    }
  }

  /** The offset stays the same from `a` up to, not including, `b`. */
  ghost predicate Constant(z: Zone, a: int, b: int)
  {
    forall t, u :: a <= t < b && a <= u < b ==> z.offset(t) == z.offset(u)
  }

  /** The stretch of `length` seconds from `a` on holds instant `t` and one offset. */
  ghost predicate Around(z: Zone, t: int, a: int, length: int)
  {
    a <= t < a + length && Constant(z, a, a + length)
  }

  ghost predicate SettledAt(z: Zone, t: int, length: int)
  {
    exists a :: Around(z, t, a, length)
  }

  /** Every instant lies in a stretch of at least `length` seconds during which the offset does not change. */
  ghost predicate Settled(z: Zone, length: int)
  {
    forall t :: SettledAt(z, t, length)
  }

  /** A stretch of a day around an instant that shows the wall time contains one of the instants sampled. */
  lemma StretchIsSampled(z: Zone, wall: int, t: int, a: int)
    requires ValidZone(z) && Wall(z, t) == wall && Around(z, t, a, DAY)
    ensures wall - t in Sampled(z, wall)
  {
    assert -DAY < z.offset(t) < DAY;
    var s := Sampled(z, wall);
    if a <= wall < a + DAY {
      assert s[2] == z.offset(t);
    } else if wall < a {
      assert a <= wall + DAY < a + DAY;
      assert s[3] == z.offset(t);
    } else {
      assert a <= wall - DAY < a + DAY;
      assert s[1] == z.offset(t);
    }
  }

  lemma SettledIsSampled(z: Zone, wall: int, t: int)
    requires ValidZone(z) && Wall(z, t) == wall && SettledAt(z, t, DAY)
    ensures wall - t in Sampled(z, wall)
  {
    hide Constant, Sampled;
    var a :| Around(z, t, a, DAY);
    StretchIsSampled(z, wall, t, a);
  }

  /**
   * In a zone that never keeps an offset for less than a day, however often it changes: the first instant that shows the
   * wall time, and none exactly if the wall time is skipped.
   */
  lemma LocalTimeIsRight(z: Zone, wall: int)
    requires ValidZone(z) && Settled(z, DAY)
    ensures var r := LocalTime(z, wall);
      && (r.Some? ==> Wall(z, r.value) == wall && forall t :: Wall(z, t) == wall ==> r.value <= t)
      && (r.None? <==> forall t :: Wall(z, t) != wall)
  {
    hide ValidZone, Around, Sampled, FirstShown, SettledAt;
    var r := LocalTime(z, wall);
    FirstShownMeaning(z, wall, Sampled(z, wall));
    forall t | Wall(z, t) == wall
      ensures r.Some? && r.value <= t
    {
      assert SettledAt(z, t, DAY);
      SettledIsSampled(z, wall, t);
      assert wall - (wall - t) == t;
    }
  }

  /** A zone that is a second further ahead for `length` seconds only, or two. */
  function Blip(length: int): Zone
  {
    Zone(t => if 0 <= t < length || t == 1 then 2 else 1)
  }

  /** Stretches of a day are needed: for any shorter length there is a zone with a wall time that exists and is not found. */
  lemma ShorterStretchesFail(length: int)
    requires 1 <= length < DAY
    ensures ValidZone(Blip(length)) && Settled(Blip(length), length)
    ensures var wall := if length == 1 then 2 else length;
      Wall(Blip(length), wall - 2) == wall && LocalTime(Blip(length), wall).None?
  {
    var z, wall := Blip(length), if length == 1 then 2 else length;
    forall t
      ensures SettledAt(z, t, length)
    {
      assert Around(z, t, if length == 1 then t else if 0 <= t < length then 0 else if t < 0 then t - length + 1 else t, length);
    }
    assert Sampled(z, wall) == [1, 1, 1, 1, 1];
    assert Wall(z, wall - 1) == wall + 1;
    FirstShownMeaning(z, wall, Sampled(z, wall));
  }

  // ----- Windows -----

  datatype Window = Window(start: int, end: int)

  /** `until` is the last day a window may start on; days are counted from the epoch. */
  datatype Rule = Rule(weekly: bool, zone: Option<Zone>, until: Option<int>)

  datatype Error = InvalidInput

  /** Days are counted downwards before the epoch: division rounds towards the past. */
  function DayOf(wall: int): int { wall / DAY }

  lemma DayOfBounds(wall: int)
    ensures DayOf(wall) * DAY <= wall < (DayOf(wall) + 1) * DAY
  {
  }

  /** The same day one year later, in days. */
  datatype Calendar = Calendar(yearLater: int -> int)

  ghost predicate ValidCalendar(c: Calendar)
  {
    forall d :: 365 <= c.yearLater(d) - d <= 366
  }

  /** The windows of weeks `1` to `n` that exist, with `wall` the wall time of the first one. */
  function Weeks(z: Zone, wall: int, duration: int, n: nat): seq<Window>
  {
    if n == 0 then []
    else
      var start := LocalTime(z, wall + n * 7 * DAY);
      Weeks(z, wall, duration, n - 1) + if start.None? then [] else [Window(start.value, start.value + duration)]
  }

  function WeekCount(day: int, last: int): nat
    requires day <= last
  {
    (last - day) / 7
  }

  predicate Accepts(c: Calendar, z: Zone, w: Window, last: int)
  {
    var day := DayOf(Wall(z, w.start));
    day + 7 <= last <= c.yearLater(day) && 0 < w.end - w.start <= DAY
  }

  function Occurrences(c: Calendar, w: Window, rule: Option<Rule>): Result<seq<Window>, Error>
  {
    if rule.None? then Ok([w])
    else if !rule.value.weekly || rule.value.zone.None? || rule.value.until.None? then Err(InvalidInput)
    else
      var z, last := rule.value.zone.value, rule.value.until.value;
      if !Accepts(c, z, w, last) then Err(InvalidInput)
      else
        var wall := Wall(z, w.start);
        var items := [w] + Weeks(z, wall, w.end - w.start, WeekCount(DayOf(wall), last));
        if |items| < 2 then Err(InvalidInput) else Ok(items)
  }

  /** Window `x` starts `k` weeks after `wall`, on the wall. */
  predicate OnWeek(z: Zone, wall: int, x: Window, k: int)
  {
    Wall(z, x.start) == wall + k * 7 * DAY
  }

  /** Window `x` starts on the wall in one of the weeks `1` to `n`. */
  ghost predicate InWeeks(z: Zone, wall: int, x: Window, n: nat)
  {
    exists k :: 1 <= k <= n && OnWeek(z, wall, x, k)
  }

  /** Windows in order, each over before the next one starts. */
  predicate Ordered(items: seq<Window>)
  {
    && (forall i :: 0 <= i < |items| ==> items[i].start < items[i].end)
    && (forall i, j :: 0 <= i < j < |items| ==> items[i].end <= items[j].start)
  }

  lemma WeeksApart(z: Zone, wall: int, x: Window, y: Window, i: int, j: int)
    requires ValidZone(z) && OnWeek(z, wall, x, i) && OnWeek(z, wall, y, j) && i < j && 0 < x.end - x.start <= DAY
    ensures x.start < x.end <= y.start
  {
    assert -DAY < z.offset(x.start) < DAY && -DAY < z.offset(y.start) < DAY;
  }

  /** What the windows of the following weeks are. */
  ghost predicate Weekly(z: Zone, wall: int, duration: int, n: nat, items: seq<Window>)
  {
    && |items| <= n
    && (forall i :: 0 <= i < |items| ==> items[i].end == items[i].start + duration)
    && (forall i :: 0 <= i < |items| ==> InWeeks(z, wall, items[i], n))
    && Ordered(items)
  }

  lemma InMoreWeeks(z: Zone, wall: int, x: Window, n: nat, m: nat)
    requires InWeeks(z, wall, x, n) && n <= m
    ensures InWeeks(z, wall, x, m)
  {
    var k :| 1 <= k <= n && OnWeek(z, wall, x, k);
  }

  lemma BeforeNextWeek(z: Zone, wall: int, duration: int, n: nat, x: Window, y: Window)
    requires ValidZone(z) && 0 < duration <= DAY && x.end == x.start + duration
    requires InWeeks(z, wall, x, n) && OnWeek(z, wall, y, n + 1)
    ensures x.start < x.end <= y.start
  {
    var k :| 1 <= k <= n && OnWeek(z, wall, x, k);
    WeeksApart(z, wall, x, y, k, n + 1);
  }

  lemma WeeklySnoc(z: Zone, wall: int, duration: int, n: nat, items: seq<Window>, x: Window)
    requires ValidZone(z) && 0 < duration <= DAY && Weekly(z, wall, duration, n, items)
    requires OnWeek(z, wall, x, n + 1) && x.end == x.start + duration
    ensures Weekly(z, wall, duration, n + 1, items + [x])
  {
    hide InWeeks, OnWeek, ValidZone;
    var longer := items + [x];
    assert InWeeks(z, wall, x, n + 1) by {
      NowInWeeks(z, wall, x, n + 1);
    }
    forall i | 0 <= i < |items|
      ensures items[i].end <= x.start && InWeeks(z, wall, items[i], n + 1)
    {
      BeforeNextWeek(z, wall, duration, n, items[i], x);
      InMoreWeeks(z, wall, items[i], n, n + 1);
    }
    assert forall i :: 0 <= i < |longer| ==> longer[i] == if i < |items| then items[i] else x;
  }

  lemma NowInWeeks(z: Zone, wall: int, x: Window, n: nat)
    requires OnWeek(z, wall, x, n) && 1 <= n
    ensures InWeeks(z, wall, x, n)
  {
  }

  lemma WeeklyMore(z: Zone, wall: int, duration: int, n: nat, items: seq<Window>)
    requires Weekly(z, wall, duration, n, items)
    ensures Weekly(z, wall, duration, n + 1, items)
  {
    hide InWeeks;
    forall i | 0 <= i < |items|
      ensures InWeeks(z, wall, items[i], n + 1)
    {
      InMoreWeeks(z, wall, items[i], n, n + 1);
    }
  }

  lemma NoWeek(z: Zone, wall: int, duration: int)
    ensures Weeks(z, wall, duration, 0) == []
  {
  }

  lemma WeeksSnoc(z: Zone, wall: int, duration: int, n: nat)
    ensures var start := LocalTime(z, wall + (n + 1) * 7 * DAY);
      Weeks(z, wall, duration, n + 1) == Weeks(z, wall, duration, n) + if start.None? then [] else [Window(start.value, start.value + duration)]
  {
  }

  lemma {:induction false} WeeksAreWeekly(z: Zone, wall: int, duration: int, n: nat)
    requires ValidZone(z) && 0 < duration <= DAY
    ensures Weekly(z, wall, duration, n, Weeks(z, wall, duration, n))
  {
    hide Weekly, OnWeek, ValidZone;
    if n == 0 {
      NoWeeks(z, wall, duration);
    } else {
      WeeksAreWeekly(z, wall, duration, n - 1);
      WeeksSnoc(z, wall, duration, n - 1);
      NextWeek(z, wall, duration, n - 1, Weeks(z, wall, duration, n - 1));
    }
  }

  lemma NextWeek(z: Zone, wall: int, duration: int, n: nat, before: seq<Window>)
    requires ValidZone(z) && 0 < duration <= DAY && Weekly(z, wall, duration, n, before)
    ensures var start := LocalTime(z, wall + (n + 1) * 7 * DAY);
      Weekly(z, wall, duration, n + 1, before + if start.None? then [] else [Window(start.value, start.value + duration)])
  {
    hide Weekly, ValidZone;
    var start := LocalTime(z, wall + (n + 1) * 7 * DAY);
    FirstShownMeaning(z, wall + (n + 1) * 7 * DAY, Sampled(z, wall + (n + 1) * 7 * DAY));
    if start.Some? {
      var x := Window(start.value, start.value + duration);
      ShownOnWeek(z, wall, x, n + 1);
      WeeklySnoc(z, wall, duration, n, before, x);
    } else {
      WeeklyMore(z, wall, duration, n, before);
      assert before + [] == before;
    }
  }

  lemma NoWeeks(z: Zone, wall: int, duration: int)
    ensures Weekly(z, wall, duration, 0, [])
  {
  }

  lemma ShownOnWeek(z: Zone, wall: int, x: Window, n: int)
    requires Wall(z, x.start) == wall + n * 7 * DAY
    ensures OnWeek(z, wall, x, n)
  {
  }

  /**
   * Recurring windows are ordered and do not overlap; there are at most 53; each later one has the length of the first
   * and starts at its wall time, a whole number of weeks later, no later than the last day.
   */
  lemma OccurrencesAreOrdered(c: Calendar, w: Window, rule: Rule)
    requires ValidCalendar(c) && (rule.zone.Some? ==> ValidZone(rule.zone.value)) && Occurrences(c, w, Some(rule)).Ok?
    ensures var items, z := Occurrences(c, w, Some(rule)).value, rule.zone.value;
      && 2 <= |items| <= 53 && items[0] == w && Ordered(items)
      && forall i :: 1 <= i < |items| ==>
        && items[i].end - items[i].start == w.end - w.start && InWeeks(z, Wall(z, w.start), items[i], 52)
        && DayOf(Wall(z, items[i].start)) <= rule.until.value
  {
    hide InWeeks, OnWeek, ValidZone, Weeks, DayOf, Ordered;
    var z, last := rule.zone.value, rule.until.value;
    var wall, items := Wall(z, w.start), Occurrences(c, w, Some(rule)).value;
    var day, duration := DayOf(wall), w.end - w.start;
    var n := WeekCount(day, last);
    var weeks := Weeks(z, wall, duration, n);
    assert n <= 52 && day + 7 * n <= last;
    WeeksAreWeekly(z, wall, duration, n);
    forall i | 0 <= i < |weeks|
      ensures w.end <= weeks[i].start && DayOf(Wall(z, weeks[i].start)) <= last
      ensures InWeeks(z, wall, weeks[i], 52)
    {
      LaterWindow(z, w, weeks[i], n, day, last);
      InMoreWeeks(z, wall, weeks[i], n, 52);
    }
    OrderedCons(w, weeks);
    assert forall i :: 1 <= i < |items| ==> items[i] == weeks[i - 1];
  }

  lemma LaterWindow(z: Zone, w: Window, x: Window, n: nat, day: int, last: int)
    requires ValidZone(z) && 0 < w.end - w.start <= DAY && InWeeks(z, Wall(z, w.start), x, n)
    requires day == DayOf(Wall(z, w.start)) && day + 7 * n <= last
    ensures w.start < w.end <= x.start && DayOf(Wall(z, x.start)) <= last
  {
    hide DayOf;
    var wall := Wall(z, w.start);
    var k :| 1 <= k <= n && OnWeek(z, wall, x, k);
    assert OnWeek(z, wall, w, 0);
    WeeksApart(z, wall, w, x, 0, k);
    DayOfWeek(wall, k);
  }

  lemma OrderedCons(w: Window, weeks: seq<Window>)
    requires Ordered(weeks) && w.start < w.end && forall i :: 0 <= i < |weeks| ==> w.end <= weeks[i].start
    ensures Ordered([w] + weeks)
  {
    var items := [w] + weeks;
    assert forall i :: 1 <= i < |items| ==> items[i] == weeks[i - 1];
  }

  lemma DayIs(wall: int, d: int)
    requires d * DAY <= wall < (d + 1) * DAY
    ensures DayOf(wall) == d
  {
    hide DayOf;
    DayOfBounds(wall);
    var e := DayOf(wall);
    assert e * DAY < (d + 1) * DAY && d * DAY < (e + 1) * DAY;
  }

  lemma DayOfWeek(wall: int, k: int)
    ensures DayOf(wall + k * 7 * DAY) == DayOf(wall) + 7 * k
  {
    hide DayOf;
    DayOfBounds(wall);
    DayIs(wall + k * 7 * DAY, DayOf(wall) + 7 * k);
  }

  // ----- No week is left out -----

  lemma {:induction false} WeekIsThere(z: Zone, wall: int, duration: int, n: nat, k: nat)
    requires 1 <= k <= n && LocalTime(z, wall + k * 7 * DAY).Some?
    ensures var start := LocalTime(z, wall + k * 7 * DAY).value; Window(start, start + duration) in Weeks(z, wall, duration, n)
  {
    hide LocalTime;
    if k < n {
      WeekIsThere(z, wall, duration, n - 1, k);
    }
  }

  /** The window of a later week, at the first instant that shows the wall time of the first one. */
  ghost predicate HasWeek(z: Zone, wall: int, duration: int, items: seq<Window>, k: nat)
  {
    exists i :: 0 <= i < |items| && OnWeek(z, wall, items[i], k) && items[i].end == items[i].start + duration &&
      forall t :: Wall(z, t) == wall + k * 7 * DAY ==> items[i].start <= t
  }

  /** The wall time of the first window exists `k` weeks later. */
  ghost predicate WeekExists(z: Zone, wall: int, k: nat)
  {
    exists t :: Wall(z, t) == wall + k * 7 * DAY
  }

  lemma ExistingWeekIsThere(z: Zone, w: Window, n: nat, k: nat)
    requires ValidZone(z) && Settled(z, DAY) && 1 <= k <= n && WeekExists(z, Wall(z, w.start), k)
    ensures HasWeek(z, Wall(z, w.start), w.end - w.start, [w] + Weeks(z, Wall(z, w.start), w.end - w.start, n), k)
  {
    hide LocalTime, Weeks, Settled, ValidZone;
    var wall, duration := Wall(z, w.start), w.end - w.start;
    var items, at := [w] + Weeks(z, wall, duration, n), wall + k * 7 * DAY;
    LocalTimeIsRight(z, at);
    var t :| Wall(z, t) == at;
    var start := LocalTime(z, at).value;
    WeekIsThere(z, wall, duration, n, k);
    var x := Window(start, start + duration);
    var i :| 0 <= i < |Weeks(z, wall, duration, n)| && Weeks(z, wall, duration, n)[i] == x;
    assert items[i + 1] == x;
  }

  /**
   * In a zone that keeps each offset for a day, a rule is accepted exactly if it is weekly, its window lasts at most a day,
   * its last day is from one week to one year after the first, and some later week has the wall time; then every week up
   * to the last day that has it gets its window.
   */
  lemma OccurrencesAreComplete(c: Calendar, w: Window, rule: Rule, day: int)
    requires rule.zone.Some? ==> ValidZone(rule.zone.value) && Settled(rule.zone.value, DAY)
    requires rule.zone.Some? ==> day * DAY <= Wall(rule.zone.value, w.start) < (day + 1) * DAY
    ensures var r := Occurrences(c, w, Some(rule));
      && (r.Ok? <==>
            && rule.weekly && rule.zone.Some? && rule.until.Some? && 0 < w.end - w.start <= DAY
            && day + 7 <= rule.until.value <= c.yearLater(day)
            && exists k: nat :: 1 <= k && day + 7 * k <= rule.until.value && WeekExists(rule.zone.value, Wall(rule.zone.value, w.start), k))
      && (r.Ok? ==>
            var z := rule.zone.value;
            forall k: nat :: 1 <= k && day + 7 * k <= rule.until.value && WeekExists(z, Wall(z, w.start), k) ==>
              HasWeek(z, Wall(z, w.start), w.end - w.start, r.value, k))
  {
    hide Weeks, DayOf, Settled, ValidZone, WeekExists, HasWeek;
    if rule.zone.Some? && rule.until.Some? {
      var z, last := rule.zone.value, rule.until.value;
      var wall := Wall(z, w.start);
      DayIs(wall, day);
      if rule.weekly && 0 < w.end - w.start <= DAY && day + 7 <= last <= c.yearLater(day) {
        AcceptedWeeks(z, w, day, last);
      }
    }
  }

  lemma AcceptedWeeks(z: Zone, w: Window, day: int, last: int)
    requires ValidZone(z) && Settled(z, DAY) && day + 7 <= last && 0 < w.end - w.start <= DAY
    ensures var wall, duration, n := Wall(z, w.start), w.end - w.start, WeekCount(day, last);
      var items := [w] + Weeks(z, wall, duration, n);
      && (|items| >= 2 <==> exists k: nat :: 1 <= k && day + 7 * k <= last && WeekExists(z, wall, k))
      && forall k: nat :: 1 <= k && day + 7 * k <= last && WeekExists(z, wall, k) ==> HasWeek(z, wall, duration, items, k)
  {
    hide Weeks, Settled, ValidZone;
    var wall, duration, n := Wall(z, w.start), w.end - w.start, WeekCount(day, last);
    var items := [w] + Weeks(z, wall, duration, n);
    WeeksAreWeekly(z, wall, duration, n);
    forall k: nat | 1 <= k && day + 7 * k <= last && WeekExists(z, wall, k)
      ensures HasWeek(z, wall, duration, items, k) && |items| >= 2
    {
      ExistingWeekIsThere(z, w, n, k);
      var i :| 0 <= i < |items| && OnWeek(z, wall, items[i], k);
      assert items[0] == w;
    }
    if |items| >= 2 {
      var x := Weeks(z, wall, duration, n)[0];
      assert InWeeks(z, wall, x, n);
      var k :| 1 <= k <= n && OnWeek(z, wall, x, k);
      assert WeekExists(z, wall, k);
    }
  }

  // ----- Materialising the windows -----

  /** Tries each sampled offset and keeps the first instant that shows the wall time. */
  method ResolveLocalTime(z: Zone, wall: int) returns (first: Option<int>)
    ensures first == LocalTime(z, wall)
  {
    var offsets := Sampled(z, wall);
    first := None;
    for k := 0 to |offsets|
      invariant first == FirstShown(z, wall, offsets[..k])
    {
      var candidate := wall - offsets[k];
      assert offsets[..k + 1][..k] == offsets[..k];
      if Wall(z, candidate) == wall && (first.None? || candidate < first.value) {
        first := Some(candidate);
      }
    }
    assert offsets[..|offsets|] == offsets;
  }

  method MaterializeWindows(c: Calendar, w: Window, rule: Option<Rule>) returns (r: Result<seq<Window>, Error>)
    ensures r == Occurrences(c, w, rule)
    ensures rule.None? ==> r == Ok([w])
  {
    hide Weeks, DayOf;
    if rule.None? {
      return Ok([w]);
    }
    if !rule.value.weekly || rule.value.zone.None? || rule.value.until.None? {
      return Err(InvalidInput);
    }
    var z, last := rule.value.zone.value, rule.value.until.value;
    var wall := Wall(z, w.start);
    var date := DayOf(wall);
    if last < date + 7 || last > c.yearLater(date) {
      return Err(InvalidInput);
    }
    var duration := w.end - w.start;
    if duration <= 0 || duration > DAY {
      return Err(InvalidInput);
    }
    var items, day, clock := [w], date + 7, wall - date * DAY;
    ghost var k: nat := 0;
    NoWeek(z, wall, duration);
    while day <= last
      invariant day == date + 7 * (k + 1) && items == [w] + Weeks(z, wall, duration, k) && date + 7 * k <= last
      decreases last - day
    {
      var start := ResolveLocalTime(z, day * DAY + clock);
      assert day * DAY + clock == wall + (k + 1) * 7 * DAY;
      WeeksSnoc(z, wall, duration, k);
      if start.Some? {
        items := items + [Window(start.value, start.value + duration)];
      }
      day, k := day + 7, k + 1;
    }
    assert k == WeekCount(date, last);
    if |items| < 2 {
      return Err(InvalidInput);
    }
    return Ok(items);
  }
}
