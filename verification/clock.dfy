/** The night window on a clock with a fixed offset, where elapsed time is wall-clock time. Times
    are whole microseconds on the wall clock, counted from some midnight. */
module NightClock {
  import opened Wrappers

  const MINUTE := 60_000_000
  const DAY := 86_400_000_000
  const NIGHT_PARK_CHUNK := 20_000_000
  const WATCHDOG_TIMEOUT := NIGHT_PARK_CHUNK * 3 / 2

  /** `start` and `end` are minutes past midnight, as `HH:MM` writes them. */
  datatype Window = Window(enabled: bool, start: nat, end: nat)

  ghost predicate Wellformed(w: Window) {
    w.start < 1440 && w.end < 1440
  }

  predicate NeverNight(w: Window) {
    !w.enabled || w.start == w.end
  }

  function TimeOfDay(now: int): int {
    now % DAY
  }

  predicate InWindow(now: int, w: Window) {
    if NeverNight(w) then false
    else
      var start, end, current := w.start * MINUTE, w.end * MINUTE, TimeOfDay(now);
      if start < end then start <= current < end else current >= start || current < end
  }

  /** Night is from the start of the window up to its end, over midnight if the end comes first:
      `hh:mm` and anything up to the next minute is night exactly if the minute is in the window. */
  lemma MinuteOfNight(day: int, hh: nat, mm: nat, within: nat, w: Window)
    requires hh < 24 && mm < 60 && within < 60_000_000 && Wellformed(w)
    ensures var minute := hh * 60 + mm;
            InWindow(day * 86_400_000_000 + minute * 60_000_000 + within, w) <==>
            w.enabled && if w.start <= w.end then w.start <= minute < w.end else w.start <= minute || minute < w.end
  {
    var minute := hh * 60 + mm;
    var now := day * DAY + minute * MINUTE + within;
    assert 0 <= minute * MINUTE + within < DAY;
    assert TimeOfDay(now) == minute * MINUTE + within;
    assert w.start <= minute <==> w.start * MINUTE <= minute * MINUTE + within;
    assert minute < w.end <==> minute * MINUTE + within < w.end * MINUTE;
  }

  /** Half past eleven at night is inside 22:00-07:00, on any day, and noon is not. */
  lemma HalfPastElevenIsNight(day: int)
    ensures InWindow(day * 86_400_000_000 + 84_600_000_000, Window(true, 1320, 420))
    ensures !InWindow(day * 86_400_000_000 + 43_200_000_000, Window(true, 1320, 420))
  {
    MinuteOfNight(day, 23, 30, 0, Window(true, 1320, 420));
    MinuteOfNight(day, 12, 0, 0, Window(true, 1320, 420));
  }

  /** Nothing for a window that is never night; otherwise the next occurrence of whichever end
      comes next, tomorrow's if today's has passed. */
  function UntilBoundary(now: int, w: Window): Option<int> {
    if NeverNight(w) then None
    else
      var target := if InWindow(now, w) then w.end else w.start;
      var candidate := now - TimeOfDay(now) + target * MINUTE;
      Some((if candidate <= now then candidate + DAY else candidate) - now)
  }

  lemma LaterToday(now: int, t: int)
    requires now <= t
    ensures TimeOfDay(now) + (t - now) < DAY ==> TimeOfDay(t) == TimeOfDay(now) + (t - now)
    ensures DAY <= TimeOfDay(now) + (t - now) < 2 * DAY ==> TimeOfDay(t) == TimeOfDay(now) + (t - now) - DAY
  {
  }

  /** The answer is at most a day ahead, nothing changes until then, and it changes then. */
  lemma BoundaryIsTheNextChange(now: int, w: Window)
    requires Wellformed(w) && !NeverNight(w)
    ensures UntilBoundary(now, w).Some? && 0 < UntilBoundary(now, w).value <= DAY
    ensures forall t | now <= t < now + UntilBoundary(now, w).value :: InWindow(t, w) == InWindow(now, w)
    ensures InWindow(now + UntilBoundary(now, w).value, w) != InWindow(now, w)
  {
  }

  /** There is a boundary to wait for exactly when night both comes and goes: a window without one
      never changes, and what it never changes from is day. */
  lemma BoundaryExactlyWhenNightChanges(now: int, w: Window)
    requires Wellformed(w)
    ensures UntilBoundary(now, w).None? <==> forall t :: InWindow(t, w) == InWindow(now, w)
    ensures UntilBoundary(now, w).None? <==> forall t :: !InWindow(t, w)
  {
    if !NeverNight(w) {
      BoundaryIsTheNextChange(now, w);
    }
  }

  /** Every moment before the boundary looks ahead to the same one. */
  lemma SameBoundary(now: int, t: int, w: Window)
    requires Wellformed(w) && !NeverNight(w) && now <= t < now + UntilBoundary(now, w).value
    ensures UntilBoundary(t, w) == Some(now + UntilBoundary(now, w).value - t)
  {
    BoundaryIsTheNextChange(now, w);
    LaterToday(now, t);
  }

  /** The asleep branch of `_wait`, lap after lap: bounded parks that land on the boundary itself,
      none of them longer than a chunk, so that the heartbeat never looks late. */
  method ParkThroughNight(now: int, w: Window) returns (woken: int, parks: seq<int>)
    requires Wellformed(w) && InWindow(now, w)
    ensures woken == now + UntilBoundary(now, w).value && !InWindow(woken, w)
    ensures forall p | p in parks :: 0 < p <= NIGHT_PARK_CHUNK < WATCHDOG_TIMEOUT
    ensures forall k | 0 <= k <= |parks| :: now + Total(parks[..k]) <= woken
    ensures now + Total(parks) == woken
  {
    ghost var end := now + UntilBoundary(now, w).value;
    BoundaryIsTheNextChange(now, w);
    woken, parks := now, [];
    while InWindow(woken, w)
      invariant now <= woken <= end && now + Total(parks) == woken
      invariant forall p | p in parks :: 0 < p <= NIGHT_PARK_CHUNK
      invariant forall k | 0 <= k <= |parks| :: now + Total(parks[..k]) <= woken
      decreases end - woken
    {
      SameBoundary(now, woken, w);
      var boundary := UntilBoundary(woken, w).value;
      var park := if boundary < NIGHT_PARK_CHUNK then boundary else NIGHT_PARK_CHUNK;
      BoundaryIsTheNextChange(woken, w);
      assert (parks + [park])[..|parks|] == parks;
      assert forall k | 0 <= k <= |parks| :: (parks + [park])[..k] == parks[..k];
      parks := parks + [park];
      woken := woken + park;
      assert parks[..|parks|] == parks;
    }
  }

  function Total(parks: seq<int>): int {
    if parks == [] then 0 else Total(parks[..|parks| - 1]) + parks[|parks| - 1]
  }
}
