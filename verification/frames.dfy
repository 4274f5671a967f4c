/** The frame stream: which panels become frames for a browser, how often, and in what order. */
module Frames {
  import opened Wrappers
  import opened RateLimiting

  const MAX_FPS := 5.0
  const MAX_TRACKED_SCREENS := 256

  /** A float off the wire. */
  datatype Rate = NotANumber | Infinite | Finite(value: real)

  /** A rendered panel. */
  type Image = nat

  function Capped(fps: Rate): real {
    match fps
    case NotANumber => 0.0
    case Infinite => MAX_FPS
    case Finite(value) => if value < MAX_FPS then value else MAX_FPS
  }

  /** A rate is taken as asked, up to five a second; infinity is five, and not-a-number is none. */
  lemma RateAskedFor(fps: Rate)
    ensures Interval(Capped(fps)).None? <==> fps.NotANumber? || (fps.Finite? && fps.value <= 0.0)
    ensures fps.Finite? && 0.0 < fps.value <= 5.0 ==> Interval(Capped(fps)).value * fps.value == 1.0
    ensures fps.Infinite? || (fps.Finite? && fps.value > 5.0) ==> Interval(Capped(fps)).value * 5.0 == 1.0
  {
  }

  /** The shortest gap between two frames of one screen, or none for no frames at all. */
  function Interval(fps: real): (gap: Option<real>)
    ensures fps <= MAX_FPS && gap.Some? ==> gap.value >= 1.0 / MAX_FPS
    ensures gap.None? <==> fps <= 0.0
    ensures gap.Some? ==> gap.value * fps == 1.0 && gap.value > 0.0
  {
    if fps <= 0.0 then None
    else
      Reciprocal(fps);
      Some(1.0 / fps)
  }

  lemma GapIsDue(gone: real, gap: real, fps: real)
    requires fps > 0.0 && gap * fps == 1.0
    ensures gone >= gap <==> gone * fps >= 1.0
  {
    if gone >= gap {
      assert (gone - gap) * fps >= 0.0;
    } else {
      assert (gap - gone) * fps > 0.0;
    }
  }

  lemma Reciprocal(fps: real)
    requires 0.0 < fps
    ensures fps <= MAX_FPS ==> 1.0 / fps >= 1.0 / MAX_FPS
  {
  }

  function Watched<T>(m: map<nat, T>, screens: set<nat>): map<nat, T> {
    map id | id in m && id in screens :: m[id]
  }

  /** What `_forget_unwatched` keeps of a table: everything, unless it has grown past the limit. */
  function Remembered<T>(m: map<nat, T>, screens: set<nat>): map<nat, T> {
    if |m| > MAX_TRACKED_SCREENS then Watched(m, screens) else m
  }

  /** What a table no longer holds. */
  function Lost<T, U>(before: map<nat, T>, after: map<nat, U>): set<nat> {
    before.Keys - after.Keys
  }

  function Log<T>(m: map<nat, seq<T>>, id: nat): seq<T> {
    if id in m then m[id] else []
  }

  predicate Counting(numbers: seq<nat>) {
    forall i | 0 <= i < |numbers| :: numbers[i] == i
  }

  /** Only what somebody watches waits, and nothing waits in a closed stream. */
  ghost predicate Buffered(pending: map<nat, Image>, enabled: set<nat>, closed: bool) {
    pending.Keys <= enabled && (closed ==> pending == map[])
  }

  /** Every accepted panel was handed over, waits, was replaced by a newer one, or went with a
      subscription. */
  ghost predicate Balanced(offered: nat, taken: nat, waiting: nat, dropped: nat, discarded: nat) {
    offered == taken + waiting + dropped + discarded
  }

  /** Of every screen whose last time was never forgotten: the accepted offers are an interval of
      the fastest rate apart, and the table remembers the latest. */
  ghost predicate Paced(accepted: map<nat, seq<real>>, last: map<nat, real>, lost: set<nat>) {
    forall id | id !in lost ::
      && Spaced(Log(accepted, id), 1.0 / MAX_FPS)
      && (id in last <==> Log(accepted, id) != [])
      && (id in last ==> last[id] == Log(accepted, id)[|Log(accepted, id)| - 1])
  }

  /** Of every screen whose number was never forgotten: its frames are numbered from nought up,
      with no gap and no restart, and the table knows the next. */
  ghost predicate Numbered(numbered: map<nat, seq<nat>>, next: map<nat, nat>, lost: set<nat>) {
    forall id | id !in lost ::
      Counting(Log(numbered, id)) && |Log(numbered, id)| == if id in next then next[id] else 0
  }

  /** A screen is forgotten only when its table has outgrown the limit and nobody watches it. */
  lemma ForgetsNoneWatched<T>(m: map<nat, T>, screens: set<nat>)
    ensures Lost(m, Remembered(m, screens)) !! screens
    ensures |m| <= MAX_TRACKED_SCREENS ==> Lost(m, Remembered(m, screens)) == {}
    ensures Remembered(m, screens).Keys <= m.Keys
    ensures forall id | id in Remembered(m, screens) :: Remembered(m, screens)[id] == m[id]
    ensures |m| > MAX_TRACKED_SCREENS ==> Remembered(m, screens).Keys == m.Keys * screens
  {
  }

  /** Everything a browser, a worker, the pump or a push may ask of the stream. */
  datatype Call =
    | Subscribe(screens: set<nat>, rate: Option<Rate>)
    | Unsubscribe
    | Remove(screens: set<nat>)
    | Panel(screen: nat, image: Image, now: real)
    | Pump
    | Frame(screen: nat, bytes: nat, maxBytes: nat)
    | Shut

  /** A call that lets go of nothing this screen needs remembered. */
  predicate Spares(call: Call, screen: nat) {
    !call.Unsubscribe? && (call.Subscribe? ==> screen in call.screens)
  }

  /** Every subscription is to this screen too, and nobody lets go of all of them. */
  predicate AlwaysWatched(calls: seq<Call>, screen: nat) {
    forall c | c in calls :: Spares(c, screen)
  }

  function Named(call: Call): set<nat> {
    if call.Panel? || call.Frame? then {call.screen} else {}
  }

  function Mentioned(calls: seq<Call>): set<nat> {
    set c, screen | c in calls && screen in Named(c) :: screen
  }

  /** The screens a table knows, and all these calls mention, are no more than it may track. */
  predicate Few(known: set<nat>, calls: seq<Call>) {
    |known + Mentioned(calls)| <= MAX_TRACKED_SCREENS
  }

  lemma MentionedMore(calls: seq<Call>, done: nat)
    requires done < |calls|
    ensures Mentioned(calls[..done + 1]) == Mentioned(calls[..done]) + Named(calls[done])
  {
    assert calls[..done + 1] == calls[..done] + [calls[done]];
  }

  lemma FewStayFew(known: set<nat>, now: set<nat>, calls: seq<Call>, done: nat)
    requires done <= |calls| && now <= known + Mentioned(calls[..done])
    ensures Few(known, calls) ==> |now| <= MAX_TRACKED_SCREENS
  {
    var all := known + Mentioned(calls);
    assert now <= all;
    assert all == now + (all - now);
  }

  lemma ForgettingKeepsPace(accepted: map<nat, seq<real>>, last: map<nat, real>, lost: set<nat>, screens: set<nat>)
    requires Paced(accepted, last, lost)
    ensures var kept := Remembered(last, screens); Paced(accepted, kept, lost + Lost(last, kept))
  {
  }

  lemma ForgettingKeepsNumbers(numbered: map<nat, seq<nat>>, next: map<nat, nat>, lost: set<nat>, screens: set<nat>)
    requires Numbered(numbered, next, lost)
    ensures var kept := Remembered(next, screens); Numbered(numbered, kept, lost + Lost(next, kept))
  {
  }

  lemma AcceptingKeepsPace(accepted: map<nat, seq<real>>, last: map<nat, real>, lost: set<nat>, screen: nat, now: real)
    requires Paced(accepted, last, lost) && (screen in last ==> now - last[screen] >= 1.0 / MAX_FPS)
    ensures Paced(accepted[screen := Log(accepted, screen) + [now]], last[screen := now], lost)
    ensures screen !in lost && Log(accepted, screen) != [] ==>
              now - Log(accepted, screen)[|Log(accepted, screen)| - 1] >= 1.0 / MAX_FPS
  {
  }

  lemma NumberingKeepsNumbers(numbered: map<nat, seq<nat>>, next: map<nat, nat>, lost: set<nat>, screen: nat)
    requires Numbered(numbered, next, lost)
    ensures var n := if screen in next then next[screen] else 0;
            && Numbered(numbered[screen := Log(numbered, screen) + [n]], next[screen := n + 1], lost)
            && (screen !in lost ==> n == |Log(numbered, screen)|)
  {
  }

  /** Which screens are watched after a call, and after several. */
  function WatchedBy(call: Call, enabled: set<nat>): set<nat> {
    match call
    case Subscribe(screens, _) => screens
    case Unsubscribe => {}
    case Remove(screens) => enabled - screens
    case _ => enabled
  }

  function WatchedAfter(calls: seq<Call>, enabled: set<nat>): set<nat> {
    if calls == [] then enabled
    else WatchedBy(calls[|calls| - 1], WatchedAfter(calls[..|calls| - 1], enabled))
  }

  predicate EverShut(calls: seq<Call>) {
    Shut in calls
  }

  lemma NobodyCalled(calls: seq<Call>, enabled: set<nat>)
    ensures WatchedAfter(calls[..0], enabled) == enabled && !EverShut(calls[..0])
  {
  }

  lemma WatchedOnce(calls: seq<Call>, i: nat, enabled: set<nat>)
    requires i < |calls|
    ensures WatchedAfter(calls[..i + 1], enabled) == WatchedBy(calls[i], WatchedAfter(calls[..i], enabled))
    ensures EverShut(calls[..i + 1]) <==> EverShut(calls[..i]) || calls[i].Shut?
  {
    assert calls[..i + 1] == calls[..i] + [calls[i]];
    assert calls[..i + 1][..i] == calls[..i];
  }

  class FrameStream {
    var fps: real
    var enabled: set<nat>
    var pending: map<nat, Image>
    var last: map<nat, real>
    var next: map<nat, nat>
    var closed: bool
    var dropped: nat

    /** Everything that was ever accepted and numbered, by screen; how many frames were handed
        over and how many thrown away with a subscription; and the screens whose last time or
        whose number has ever been forgotten. */
    ghost var accepted: map<nat, seq<real>>
    ghost var numbered: map<nat, seq<nat>>
    ghost var offered: nat
    ghost var taken: nat
    ghost var discarded: nat
    ghost var paceLost: set<nat>
    ghost var countLost: set<nat>

    ghost predicate Valid()
      reads this
    {
      && fps <= MAX_FPS && Buffered(pending, enabled, closed) && Balanced(offered, taken, |pending|, dropped, discarded)
      && Paced(accepted, last, paceLost) && Numbered(numbered, next, countLost)
    }

    constructor (fps: Rate)
      ensures Valid() && enabled == {} && accepted == map[] && numbered == map[] && paceLost == {} && countLost == {}
      ensures this.fps == Capped(fps) && pending == map[] && last == map[] && next == map[] && !closed && dropped == 0
    {
      this.fps := Capped(fps);
      enabled, pending, last, next, closed, dropped := {}, map[], map[], map[], false, 0;
      accepted, numbered, offered, taken, discarded, paceLost, countLost := map[], map[], 0, 0, 0, {}, {};
    }

    /** Replaces the watched set; what waits for a screen nobody watches any more goes with it. */
    method Watch(screens: set<nat>)
      requires Valid()
      modifies `enabled, `pending, `last, `next, `discarded, `paceLost, `countLost
      ensures Valid() && enabled == screens
      ensures pending == Watched(old(pending), screens)
      ensures last == Remembered(old(last), screens) && next == Remembered(old(next), screens)
      ensures paceLost == old(paceLost) + Lost(old(last), last)
      ensures countLost == old(countLost) + Lost(old(next), next)
    {
      hide Paced, Numbered, Watched, Remembered, Buffered, Lost;
      Fewer(pending, screens, enabled, closed);
      var left := Watched(pending, screens);
      discarded := discarded + |pending| - |left|;
      enabled, pending := screens, left;
      Forget();
    }

    /** The pruning of the two tables. */
    method Forget()
      requires Valid()
      modifies `last, `next, `paceLost, `countLost
      ensures Valid()
      ensures last == Remembered(old(last), enabled) && next == Remembered(old(next), enabled)
      ensures paceLost == old(paceLost) + Lost(old(last), last)
      ensures countLost == old(countLost) + Lost(old(next), next)
    {
      hide Paced, Numbered, Remembered, Buffered, Lost;
      ForgettingKeepsPace(accepted, last, paceLost, enabled);
      ForgettingKeepsNumbers(numbered, next, countLost, enabled);
      var times, numbers := Remembered(last, enabled), Remembered(next, enabled);
      paceLost, countLost := paceLost + Lost(last, times), countLost + Lost(next, numbers);
      last, next := times, numbers;
    }

    /** `enable` and `disable`. */
    method Enable(screens: set<nat>, rate: Option<Rate>)
      requires Valid()
      modifies `fps, `enabled, `pending, `last, `next, `discarded, `paceLost, `countLost
      ensures Valid() && enabled == screens && pending == Watched(old(pending), screens)
      ensures pending.Keys == old(pending).Keys * screens && forall s | s in pending :: pending[s] == old(pending)[s]
      ensures fps == if rate.Some? then Capped(rate.value) else old(fps)
      ensures last.Keys <= old(last).Keys && next.Keys <= old(next).Keys
      ensures forall s :: s !in old(paceLost) && (s in screens || |old(last)| <= MAX_TRACKED_SCREENS) ==> s !in paceLost
      ensures forall s :: s !in old(countLost) && (s in screens || |old(next)| <= MAX_TRACKED_SCREENS) ==>
                s !in countLost
    {
      hide Paced, Numbered, Lost, Remembered;
      ForgetsNoneWatched(last, screens);
      ForgetsNoneWatched(next, screens);
      Watch(screens);
      if rate.Some? {
        fps := Capped(rate.value);
      }
    }

    method Disable()
      requires Valid()
      modifies `enabled, `pending, `last, `next, `discarded, `paceLost, `countLost
      ensures Valid() && enabled == {} && pending == map[]
      ensures last.Keys <= old(last).Keys && next.Keys <= old(next).Keys
      ensures |old(last)| <= MAX_TRACKED_SCREENS ==> paceLost == old(paceLost)
      ensures |old(next)| <= MAX_TRACKED_SCREENS ==> countLost == old(countLost)
    {
      hide Paced, Numbered, Lost, Remembered;
      ForgetsNoneWatched(last, {});
      ForgetsNoneWatched(next, {});
      Watch({});
    }

    /** A deleted screen leaves the watched set and the buffer, and nothing else. */
    method Retire(screens: set<nat>)
      requires Valid()
      modifies `enabled, `pending, `discarded
      ensures Valid() && enabled == old(enabled) - screens && pending == old(pending) - screens
    {
      hide Paced, Numbered, Buffered;
      if screens == {} {
        assert pending - screens == pending && enabled - screens == enabled;
        return;
      }
      FewerWithout(pending, screens, enabled, closed);
      var left := pending - screens;
      enabled := enabled - screens;
      discarded := discarded + |pending| - |left|;
      pending := left;
    }

    method Close()
      requires Valid()
      modifies `closed, `pending, `discarded
      ensures Valid() && closed && pending == map[]
    {
      closed := true;
      discarded := discarded + |pending|;
      pending := map[];
    }

    /** Whether a panel offered now would be taken. */
    method Wants(screen: nat, now: real) returns (wants: bool)
      ensures wants <==> !closed && screen in enabled && fps > 0.0
                         && (screen in last ==> (now - last[screen]) * fps >= 1.0)
      ensures wants && fps <= MAX_FPS && screen in last ==> now - last[screen] >= 1.0 / MAX_FPS
    {
      if closed || screen !in enabled {
        return false;
      }
      var interval := Interval(fps);
      if interval.None? {
        return false;
      }
      if screen in last {
        GapIsDue(now - last[screen], interval.value, fps);
      }
      if screen in last && now - last[screen] < interval.value {
        return false;
      }
      wants := true;
    }

    /** Taken exactly when the stream is open, the screen is watched, frames are wanted at all and
        the interval has passed since the last one this remembers. The newest panel wins. */
    method Offer(screen: nat, image: Image, now: real) returns (took: bool)
      requires Valid()
      modifies `pending, `last, `dropped, `accepted, `offered
      ensures Valid()
      ensures took <==> !closed && screen in enabled && fps > 0.0
                        && (screen in old(last) ==> (now - old(last)[screen]) * fps >= 1.0)
      ensures !took ==>
                pending == old(pending) && last == old(last) && dropped == old(dropped) && accepted == old(accepted)
      ensures took ==>
                && pending == old(pending)[screen := image] && last == old(last)[screen := now]
                && dropped == old(dropped) + (if screen in old(pending) then 1 else 0)
                && accepted == old(accepted)[screen := Log(old(accepted), screen) + [now]]
      ensures took && screen !in paceLost && Log(old(accepted), screen) != [] ==>
                now - Log(old(accepted), screen)[|Log(old(accepted), screen)| - 1] >= 1.0 / MAX_FPS
    {
      hide Paced, Numbered, Log, Interval, Buffered, Balanced;
      took := Wants(screen, now);
      if !took {
        return;
      }
      last := last[screen := now];
      if screen in pending {
        dropped := dropped + 1;
      }
      OneMorePending(pending, screen, image, enabled, closed);
      StillBalanced(offered, taken, |pending|, old(dropped), discarded, screen in pending);
      pending := pending[screen := image];
      AcceptingKeepsPace(accepted, old(last), paceLost, screen, now);
      accepted := accepted[screen := Log(accepted, screen) + [now]];
      offered := offered + 1;
    }

    /** Everything waiting, once. */
    method Take() returns (waiting: map<nat, Image>)
      requires Valid()
      modifies `pending, `taken
      ensures Valid() && waiting == old(pending) && pending == map[] && taken == old(taken) + |waiting|
    {
      waiting := pending;
      taken := taken + |pending|;
      pending := map[];
    }

    /** A frame somebody still watches takes the screen's next number; one that is refused takes
        none, so the numbers of a screen stay 0, 1, 2 and so on. */
    method Encode(screen: nat, bytes: nat, maxBytes: nat) returns (number: Option<nat>)
      requires Valid()
      modifies `next, `numbered
      ensures Valid()
      ensures number.Some? <==> bytes <= maxBytes && screen in enabled
      ensures number.None? ==> next == old(next) && numbered == old(numbered)
      ensures number.Some? ==>
                && numbered == old(numbered)[screen := Log(old(numbered), screen) + [number.value]]
                && next == old(next)[screen := number.value + 1]
                && (screen !in countLost ==> number.value == |Log(old(numbered), screen)|)
    {
      hide Paced, Numbered;
      if bytes > maxBytes {
        return None;
      }
      if screen !in enabled {
        return None;
      }
      NumberingKeepsNumbers(numbered, next, countLost, screen);
      var n := if screen in next then next[screen] else 0;
      next := next[screen := n + 1];
      numbered := numbered[screen := Log(numbered, screen) + [n]];
      number := Some(n);
    }

    /** Any calls whatever, in any order. What comes of it is balanced; and of every screen that
        was watched throughout, or of every one if few are ever mentioned, the accepted panels are
        a fifth of a second apart and the frames are numbered 0, 1, 2 and so on. */
    method Serve(calls: seq<Call>)
      requires Valid()
      modifies this
      ensures Valid() && pending.Keys <= enabled && offered == taken + |pending| + dropped + discarded
      ensures enabled == WatchedAfter(calls, old(enabled)) && (closed <==> old(closed) || EverShut(calls))
      ensures forall s :: s !in old(paceLost) && (AlwaysWatched(calls, s) || Few(old(last).Keys, calls)) ==>
                Spaced(Log(accepted, s), 1.0 / MAX_FPS)
      ensures forall s :: s !in old(countLost) && (AlwaysWatched(calls, s) || Few(old(next).Keys, calls)) ==>
                Counting(Log(numbered, s))
    {
      hide Paced, Numbered, Few, Log, Mentioned, Named, Buffered, Spares, Spaced, Counting, WatchedAfter, WatchedBy,
        EverShut;
      NobodyCalled(calls, enabled);
      for i := 0 to |calls|
        invariant Valid()
        invariant enabled == WatchedAfter(calls[..i], old(enabled)) && (closed <==> old(closed) || EverShut(calls[..i]))
        invariant last.Keys <= old(last).Keys + Mentioned(calls[..i])
                  && next.Keys <= old(next).Keys + Mentioned(calls[..i])
        invariant forall s :: s !in old(paceLost) && (AlwaysWatched(calls, s) || Few(old(last).Keys, calls)) ==>
          s !in paceLost
        invariant forall s :: s !in old(countLost) && (AlwaysWatched(calls, s) || Few(old(next).Keys, calls)) ==>
          s !in countLost
      {
        MentionedMore(calls, i);
        FewStayFew(old(last).Keys, last.Keys, calls, i);
        FewStayFew(old(next).Keys, next.Keys, calls, i);
        assert calls[i] in calls;
        WatchedOnce(calls, i, old(enabled));
        ServeOne(calls[i]);
      }
      assert calls[..|calls|] == calls;
      KeptMeans(accepted, last, paceLost, numbered, next, countLost, pending, enabled, closed);
    }

    method ServeOne(call: Call)
      requires Valid()
      modifies this
      ensures Valid() && enabled == WatchedBy(call, old(enabled)) && (closed <==> old(closed) || call.Shut?)
      ensures last.Keys <= old(last).Keys + Named(call) && next.Keys <= old(next).Keys + Named(call)
      ensures forall s :: s !in old(paceLost) && (Spares(call, s) || |old(last).Keys| <= MAX_TRACKED_SCREENS) ==>
                s !in paceLost
      ensures forall s :: s !in old(countLost) && (Spares(call, s) || |old(next).Keys| <= MAX_TRACKED_SCREENS) ==>
                s !in countLost
    {
      hide Paced, Numbered, Log, Interval, Buffered, Balanced, Watched, Capped, Remembered, Lost;
      match call {
        case Subscribe(screens, rate) => Enable(screens, rate);
        case Unsubscribe => Disable();
        case Remove(screens) => Retire(screens);
        case Panel(screen, image, now) => var _ := Offer(screen, image, now);
        case Pump => var _ := Take();
        case Frame(screen, bytes, maxBytes) => var _ := Encode(screen, bytes, maxBytes);
        case Shut => Close();
      }
    }
  }

  lemma KeptMeans(accepted: map<nat, seq<real>>, last: map<nat, real>, paceLost: set<nat>,
                  numbered: map<nat, seq<nat>>, next: map<nat, nat>, countLost: set<nat>,
                  pending: map<nat, Image>, enabled: set<nat>, closed: bool)
    requires Paced(accepted, last, paceLost) && Numbered(numbered, next, countLost)
             && Buffered(pending, enabled, closed)
    ensures forall s :: s !in paceLost ==> Spaced(Log(accepted, s), 1.0 / MAX_FPS)
    ensures forall s :: s !in countLost ==> Counting(Log(numbered, s))
    ensures pending.Keys <= enabled
  {
  }

  lemma Fewer(pending: map<nat, Image>, screens: set<nat>, enabled: set<nat>, closed: bool)
    requires Buffered(pending, enabled, closed)
    ensures |Watched(pending, screens)| <= |pending| && Buffered(Watched(pending, screens), screens, closed)
  {
    var kept := Watched(pending, screens).Keys;
    assert pending.Keys == kept + (pending.Keys - kept);
  }

  lemma FewerWithout(pending: map<nat, Image>, screens: set<nat>, enabled: set<nat>, closed: bool)
    requires Buffered(pending, enabled, closed)
    ensures |pending - screens| <= |pending| && Buffered(pending - screens, enabled - screens, closed)
  {
  }

  lemma OneMorePending(pending: map<nat, Image>, screen: nat, image: Image, enabled: set<nat>, closed: bool)
    requires Buffered(pending, enabled, closed) && screen in enabled && !closed
    ensures |pending[screen := image]| == |pending| + if screen in pending then 0 else 1
    ensures Buffered(pending[screen := image], enabled, closed)
  {
  }

  lemma StillBalanced(offered: nat, taken: nat, waiting: nat, dropped: nat, discarded: nat, again: bool)
    requires Balanced(offered, taken, waiting, dropped, discarded)
    ensures Balanced(offered + 1, taken, waiting + if again then 0 else 1, dropped + if again then 1 else 0, discarded)
  {
  }
}
