/** The rolling-window attempt counter in front of the two public claim endpoints. */
module RateLimiting {

  /** Whatever the caller keys on: an IP address, here. */
  datatype Address = Address(text: string)

  datatype Event = Attempt(from: Address, at: real) | Cleared(of: Address)

  /** Everything one address attempted since it was last cleared. Nothing is ever swept. */
  function SinceClear(history: seq<Event>, key: Address): seq<real>
    decreases |history|
  {
    if history == [] then []
    else
      var rest := history[..|history| - 1];
      match history[|history| - 1]
      case Attempt(from, at) => SinceClear(rest, key) + if from == key then [at] else []
      case Cleared(of) => if of == key then [] else SinceClear(rest, key)
  }

  /** The attempts still inside the window. */
  function Recent(attempts: seq<real>, now: real, window: real): (kept: seq<real>)
    ensures forall at | at in kept :: now - at < window
    decreases |attempts|
  {
    if attempts == [] then []
    else
      var last := attempts[|attempts| - 1];
      Recent(attempts[..|attempts| - 1], now, window) + if now - last < window then [last] else []
  }

  function Get(attempts: map<Address, seq<real>>, key: Address): seq<real> {
    if key in attempts then attempts[key] else []
  }

  lemma {:induction false} SweptStaysSwept(attempts: seq<real>, earlier: real, now: real, window: real)
    requires earlier <= now
    ensures Recent(Recent(attempts, earlier, window), now, window) == Recent(attempts, now, window)
    decreases |attempts|
  {
    if attempts != [] {
      var rest, last := attempts[..|attempts| - 1], attempts[|attempts| - 1];
      SweptStaysSwept(rest, earlier, now, window);
      var kept := Recent(rest, earlier, window);
      if earlier - last < window {
        assert (kept + [last])[..|kept|] == kept;
      } else {
        assert kept + [] == kept;
      }
    }
  }

  lemma RecentGrows(attempts: seq<real>, at: real, now: real, window: real)
    ensures Recent(attempts + [at], now, window)
            == Recent(attempts, now, window) + if now - at < window then [at] else []
  {
  }

  class Limiter {
    const maxAttempts: nat
    const window: real
    var attempts: map<Address, seq<real>>
    ghost var history: seq<Event>
    ghost var clock: real

    /** Past the latest sweep, the swept lists and the full history agree on every address. */
    ghost predicate Valid()
      reads this
    {
      forall key :: Recent(Get(attempts, key), clock, window) == Recent(SinceClear(history, key), clock, window)
    }

    constructor (maxAttempts: nat, window: real)
      ensures Valid() && history == [] && clock == 0.0 && this.maxAttempts == maxAttempts && this.window == window
    {
      this.maxAttempts, this.window, this.attempts := maxAttempts, window, map[];
      this.history, this.clock := [], 0.0;
    }

    /** The answer is the full history's, and afterwards the tracked addresses are exactly those
        with a live attempt. A clock that steps back may already have lost what it asks about. */
    method TooMany(key: Address, now: real) returns (refused: bool)
      requires Valid()
      modifies this
      ensures Valid() && history == old(history) && clock == if now > old(clock) then now else old(clock)
      ensures old(clock) <= now ==> (refused <==> |Recent(SinceClear(history, key), now, window)| >= maxAttempts)
      ensures old(clock) <= now ==>
                forall k :: k in attempts <==> Recent(SinceClear(history, k), now, window) != []
    {
      var before := attempts;
      attempts := map k | k in before && Recent(before[k], now, window) != [] :: Recent(before[k], now, window);
      refused := |Get(attempts, key)| >= maxAttempts;
      var later := if now > clock then now else clock;
      forall k
        ensures Recent(Get(attempts, k), later, window) == Recent(SinceClear(history, k), later, window)
        ensures clock <= now ==> Get(attempts, k) == Recent(SinceClear(history, k), now, window)
      {
        assert Get(attempts, k) == Recent(Get(before, k), now, window);
        SweptStaysSwept(Get(before, k), now, later, window);
        SweptStaysSwept(Get(before, k), clock, later, window);
        SweptStaysSwept(SinceClear(history, k), clock, later, window);
      }
      clock := later;
    }

    method Record(key: Address, now: real)
      requires Valid()
      modifies this
      ensures Valid() && history == old(history) + [Attempt(key, now)] && clock == old(clock)
    {
      ghost var before := attempts;
      attempts := attempts[key := Get(attempts, key) + [now]];
      history := history + [Attempt(key, now)];
      assert history[..|history| - 1] == old(history);
      forall k ensures Recent(Get(attempts, k), clock, window) == Recent(SinceClear(history, k), clock, window) {
        if k == key {
          RecentGrows(Get(before, k), now, clock, window);
          RecentGrows(SinceClear(old(history), k), now, clock, window);
        } else {
          assert SinceClear(history, k) == SinceClear(old(history), k) + [] == SinceClear(old(history), k);
        }
      }
    }

    method Clear(key: Address)
      requires Valid()
      modifies this
      ensures Valid() && history == old(history) + [Cleared(key)] && clock == old(clock)
    {
      attempts := attempts - {key};
      history := history + [Cleared(key)];
      assert history[..|history| - 1] == old(history);
    }
  }

  /** Consecutive times at least `gap` apart. */
  predicate Spaced(times: seq<real>, gap: real) {
    forall i | 0 < i < |times| :: times[i] - times[i - 1] >= gap
  }

  /** `n` gaps end to end. */
  function Gaps(gap: real, n: nat): real {
    if n == 0 then 0.0 else Gaps(gap, n - 1) + gap
  }

  lemma {:induction false} MoreGaps(gap: real, a: nat, b: nat)
    requires gap > 0.0 && a <= b
    ensures Gaps(gap, a) <= Gaps(gap, b)
    decreases b
  {
    if a < b {
      MoreGaps(gap, a, b - 1);
    }
  }

  /** Attempts a gap apart leave room for few of them in a window that ends `since` after the
      last. */
  lemma {:induction false} SpacedThinsTheWindow(times: seq<real>, gap: real, now: real, window: real, since: real)
    requires gap > 0.0 && Spaced(times, gap)
    requires times != [] ==> now - times[|times| - 1] >= since
    ensures if since >= window then Recent(times, now, window) == []
            else Gaps(gap, |Recent(times, now, window)|) < window - since + gap
    decreases |times|
  {
    if times != [] {
      var rest, last := times[..|times| - 1], times[|times| - 1];
      SpacedThinsTheWindow(rest, gap, now, window, now - last + gap);
    }
  }

  /** A caller whose attempts are `gap` apart is never refused, however long it goes on, as
      long as the budget would allow it one attempt a gap. */
  lemma SpacedCallersAreNeverRefused(times: seq<real>, gap: real, now: real, window: real, maxAttempts: nat)
    requires 0.0 < gap && window <= Gaps(gap, maxAttempts) && maxAttempts > 0
    requires Spaced(times, gap) && (times != [] ==> now - times[|times| - 1] >= gap)
    ensures |Recent(times, now, window)| < maxAttempts
  {
    SpacedThinsTheWindow(times, gap, now, window, gap);
    var kept := |Recent(times, now, window)|;
    if kept >= maxAttempts {
      MoreGaps(gap, maxAttempts, kept);
    }
  }
}
