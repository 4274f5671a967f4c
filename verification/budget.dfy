/** Time: the deadline the waits of a shutdown share, and what the bus guard offers each worker out
    of its own. A wait lasts as long as it likes up to its timeout. A signal may land between any
    two steps: between asking what is left and the wait that is to pay for, inside a wait, and
    between finding that there is no deadline and setting one. */
module Budgets {
  import opened Wrappers

  const SHUTDOWN_BUDGET := 10.0
  const BUS_GUARD_BUDGET := 1.0
  const BUS_GUARD_PER_SCREEN := 0.25

  function Remaining(end: real, now: real): (left: real)
    ensures left >= 0.0 && (now <= end ==> now + left == end)
  {
    if end - now > 0.0 then end - now else 0.0
  }

  // ---------------------------------------------------------------- the clock of a shutdown

  /** `waited` is what all the waits have come to. `overtaken` counts the waits somebody else's
      waiting got in front of, and the deadlines set over another. */
  datatype Clock = Clock(now: real, end: Option<real>, waited: real, overtaken: nat)

  /** `remaining()`. */
  function Left(c: Clock): (left: real)
    ensures left >= 0.0
  {
    if c.end.Some? then Remaining(c.end.value, c.now) else 0.0
  }

  function Install(c: Clock, end: real): Clock {
    c.(end := Some(end), overtaken := c.overtaken + if c.end.Some? then 1 else 0)
  }

  /** Whoever asked what was left meant the waiting to come to `mark` in all. A wait that begins
      with `left` of that still to spend is overtaken if it now comes to more. */
  predicate Late(c: Clock, mark: real, left: real) {
    c.waited + left > mark
  }

  function Begin(c: Clock, mark: real, left: real): Clock {
    c.(overtaken := c.overtaken + if Late(c, mark, left) then 1 else 0)
  }

  function Marked(c: Clock, mark: real, left: real): real {
    if Late(c, mark, left) then c.waited + left else mark
  }

  function Spend(c: Clock, took: real): Clock {
    c.(now := c.now + took, waited := c.waited + took)
  }

  /** A budget, and another for each time something was overtaken. */
  function Allowed(budget: real, overtaken: nat): real {
    if overtaken == 0 then budget else Allowed(budget, overtaken - 1) + budget
  }

  /** Even waiting until then would stay within what is allowed. */
  ghost predicate Within(c: Clock, budget: real, until: real) {
    c.waited + Remaining(until, c.now) <= Allowed(budget, c.overtaken)
  }

  ghost predicate Sane(c: Clock, budget: real) {
    && budget >= 0.0 && c.waited >= 0.0
    && match c.end
       case None => c.waited == 0.0 && c.overtaken == 0
       case Some(end) => end <= c.now + budget && Within(c, budget, end)
  }

  /** Time has passed, and with it at least what was waited. */
  ghost predicate Since(a: Clock, z: Clock) {
    && 0.0 <= z.waited - a.waited <= z.now - a.now && a.overtaken <= z.overtaken
    && (a.end.Some? ==> z.end == a.end)
  }

  lemma {:induction false} AllowedGrows(budget: real, a: nat, z: nat)
    requires budget >= 0.0 && a <= z
    ensures budget <= Allowed(budget, a) <= Allowed(budget, z)
    decreases z
  {
    if a < z {
      AllowedGrows(budget, a, z - 1);
    } else if a > 0 {
      AllowedGrows(budget, a - 1, a - 1);
    }
  }

  /** Whatever time passes, waiting until then stays within what is allowed, if the waiting that
      passed did. */
  lemma StillWithin(a: Clock, z: Clock, budget: real, until: real)
    requires budget >= 0.0 && Since(a, z) && Within(a, budget, until) && z.waited <= Allowed(budget, z.overtaken)
    ensures Within(z, budget, until)
  {
    AllowedGrows(budget, a.overtaken, z.overtaken);
  }

  lemma SaneIsAllowed(c: Clock, budget: real)
    requires Sane(c, budget)
    ensures c.waited <= Allowed(budget, c.overtaken)
    ensures c.end.Some? ==> c.waited + Left(c) <= Allowed(budget, c.overtaken) && Left(c) <= budget
  {
  }

  lemma InstallIsSane(c: Clock, budget: real, end: real)
    requires Sane(c, budget) && end <= c.now + budget
    ensures Sane(Install(c, end), budget)
  {
    SaneIsAllowed(c, budget);
  }

  /** A wait may begin: what its measurement still has to spend stays within what is allowed, at
      the price of one more budget if it was overtaken. */
  lemma BeginIsSane(c: Clock, budget: real, mark: real, left: real)
    requires Sane(c, budget) && c.end.Some? && 0.0 <= left <= budget && mark <= Allowed(budget, c.overtaken)
    ensures var z := Begin(c, mark, left);
            && Sane(z, budget) && Since(c, z) && Marked(c, mark, left) <= Allowed(budget, z.overtaken)
            && z.waited + left <= Marked(c, mark, left)
  {
    AllowedGrows(budget, c.overtaken, c.overtaken + 1);
    SaneIsAllowed(c, budget);
  }

  lemma SpendIsSane(c: Clock, budget: real, until: real, took: real)
    requires Sane(c, budget) && c.end.Some? && Within(c, budget, until) && 0.0 <= took <= Remaining(until, c.now)
    ensures Sane(Spend(c, took), budget) && Since(c, Spend(c, took)) && Within(Spend(c, took), budget, until)
  {
    StillWithin(c, Spend(c, took), budget, c.end.value);
    StillWithin(c, Spend(c, took), budget, until);
  }

  lemma BegunIsWithin(c: Clock, budget: real, until: real, grant: real, left: real, marked: real)
    requires 0.0 <= grant <= left && c.waited + left <= marked <= Allowed(budget, c.overtaken) && until == c.now + grant
    ensures Within(c, budget, until)
  {
  }

  lemma Working(c: Clock, budget: real, work: real)
    requires Sane(c, budget) && work >= 0.0
    ensures Sane(c.(now := c.now + work), budget) && Since(c, c.(now := c.now + work))
  {
  }

  lemma SinceOn(a: Clock, b: Clock, c: Clock)
    requires Since(a, b) && Since(b, c)
    ensures Since(a, c)
  {
  }

  lemma Later(a: Clock, z: Clock)
    requires Since(a, z)
    ensures a.now <= z.now
  {
  }

  lemma StaysSet(a: Clock, z: Clock)
    requires Since(a, z) && a.end.Some?
    ensures z.end == a.end
  {
  }

  lemma AllowedSince(a: Clock, z: Clock, budget: real)
    requires Since(a, z) && budget >= 0.0
    ensures Allowed(budget, a.overtaken) <= Allowed(budget, z.overtaken)
  {
    AllowedGrows(budget, a.overtaken, z.overtaken);
  }

  lemma Dated(found: Clock, read: Clock, z: Clock, budget: real)
    requires Sane(z, budget) && Since(found, read) && Since(read, z) && found.end.None?
    ensures var dated := Install(z, read.now + budget); Sane(dated, budget) && Since(found, dated)
  {
    InstallIsSane(z, budget, read.now + budget);
  }

  // ---------------------------------------------------------------- a shutdown

  predicate AllDown(down: seq<bool>) {
    forall k | 0 <= k < |down| :: down[k]
  }

  /** What a tunnel's child is sent: nothing if there is none, and a kill unless it could be told to
      terminate and did. */
  function Signalled(tunnel: nat, child: bool, terminates: bool, obeys: bool, grace: real): seq<Sent> {
    if !child then []
    else (if terminates then [Terminate(tunnel, grace)] else [])
         + if terminates && obeys then [] else [Kill(tunnel, grace)]
  }

  datatype Sent = Terminate(tunnel: nat, grace: real) | Kill(tunnel: nat, grace: real)

  class Shutdown {
    const budget: real
    const workers: nat
    const pollers: nat
    var clock: Clock
    /** Which tunnels still have a child, which panels have been shut down, and how many more
        signals will come. */
    var children: seq<bool>
    var down: seq<bool>
    var signals: nat
    /** How long each thread was waited for at most, in order. */
    ghost var offers: seq<real>
    /** What was sent to which tunnel's child, and how long it was given at most. */
    ghost var sent: seq<Sent>

    ghost predicate Valid()
      reads this
    {
      Sane(clock, budget)
    }

    /** Every thread one stop waits for: the workers, the pollers, the tunnels and the reaper. */
    function Threads(): nat
      reads `children
    {
      workers + pollers + |children| + 1
    }

    constructor (workers: nat, pollers: nat, tunnels: nat, panels: nat, signals: nat, now: real)
      ensures Valid() && budget == SHUTDOWN_BUDGET == 10.0 && |down| == panels && this.signals == signals
      ensures clock == Clock(now, None, 0.0, 0) && offers == [] && sent == []
      ensures this.workers == workers && this.pollers == pollers && |children| == tunnels
      ensures (forall k | 0 <= k < tunnels :: children[k]) && forall k | 0 <= k < panels :: !down[k]
    {
      budget := SHUTDOWN_BUDGET;
      this.workers, this.pollers, this.signals := workers, pollers, signals;
      children, down := seq(tunnels, _ => true), seq(panels, _ => false);
      clock := Clock(now, None, 0.0, 0);
      offers, sent := [], [];
    }

    /** What any stretch of a shutdown leaves standing: its deadline, every panel that was down and
        every tunnel without a child; a deadline set meanwhile is a whole budget away; a signal that
        landed shut every panel down; and nothing is overtaken unless one did. */
    twostate predicate Kept()
      reads this
    {
      && Valid() && Since(old(clock), clock) && signals <= old(signals)
      && |children| == |old(children)| && |down| == |old(down)|
      && (forall k | 0 <= k < |down| && old(down)[k] :: down[k])
      && (forall k | 0 <= k < |children| && !old(children)[k] :: !children[k]) && old(offers) <= offers
      && old(sent) <= sent && (signals < old(signals) ==> AllDown(down))
      && (signals == old(signals) ==> clock.overtaken == old(clock).overtaken)
      && (old(clock).end.None? && clock.end.Some? ==> clock.end.value >= old(clock).now + budget)
    }

    /** Work between two steps, during which a signal may land. */
    method Gap()
      requires Valid()
      modifies `clock, `children, `down, `signals, `offers, `sent
      ensures Kept()
      ensures signals == old(signals) ==>
                clock == old(clock).(now := clock.now) && offers == old(offers) && children == old(children)
                && sent == old(sent)
      decreases signals, 0
    {
      hide Since, Sane;
      var work: real := *;
      Working(clock, budget, if work > 0.0 then work else 0.0);
      clock := clock.(now := clock.now + if work > 0.0 then work else 0.0);
      if signals > 0 {
        var lands: bool := *;
        if lands {
          ghost var before := clock;
          signals := signals - 1;
          Stop();
          SinceOn(old(clock), before, clock);
        }
      }
    }

    /** One wait, of at most `grant`, out of the `left` that whoever asked has still to spend. A
        signal landing inside takes its time out of this wait's own. */
    method Wait(grant: real, left: real, mark: real) returns (marked: real)
      requires Valid() && clock.end.Some? && 0.0 <= grant <= left <= budget && mark <= Allowed(budget, clock.overtaken)
      modifies `clock, `children, `down, `signals, `offers, `sent
      ensures Valid() && Since(old(clock), clock) && signals <= old(signals)
      ensures |children| == |old(children)| && |down| == |old(down)|
      ensures forall k | 0 <= k < |down| && old(down)[k] :: down[k]
      ensures forall k | 0 <= k < |children| && !old(children)[k] :: !children[k]
      ensures old(offers) <= offers && (signals == old(signals) ==> offers == old(offers))
      ensures old(sent) <= sent && (signals == old(signals) ==> sent == old(sent))
      ensures signals < old(signals) ==> AllDown(down)
      ensures marked == Marked(old(clock), mark, left) <= Allowed(budget, clock.overtaken)
      ensures signals == old(signals) ==>
                && clock.waited <= old(clock).waited + grant
                && clock.overtaken == old(clock).overtaken + if Late(old(clock), mark, left) then 1 else 0
      decreases signals, 1
    {
      hide Since, Sane, Late, Marked, Allowed;
      BeginIsSane(clock, budget, mark, left);
      marked := Marked(clock, mark, left);
      clock := Begin(clock, mark, left);
      ghost var begun := clock;
      var until := clock.now + grant;
      Working(clock, budget, 0.0);
      BegunIsWithin(clock, budget, until, grant, left, marked);
      var parts: nat := *;
      while parts > 0
        invariant Valid() && Since(begun, clock) && signals <= old(signals) && Within(clock, budget, until)
        invariant clock.end.Some?
        invariant |children| == |old(children)| && |down| == |old(down)|
        invariant forall k | 0 <= k < |down| && old(down)[k] :: down[k]
        invariant forall k | 0 <= k < |children| && !old(children)[k] :: !children[k]
        invariant old(offers) <= offers && (signals == old(signals) ==> offers == old(offers))
        invariant old(sent) <= sent && (signals == old(signals) ==> sent == old(sent))
        invariant signals < old(signals) ==> AllDown(down)
        invariant signals == old(signals) ==>
          clock.waited + Remaining(until, clock.now) <= begun.waited + grant && clock.overtaken == begun.overtaken
        decreases parts
      {
        parts := parts - 1;
        var took: real := *;
        if 0.0 <= took <= Remaining(until, clock.now) {
          ghost var before := clock;
          SpendIsSane(clock, budget, until, took);
          clock := Spend(clock, took);
          ghost var spent := clock;
          Gap();
          SaneIsAllowed(clock, budget);
          StillWithin(spent, clock, budget, until);
          StaysSet(spent, clock);
          SinceOn(before, spent, clock);
          SinceOn(begun, before, clock);
        }
      }
      SinceOn(old(clock), begun, clock);
      AllowedSince(begun, clock, budget);
    }

    /** `join(remaining())`: what is left is asked first, and the wait begins some time after. The
        thread is offered all that was left. */
    method Join()
      requires Valid() && clock.end.Some?
      modifies `clock, `children, `down, `signals, `offers, `sent
      ensures Kept() && |offers| > |old(offers)| && offers[|old(offers)|] == Left(old(clock))
      ensures signals == old(signals) ==> |offers| == |old(offers)| + 1
      decreases signals, 2
    {
      hide Since, Sane, Marked, Allowed;
      SaneIsAllowed(clock, budget);
      var timeout := Left(clock);
      var mark := clock.waited + timeout;
      ghost var asked := clock;
      offers := offers + [timeout];
      Gap();
      AllowedSince(asked, clock, budget);
      StaysSet(asked, clock);
      ghost var ready := clock;
      var _ := Wait(timeout, timeout, mark);
      SinceOn(asked, ready, clock);
    }

    /** `Tunnel.shutdown(remaining())`: half of it for the child to obey, half for the kill to land.
        Both halves were asked for before either signal is sent. A child that obeys in time is sent
        the one signal, any other both, and a tunnel without a child neither. */
    method ShutTunnel(k: nat, terminates: bool, obeys: bool)
      requires Valid() && clock.end.Some? && k < |children|
      modifies `clock, `children, `down, `signals, `offers, `sent
      ensures Kept() && !children[k]
      ensures signals == old(signals) ==>
                && clock.waited <= old(clock).waited + Left(old(clock)) && offers == old(offers)
                && (!old(children)[k] ==> clock.waited == old(clock).waited)
                && sent == old(sent) + Signalled(k, old(children)[k], terminates, obeys, Left(old(clock)) / 2.0)
      decreases signals, 3
    {
      hide Since, Sane, Allowed;
      SaneIsAllowed(clock, budget);
      var timeout := Left(clock);
      var mark := clock.waited + timeout;
      ghost var asked := clock;
      Gap();
      ghost var looked := clock;
      var child := children[k];
      Gap();
      SinceOn(asked, looked, clock);
      children := children[k := false];
      if !child {
        return;
      }
      AllowedSince(asked, clock, budget);
      StaysSet(asked, clock);
      ghost var found := clock;
      EndChild(k, timeout, mark, terminates, obeys);
      SinceOn(asked, found, clock);
    }

    /** `_kill`, once it has taken the child: told to terminate, and killed if it does not. */
    method EndChild(k: nat, timeout: real, mark: real, terminates: bool, obeys: bool)
      requires Valid() && clock.end.Some? && k < |children| && 0.0 <= timeout <= budget
      requires mark <= Allowed(budget, clock.overtaken)
      modifies `clock, `children, `down, `signals, `offers, `sent
      ensures Valid() && Since(old(clock), clock) && signals <= old(signals)
      ensures |children| == |old(children)| && |down| == |old(down)|
      ensures forall j | 0 <= j < |down| && old(down)[j] :: down[j]
      ensures forall j | 0 <= j < |children| && !old(children)[j] :: !children[j]
      ensures old(offers) <= offers && old(sent) <= sent && (signals < old(signals) ==> AllDown(down))
      ensures signals == old(signals) ==>
                && offers == old(offers) && sent == old(sent) + Signalled(k, true, terminates, obeys, timeout / 2.0)
                && (mark == old(clock).waited + timeout ==>
                      clock.waited <= mark && clock.overtaken == old(clock).overtaken)
      decreases signals, 2
    {
      hide Since, Sane, Allowed;
      Working(clock, budget, 0.0);
      var grace, left := timeout / 2.0, mark;
      if terminates {
        sent := sent + [Terminate(k, grace)];
        left := Wait(grace, timeout, mark);
        StaysSet(old(clock), clock);
        if obeys {
          return;
        }
      }
      ghost var disobeyed := clock;
      Gap();
      SinceOn(old(clock), disobeyed, clock);
      AllowedSince(disobeyed, clock, budget);
      StaysSet(old(clock), clock);
      ghost var killing := clock;
      sent := sent + [Kill(k, grace)];
      var _ := Wait(grace, grace, left);
      SinceOn(old(clock), killing, clock);
    }

    /** The first to find no deadline sets one, unless a signal has set one meanwhile: then the two
        follow each other. */
    method SetDeadline()
      requires Valid()
      modifies `clock, `children, `down, `signals, `offers, `sent
      ensures Kept() && clock.end.Some?
      decreases signals, 1
    {
      hide Since, Sane, Allowed;
      Working(clock, budget, 0.0);
      if clock.end.None? {
        ghost var found := clock;
        Gap();
        ghost var read := clock;
        Later(found, read);
        var end := clock.now + budget;
        Gap();
        Dated(found, read, clock, budget);
        clock := Install(clock, end);
      }
    }

    /** Every worker, every poller, every tunnel and its thread, and the reaper. No tunnel is left
        with a child, and every thread has been waited for. */
    method JoinAll()
      requires Valid() && clock.end.Some?
      modifies `clock, `children, `down, `signals, `offers, `sent
      ensures Kept() && forall k | 0 <= k < |children| :: !children[k]
      ensures |offers| >= |old(offers)| + Threads()
      ensures signals == old(signals) ==> |offers| == |old(offers)| + Threads()
      decreases signals, 4
    {
      hide Since, Sane;
      ghost var before := clock;
      Working(clock, budget, 0.0);
      for k := 0 to workers + pollers
        invariant Kept() && clock.end.Some? && |offers| >= |old(offers)| + k
        invariant signals == old(signals) ==> |offers| == |old(offers)| + k
      {
        before := clock;
        Join();
        SinceOn(old(clock), before, clock);
        StaysSet(before, clock);
      }
      for k := 0 to |children|
        invariant Kept() && clock.end.Some? && forall j | 0 <= j < k :: !children[j]
        invariant |offers| >= |old(offers)| + workers + pollers + k
        invariant signals == old(signals) ==> |offers| == |old(offers)| + workers + pollers + k
      {
        before := clock;
        var terminates, obeys := *, *;
        ShutTunnel(k, terminates, obeys);
        SinceOn(old(clock), before, clock);
        StaysSet(before, clock);
        before := clock;
        Join();
        SinceOn(old(clock), before, clock);
        StaysSet(before, clock);
      }
      before := clock;
      Join();
      SinceOn(old(clock), before, clock);
    }

    /** `stop`. However many calls, and however many threads and children, all the waiting comes to
        one budget, and one more for each wait another's waiting got in front of; and when it
        returns every thread has been waited for, no tunnel has a child and every panel is down,
        whether or not the deadline has passed. */
    method Stop()
      requires Valid()
      modifies `clock, `children, `down, `signals, `offers, `sent
      ensures Kept() && clock.end.Some? && forall k | 0 <= k < |down| :: down[k]
      ensures (forall k | 0 <= k < |children| :: !children[k])
              && |offers| >= |old(offers)| + Threads()
      ensures clock.waited <= Allowed(budget, clock.overtaken)
      decreases signals, 5
    {
      hide Since, Sane, Allowed;
      SetDeadline();
      ghost var dated := clock;
      JoinAll();
      SinceOn(old(clock), dated, clock);
      StaysSet(dated, clock);
      SaneIsAllowed(clock, budget);
      for k := 0 to |down|
        invariant Kept() && Since(dated, clock) && clock.end.Some? && forall j | 0 <= j < k :: down[j]
        invariant (forall j | 0 <= j < |children| :: !children[j])
                  && |offers| >= |old(offers)| + Threads()
        invariant clock.waited <= Allowed(budget, clock.overtaken)
      {
        if !down[k] {
          down := down[k := true];
          ghost var before := clock;
          Gap();
          SinceOn(dated, before, clock);
          SinceOn(old(clock), dated, clock);
          StaysSet(dated, clock);
          SaneIsAllowed(clock, budget);
        }
      }
    }
  }

  /** Several stops one after another. */
  method StopRepeatedly(s: Shutdown, calls: nat)
    requires s.Valid() && calls > 0
    modifies s
    ensures s.Valid() && s.clock.waited <= Allowed(s.budget, s.clock.overtaken)
    ensures forall k | 0 <= k < |s.down| :: s.down[k]
    ensures s.signals == old(s.signals) ==> s.clock.overtaken == old(s.clock).overtaken
    ensures |s.offers| >= |old(s.offers)| + calls * s.Threads()
  {
    s.Stop();
    for k := 1 to calls
      invariant s.Valid() && s.clock.end.Some? && s.signals <= old(s.signals)
      invariant forall k | 0 <= k < |s.down| :: s.down[k]
      invariant s.clock.waited <= Allowed(s.budget, s.clock.overtaken)
      invariant s.signals == old(s.signals) ==> s.clock.overtaken == old(s.clock).overtaken
      invariant |s.offers| >= |old(s.offers)| + k * s.Threads() && |s.children| == |old(s.children)|
    {
      s.Stop();
    }
  }

  // ---------------------------------------------------------------- what the code does not promise

  /** The moment a first stop has set its deadline. */
  function Fresh(budget: real): Clock {
    Install(Clock(0.0, None, 0.0, 0), budget)
  }

  /** A wait for a thread that never leaves, begun with what was left at `asked`. */
  function WaitOut(asked: Clock, c: Clock): Clock {
    Spend(Begin(c, asked.waited + Left(asked), Left(asked)), Left(asked))
  }

  /** `n` signals, each landing when one call has asked what is left and has not begun to wait. */
  function Nested(c: Clock, n: nat): Clock {
    WaitOut(c, if n == 0 then c else Nested(c, n - 1))
  }

  /** The bound is reached, for any number of signals. */
  lemma {:induction false} NestedJoinsReachTheBound(budget: real, n: nat)
    requires budget > 0.0
    ensures Nested(Fresh(budget), n).waited == Allowed(budget, n) && Nested(Fresh(budget), n).overtaken == n
  {
    if n > 0 {
      NestedJoinsReachTheBound(budget, n - 1);
      AllowedGrows(budget, 0, n - 1);
    }
  }

  /** A signal inside a wedged child's first wait makes the second overrun by half a budget, and a
      signal between finding no deadline and setting one makes the waiting two budgets long. */
  lemma ChildAndDeadlineOverrun(budget: real)
    requires budget > 0.0
    ensures var asked := Fresh(budget);
            var grace := Left(asked) / 2.0;
            var first := Spend(Begin(asked, Left(asked), Left(asked)), grace);
            var inner := WaitOut(first, first);
            var second := Spend(Begin(inner, Left(asked), grace), grace);
            second.waited == budget + budget / 2.0 && second.overtaken == 1
    ensures var inner := WaitOut(Fresh(budget), Fresh(budget));
            var again := Install(inner, inner.now + budget);
            WaitOut(again, again).waited == budget + budget && again.overtaken == 1
  {
  }

  // ---------------------------------------------------------------- the bus guard

  /** What one kept worker was offered, and how much of the budget had gone by then. */
  datatype Offer = Offer(elapsed: real, timeout: real)

  /** The guard's offers, one kept worker after another. Each is offered its full share exactly
      while no more than three shares have gone, so the first four always are when nothing but
      the waits themselves takes time; a fifth may be offered nothing. */
  method Guard(kept: nat, took: nat -> real, work: nat -> real) returns (offers: seq<Offer>)
    ensures |offers| == kept && (kept > 0 ==> offers[0].elapsed == 0.0)
    ensures forall k | 0 < k < kept :: offers[k].elapsed == After(offers[k - 1], took(k - 1), work(k - 1))
    ensures forall k | 0 <= k < kept :: offers[k].timeout == BUS_GUARD_PER_SCREEN
              <==> offers[k].elapsed <= BUS_GUARD_BUDGET - BUS_GUARD_PER_SCREEN
    ensures forall k | 0 <= k < kept :: 0.0 <= offers[k].timeout <= BUS_GUARD_PER_SCREEN
    ensures forall k | 0 <= k < kept :: offers[k].timeout == 0.0 <==> offers[k].elapsed >= BUS_GUARD_BUDGET
    ensures (forall k :: work(k) <= 0.0) ==>
              forall k | 0 <= k < kept && k < 4 :: offers[k].timeout == BUS_GUARD_PER_SCREEN
    ensures (forall k :: work(k) <= 0.0) ==>
              forall k | 0 <= k < kept :: offers[k].elapsed + offers[k].timeout <= BUS_GUARD_BUDGET
  {
    offers := [];
    var elapsed := 0.0;
    for k := 0 to kept
      invariant |offers| == k && elapsed >= 0.0 && (k > 0 ==> offers[0].elapsed == 0.0)
      invariant elapsed == if k == 0 then 0.0 else After(offers[k - 1], took(k - 1), work(k - 1))
      invariant forall j | 0 < j < k :: offers[j].elapsed == After(offers[j - 1], took(j - 1), work(j - 1))
      invariant forall j | 0 <= j < k :: Shared(offers[j])
    {
      var left := Remaining(BUS_GUARD_BUDGET, elapsed);
      var timeout := if left < BUS_GUARD_PER_SCREEN then left else BUS_GUARD_PER_SCREEN;
      offers := offers + [Offer(elapsed, timeout)];
      elapsed := After(Offer(elapsed, timeout), took(k), work(k));
    }
    if forall k :: work(k) <= 0.0 {
      forall k | 0 <= k < kept
        ensures offers[k].elapsed + offers[k].timeout <= BUS_GUARD_BUDGET
        ensures k < 4 ==> offers[k].timeout == BUS_GUARD_PER_SCREEN
      {
        IdleSpends(offers, took, work, k);
      }
    }
  }

  /** The full share while at most three shares have gone, nothing once all four have, and what is
      left in between. */
  ghost predicate Shared(offer: Offer) {
    && 0.0 <= offer.elapsed && 0.0 <= offer.timeout <= BUS_GUARD_PER_SCREEN
    && (offer.timeout == BUS_GUARD_PER_SCREEN <==> offer.elapsed <= BUS_GUARD_BUDGET - BUS_GUARD_PER_SCREEN)
    && (offer.timeout == 0.0 <==> offer.elapsed >= BUS_GUARD_BUDGET)
    && (offer.elapsed <= BUS_GUARD_BUDGET ==> offer.elapsed + offer.timeout <= BUS_GUARD_BUDGET)
  }

  lemma {:induction false} IdleSpends(offers: seq<Offer>, took: nat -> real, work: nat -> real, k: nat)
    requires k < |offers| && offers[0].elapsed == 0.0 && forall j :: work(j) <= 0.0
    requires forall j | 0 < j < |offers| :: offers[j].elapsed == After(offers[j - 1], took(j - 1), work(j - 1))
    requires forall j | 0 <= j < |offers| :: Shared(offers[j])
    ensures offers[k].elapsed <= BUS_GUARD_PER_SCREEN * (k as real)
    ensures offers[k].elapsed + offers[k].timeout <= BUS_GUARD_BUDGET
  {
    if k > 0 {
      IdleSpends(offers, took, work, k - 1);
    }
  }

  /** What has gone once that wait is over: as much of the offer as it took, and any work between. */
  function After(offer: Offer, took: real, work: real): real {
    offer.elapsed + (if took <= 0.0 then 0.0 else if took < offer.timeout then took else offer.timeout)
    + if work > 0.0 then work else 0.0
  }
}
