/** One lemma a step: what each of the supervisor's moves keeps, and what a caller may still rely
    on after a moment in which workers ran or a signal landed. */
module Steps {
  import opened Wrappers
  import opened Racks
  import opened Diffing

  /** `slots.remove(b)`. */
  function Removed(slots: seq<nat>, b: nat): seq<nat> {
    if slots == [] then [] else if slots[0] == b then slots[1..] else [slots[0]] + Removed(slots[1..], b)
  }

  // ---------------------------------------------------------------- each step, in passing

  /** What no signal landed on: everything that was there is exactly as it was. */
  ghost predicate Unmoved(a: Rack, b: Rack) {
    && |a.backends| <= |b.backends| && (forall i | 0 <= i < |a.backends| :: b.backends[i] == a.backends[i])
    && (forall s | s in a.slots :: s in b.slots && b.slots[s] == a.slots[s])
    && b.slipped == a.slipped && b.twice == a.twice
  }

  lemma UnmovedSlots(a: Rack, b: Rack)
    requires Unmoved(a, b)
    ensures forall s | s in a.slots :: s in b.slots && b.slots[s] == a.slots[s]
  {
  }

  lemma NothingMoved(r: Rack)
    ensures Unmoved(r, r) && Grew(r, r)
  {
  }

  lemma OpenSteps(r: Rack, display: Display, slots: seq<nat>, screens: seq<Screen>)
    requires Sound(r) && Roster(r, slots, screens) && Idle(r)
    ensures var bare := OpenDevice(r, display); Sound(bare) && Roster(bare, slots, screens)
    ensures Wired(r) && forall s | s in slots :: s in r.slots
  {
    OpenKeepsSound(r, display);
    assert Wired(r);
    hide Sound, Quiet, Unused, Wired;
  }

  lemma RecordSteps(bare: Rack, r: Rack, b: nat, at: nat, slots: seq<nat>, screens: seq<Screen>)
    requires Sound(r) && Roster(r, slots, screens) && Passed(bare, r, {}) && bare.adrift == Some(b)
    requires at < |screens| && b < |bare.backends| && bare.backends[b].display == screens[at].config.display
    requires forall s | s in slots :: s in bare.slots && bare.slots[s].at != at
    ensures Sound(Record(r, b, at)) && Roster(Record(r, b, at), slots + [b], screens)
  {
    RecordKeepsSound(r, b, at);
    assert b !in r.slots && b !in r.twice && r.inHand <= r.slots.Keys;
    StillApart(bare, r, b, at, slots, screens[at].config.display);
    hide Sound, Passed;
    RecordKeepsRoster(r, b, at, slots, screens);
  }

  lemma RecordKeepsRoster(r: Rack, b: nat, at: nat, slots: seq<nat>, screens: seq<Screen>)
    requires Roster(r, slots, screens) && b !in r.slots && b < |r.backends| && r.inHand <= r.slots.Keys
    requires at < |screens| && r.backends[b].display == screens[at].config.display && b !in r.twice
    requires forall s | s in slots :: s in r.slots && r.slots[s].at != at
    ensures Roster(Record(r, b, at), slots + [b], screens)
  {
  }

  lemma StillApart(bare: Rack, r: Rack, b: nat, at: nat, slots: seq<nat>, display: Display)
    requires Passed(bare, r, {}) && b < |bare.backends| && bare.backends[b].display == display
    requires forall s | s in slots :: s in bare.slots && bare.slots[s].at != at
    ensures forall s | s in slots :: s in r.slots && r.slots[s].at != at
    ensures b < |r.backends| && r.backends[b].display == display
  {
  }

  lemma GrewOpen(a: Rack, display: Display, waited: Rack, at: nat, z: Rack)
    requires Wired(a) && Passed(OpenDevice(a, display), waited, {}) && Idle(a)
    requires Passed(Record(waited, |a.backends|, at), z, {})
    ensures Grew(a, z) && |z.workers| == |a.workers| && Idle(z) && SameMarks(a, z)
    ensures var b := |a.backends|; b in z.slots && b !in a.slots && z.slots[b].at == at && z.slots[b].worker.None?
  {
    var b := |a.backends|;
    assert b !in a.slots;
    hide Wired;
    GrewByOpening(a, display, waited);
    GrewByRecording(waited, b, at, z);
    hide Passed;
    GrewOn(a, waited, z);
  }

  lemma GrewByOpening(a: Rack, display: Display, waited: Rack)
    requires Passed(OpenDevice(a, display), waited, {}) && |a.backends| !in a.slots
    ensures Grew(a, waited) && |waited.workers| == |a.workers| && |a.backends| !in waited.slots
    ensures waited.inHand == a.inHand && waited.inFlight == a.inFlight && (a.inFlight.None? ==> SameMarks(a, waited))
  {
    hide Quiet, Unused;
  }

  lemma GrewByRecording(waited: Rack, b: nat, at: nat, z: Rack)
    requires b !in waited.slots && Passed(Record(waited, b, at), z, {})
    ensures Grew(waited, z) && |z.workers| == |waited.workers|
    ensures b in z.slots && z.slots[b].at == at && z.slots[b].worker.None?
    ensures z.inHand == waited.inHand && z.adrift.None? && z.inFlight == waited.inFlight
    ensures waited.inFlight.None? ==> SameMarks(waited, z)
  {
  }

  lemma CalmOpen(a: Rack, display: Display, waited: Rack, at: nat, z: Rack,
                 slots: seq<nat>, screens: seq<Screen>, night: Night)
    requires Wired(a) && Worked(OpenDevice(a, display), waited) && Worked(Record(waited, |a.backends|, at), z)
    requires at < |screens|
    ensures Unmoved(a, z)
    ensures Drawing(a, slots, screens, night) ==> Drawing(z, slots + [|a.backends|], screens, night)
  {
    if Drawing(a, slots, screens, night) {
      var bare := OpenDevice(a, display);
      assert Drawing(bare, slots, screens, night);
      DrawingGoesOn(bare, waited, slots, screens, night);
      DrawingOpens(waited, |a.backends|, at, slots, screens, night);
      DrawingGoesOn(Record(waited, |a.backends|, at), z, slots + [|a.backends|], screens, night);
    }
  }

  lemma RecordStays(a: Rack, b: Rack, s: nat)
    requires Passed(a, b, {}) && s in a.slots
    ensures s in b.slots && b.slots[s].at == a.slots[s].at && b.slots[s].worker == a.slots[s].worker
    ensures |a.workers| == |b.workers| && (Idle(a) ==> Idle(b) && SameMarks(a, b))
  {
  }

  predicate SameAccount(a: Rack, b: Rack) {
    |a.backends| == |b.backends| && |a.workers| == |b.workers| && a.twice == b.twice && a.inHand == b.inHand
    && a.adrift == b.adrift && a.inFlight == b.inFlight && (a.inFlight.None? ==> a.slipped == b.slipped)
  }

  /** No panel has been shut down twice, or slept under a lease in flight, that had not been before. */
  predicate SameMarks(a: Rack, b: Rack) {
    a.twice == b.twice && a.slipped == b.slipped
  }

  lemma PassedKeepsAccount(a: Rack, b: Rack)
    requires Passed(a, b, {})
    ensures SameAccount(a, b)
  {
  }

  lemma Onward(a: Rack, m: Rack, n: Rack, z: Rack, b: nat, calm: bool)
    requires Grew(a, m) && Grew(m, n) && Grew(n, z)
    requires calm ==> Beside(a, m, b) && Beside(m, n, b) && Beside(n, z, b)
    ensures Grew(a, z) && (calm ==> Beside(a, z, b))
  {
    hide Grew, Beside;
    GrewOn(a, m, n);
    GrewOn(a, n, z);
    if calm {
      BesideOn(a, m, n, b);
      BesideOn(a, n, z, b);
    }
  }

  lemma LeaseStays(a: Rack, b: Rack, s: nat)
    requires Passed(a, b, {}) && s in a.slots && a.slots[s].lease < |a.leases|
    ensures s in b.slots && b.slots[s].lease == a.slots[s].lease < |b.leases|
    ensures b.leases[b.slots[s].lease].backend == a.leases[a.slots[s].lease].backend
    ensures b.leases[b.slots[s].lease].live ==> a.leases[a.slots[s].lease].live
    ensures |a.backends| == |b.backends| && (Idle(a) ==> Idle(b))
  {
  }

  lemma LeaseStaysDead(a: Rack, b: Rack, s: nat)
    requires Passed(a, b, {s}) && s in a.slots && a.slots[s].lease < |a.leases| && !a.leases[a.slots[s].lease].live
    ensures s in b.slots && b.slots[s].lease < |b.leases| && !b.leases[b.slots[s].lease].live
    ensures a.slots[s].shutDown ==> b.slots[s].shutDown
  {
  }

  lemma WorkedKeepsSlots(a: Rack, b: Rack)
    requires Worked(a, b)
    ensures a.slots == b.slots && a.backends == b.backends && a.storeClosed == b.storeClosed
  {
  }

  lemma DrawingIsUp(r: Rack, b: nat, slots: seq<nat>, screens: seq<Screen>, night: Night)
    requires Drawing(r, slots, screens, night) && b in slots
    ensures b in r.slots && !r.slots[b].shutDown && !r.slots[b].stop
  {
  }

  lemma GrownSlot(a: Rack, b: nat)
    ensures Grew(a, a)
  {
  }

  lemma GrownSlotOn(a: Rack, m: Rack, z: Rack, b: nat)
    requires Grew(a, m) && Grew(m, z) && b in a.slots
    ensures b in z.slots && z.slots[b].at == a.slots[b].at
  {
  }

  lemma NobodyDraws(revoked: Rack, r: Rack, b: nat)
    requires Sound(r) && Passed(revoked, r, {}) && b in revoked.slots && Idle(revoked)
    requires revoked.slots[b].lease < |revoked.leases| && !revoked.leases[revoked.slots[b].lease].live
    ensures b in r.slots && Idle(r) && r.slots[b].lease < |r.leases| && b < |r.backends|
    ensures !r.leases[r.slots[b].lease].live && Released(r, b)
  {
  }

  lemma ClaimGrows(r: Rack, b: nat)
    requires b in r.slots
    ensures Grew(r, Claim(r, b)) && Beside(r, Claim(r, b), b)
  {
    SlotStepsAreBeside(r, b);
    hide Beside;
  }

  lemma LaunchSteps(r: Rack, b: nat, l: nat, key: Key, slots: seq<nat>, screens: seq<Screen>)
    requires Sound(r) && Roster(r, slots, screens) && Idle(r) && b in slots && b in r.slots && l == r.slots[b].lease
    ensures l < |r.leases| && r.leases[l].backend == b && r.slots[b].at < |screens|
    ensures var z := Launch(r, b, l, key, false);
            Sound(z) && Roster(z, slots, screens) && Grew(r, z) && Beside(r, z, b) && z.workers[|r.workers|].slot == b
  {
    hide Sound, Beside, Roster, Grew;
    RosterBounds(r, b, slots, screens);
    StopsBeforeShut(r, b, slots, screens);
    LaunchKeepsSound(r, b, l, key, false);
    GrowthIsBeside(r, b, l, key, false);
    LaunchGrows(r, b, l, key, false, slots, screens);
  }

  lemma StopsBeforeShut(r: Rack, b: nat, slots: seq<nat>, screens: seq<Screen>)
    requires Roster(r, slots, screens) && b in slots && b !in r.inHand
    ensures r.slots[b].shutDown ==> r.slots[b].stop
  {
  }

  lemma LaunchGrows(r: Rack, b: nat, l: nat, key: Key, restart: bool, slots: seq<nat>, screens: seq<Screen>)
    requires Roster(r, slots, screens)
    ensures Grew(r, Launch(r, b, l, key, restart)) && Roster(Launch(r, b, l, key, restart), slots, screens)
  {
  }

  lemma SetWorkerSteps(launched: Rack, r: Rack, b: nat, w: nat, slots: seq<nat>, screens: seq<Screen>)
    requires Sound(r) && Roster(r, slots, screens) && Passed(launched, r, {}) && b in slots
    requires w < |launched.workers| && launched.workers[w].slot == b
    ensures b in r.slots
    ensures var z := SetWorker(r, b, w); Sound(z) && Roster(z, slots, screens) && Grew(r, z) && Beside(r, z, b)
  {
    hide Sound, Beside, Roster, Passed, Grew;
    RosterBounds(r, b, slots, screens);
    WorkerStays(launched, r, w);
    SetWorkerKeepsSound(r, b, w);
    SlotStepsAreBeside(r, b);
    SetWorkerKeepsRoster(r, b, w, slots, screens);
    SetWorkerGrows(r, b, w);
  }

  /** Claimed for shutting down. */
  ghost predicate Shut(r: Rack, b: nat) {
    b in r.slots && r.slots[b].shutDown
  }

  /** The slot names this worker, which draws through this lease, the slot's own. */
  ghost predicate DrawsOn(r: Rack, w: nat, b: nat, l: nat)
    requires b in r.slots
  {
    && r.slots[b].worker == Some(w) && r.slots[b].lease == l
    && w < |r.workers| && r.workers[w].slot == b && r.workers[w].lease == l
  }

  lemma DrawsOnItsOwn(launched: Rack, waited: Rack, b: nat, w: nat)
    requires Passed(launched, waited, {}) && b in launched.slots && w < |launched.workers|
    requires launched.workers[w].slot == b && launched.workers[w].lease == launched.slots[b].lease
    ensures b in waited.slots && DrawsOn(SetWorker(waited, b, w), w, b, launched.slots[b].lease)
    ensures |waited.workers| == |launched.workers|
  {
  }

  lemma WorkerStays(a: Rack, r: Rack, w: nat)
    requires Passed(a, r, {}) && w < |a.workers|
    ensures w < |r.workers| && r.workers[w].slot == a.workers[w].slot && r.workers[w].lease == a.workers[w].lease
  {
  }

  lemma SetWorkerGrows(r: Rack, b: nat, w: nat)
    requires b in r.slots
    ensures Grew(r, SetWorker(r, b, w))
  {
  }

  lemma SetWorkerKeepsRoster(r: Rack, b: nat, w: nat, slots: seq<nat>, screens: seq<Screen>)
    requires Roster(r, slots, screens) && b in r.slots
    ensures Roster(SetWorker(r, b, w), slots, screens)
  {
  }

  lemma RosterBounds(r: Rack, b: nat, slots: seq<nat>, screens: seq<Screen>)
    requires Sound(r) && Roster(r, slots, screens) && b in slots
    ensures b in r.slots && b < |r.backends| && r.slots[b].at < |screens|
    ensures r.slots[b].lease < |r.leases| && r.leases[r.slots[b].lease].backend == b
  {
  }

  lemma StartedDraws(a: Rack, waited: Rack, b: nat, slots: seq<nat>, screens: seq<Screen>, night: Night)
    requires Sound(a) && Drawing(a, slots, screens, night) && b in slots && b in a.slots && a.slots[b].worker.None?
    requires a.slots[b].at < |screens|
    requires var key := KeyOf(screens[a.slots[b].at], night); Worked(Launch(a, b, a.slots[b].lease, key, false), waited)
    ensures b in waited.slots && Drawing(SetWorker(waited, b, |a.workers|), slots, screens, night)
  {
    var key, own := KeyOf(screens[a.slots[b].at], night), |a.workers|;
    var launched, z := Launch(a, b, a.slots[b].lease, key, false), SetWorker(waited, b, own);
    GrowthIsBeside(a, b, a.slots[b].lease, key, false);
    WorkedBeside(launched, waited, b);
    SlotStepsAreBeside(waited, b);
    BesideOn(a, launched, waited, b);
    BesideOn(a, waited, z, b);
    StartedIsDrawn(a, waited, b, screens, night);
    assert forall w | 0 <= w < |a.workers| :: a.workers[w].lease < |a.leases|;
    hide Beside, Worked, Drawn, Sound;
    DrawingBeside(a, z, b, slots, slots, screens, night);
  }

  lemma StartedIsDrawn(a: Rack, waited: Rack, b: nat, screens: seq<Screen>, night: Night)
    requires Drawn(a, b, screens, night) && !a.storeClosed && a.slots[b].worker.None?
    requires var key := KeyOf(screens[a.slots[b].at], night); Worked(Launch(a, b, a.slots[b].lease, key, false), waited)
    ensures b in waited.slots && Drawn(SetWorker(waited, b, |a.workers|), b, screens, night)
  {
    assert Launch(a, b, a.slots[b].lease, KeyOf(screens[a.slots[b].at], night), false).workers[|a.workers|].slot == b;
  }

  /** A failed start: the panel ends down once more, and its slot in nobody's list. */
  lemma FailSteps(released: Rack, ready: Rack, r: Rack, b: nat, again: bool, slots: seq<nat>, screens: seq<Screen>)
    requires Sound(released) && Sound(r) && Roster(released, slots, screens) && Roster(r, slots, screens)
    requires b in slots && b in released.slots && Idle(released) && again == released.slots[b].shutDown
    requires Passed(Claim(released, b), ready, {}) && Passed(ready, r, {b})
    requires b < |ready.backends| && b < |r.backends|
    requires r.backends[b].slept == ready.backends[b].slept + 1 && r.backends[b].closed == ready.backends[b].closed + 1
    ensures var gone := LetGo(r, b, again);
            && Sound(gone) && Roster(gone, Removed(slots, b), screens) && Idle(gone) && Grew(r, gone)
            && Beside(r, gone, b)
            && |gone.backends| == |released.backends| && gone.slipped == released.slipped && gone.quiet == r.quiet
            && gone.exclusive == r.exclusive
            && gone.twice == released.twice + (if again then {b} else {})
  {
    hide Sound, Passed, Roster, Beside, Grew;
    OutOfHand(released, slots, screens, b);
    DownOnceMore(released, ready, r, b, again);
    NothingSlips(released, ready, r, b);
    LetGoKeepsSound(r, b, again);
    RemovedMembers(slots, b);
    AccountIsBeside(r, LetGo(r, b, again), b);
    LetGoGrows(r, b, again);
    RemovedKeepsRoster(r, b, again, slots, screens);
  }

  lemma OutOfHand(r: Rack, slots: seq<nat>, screens: seq<Screen>, b: nat)
    requires Roster(r, slots, screens) && b in slots && b !in r.inHand
    ensures b !in r.twice
    ensures forall i, j | 0 <= i < j < |slots| :: slots[i] != slots[j]
  {
  }

  lemma LetGoGrows(r: Rack, b: nat, again: bool)
    ensures Grew(r, LetGo(r, b, again))
  {
  }

  lemma DownOnceMore(released: Rack, ready: Rack, r: Rack, b: nat, again: bool)
    requires Sound(released) && b in released.slots && Idle(released) && again == released.slots[b].shutDown
    requires b !in released.twice
    requires Passed(Claim(released, b), ready, {}) && Passed(ready, r, {b})
    requires b < |ready.backends| && b < |r.backends|
    requires r.backends[b].slept == ready.backends[b].slept + 1 && r.backends[b].closed == ready.backends[b].closed + 1
    ensures b in r.slots && r.slots[b].shutDown && b !in r.twice && r.inHand == {b} && r.twice == released.twice
    ensures r.backends[b].slept == r.backends[b].closed == Downs(r, b) + if again then 1 else 0
    ensures r.adrift.None? && r.inFlight.None? && |r.backends| == |released.backends|
  {
  }

  lemma NothingSlips(released: Rack, ready: Rack, r: Rack, b: nat)
    requires b in released.slots && released.inFlight.None?
    requires Passed(Claim(released, b), ready, {}) && Passed(ready, r, {b})
    ensures r.slipped == released.slipped
  {
  }

  lemma RemovedKeepsRoster(r: Rack, b: nat, again: bool, slots: seq<nat>, screens: seq<Screen>)
    requires Roster(r, slots, screens) && b in r.slots && r.slots[b].shutDown && r.inHand == {b}
    requires forall i, j | 0 <= i < j < |Removed(slots, b)| :: Removed(slots, b)[i] != Removed(slots, b)[j]
    requires forall s :: s in Removed(slots, b) <==> s in slots && s != b
    ensures Roster(LetGo(r, b, again), Removed(slots, b), screens)
  {
  }

  lemma {:induction false} RemovedMembers(slots: seq<nat>, b: nat)
    requires forall i, j | 0 <= i < j < |slots| :: slots[i] != slots[j]
    ensures forall s :: s in Removed(slots, b) <==> s in slots && s != b
    ensures forall i, j | 0 <= i < j < |Removed(slots, b)| :: Removed(slots, b)[i] != Removed(slots, b)[j]
  {
    if slots != [] {
      RemovedMembers(slots[1..], b);
      assert slots[0] !in slots[1..];
      assert forall s :: s in slots <==> s == slots[0] || s in slots[1..];
    }
  }

  lemma FailedDraws(a: Rack, z: Rack, b: nat, slots: seq<nat>, screens: seq<Screen>, night: Night)
    requires Sound(a) && Sound(z) && Drawing(a, slots, screens, night) && Beside(a, z, b)
    requires forall s :: s in Removed(slots, b) <==> s in slots && s != b
    requires b in z.slots && !z.leases[z.slots[b].lease].live && Idle(z)
    ensures Drawing(z, Removed(slots, b), screens, night)
  {
    assert forall w | 0 <= w < |a.workers| :: a.workers[w].lease < |a.leases|;
    assert forall w | 0 <= w < |z.workers| && z.workers[w].slot == b && z.workers[w].lease < |z.leases| :: !Live(z, w);
    hide Sound;
    DrawingBeside(a, z, b, slots, Removed(slots, b), screens, night);
  }

  /** The slot draws through this lease, by a worker just started on it. */
  ghost predicate Taken(a: Rack, z: Rack, b: nat, l: nat, key: Key) {
    && b in a.slots && b in z.slots && |z.workers| == |a.workers| + 1
    && z.slots[b] == a.slots[b].(lease := l, worker := Some(|a.workers|))
    && z.workers[|a.workers|].slot == b && z.workers[|a.workers|].lease == l && z.workers[|a.workers|].key == key
    && (l < |a.leases| && a.leases[l].live && !a.storeClosed && !a.slots[b].stop ==> l < |z.leases| && z.leases[l].live)
  }

  lemma TakenUp(a: Rack, running: Rack, settled: Rack, b: nat, l: nat, key: Key)
    requires b in a.slots && l < |a.leases| && a.leases[l].backend == b && Worked(Launch(a, b, l, key, true), running)
    requires b in running.slots && Worked(Point(running, b, l), settled) && b in settled.slots
    ensures Taken(a, SetWorker(settled, b, |a.workers|), b, l, key)
  {
    var launched, w := Launch(a, b, l, key, true), |a.workers|;
    assert launched.workers[w] == Worker(b, l, key, false, false);
    LaunchedStays(launched, running, w, l);
    assert Point(running, b, l).slots[b] == a.slots[b].(lease := l);
    LaunchedStays(Point(running, b, l), settled, w, l);
  }

  lemma LaunchedStays(a: Rack, z: Rack, w: nat, l: nat)
    requires Worked(a, z) && w < |a.workers| && l < |a.leases|
    ensures z.slots == a.slots && z.storeClosed == a.storeClosed && |z.workers| == |a.workers|
            && |z.leases| == |a.leases|
    ensures z.workers[w].slot == a.workers[w].slot && z.workers[w].lease == a.workers[w].lease
            && z.workers[w].key == a.workers[w].key
    ensures a.leases[l].live && !a.storeClosed && a.leases[l].backend in a.slots
            && !a.slots[a.leases[l].backend].stop ==>
              z.leases[l].live
    ensures z.leases[l].backend == a.leases[l].backend
  {
  }

  lemma NewLeaseSteps(r: Rack, b: nat, slots: seq<nat>, screens: seq<Screen>)
    requires Sound(r) && Roster(r, slots, screens) && b in slots && b in r.slots
    ensures var z := NewLease(r, b);
            && Sound(z) && Roster(z, slots, screens) && Grew(r, z) && Beside(r, z, b)
            && SameAccount(r, z) && z.slots == r.slots && z.leases[|r.leases|] == Lease(b, true)
    ensures r.slots[b].lease < |r.leases|
    ensures NewLease(r, b).leases[r.slots[b].lease] == r.leases[r.slots[b].lease]
  {
    hide Sound, Roster, Beside, Grew;
    RosterBounds(r, b, slots, screens);
    NewLeaseKeepsSound(r, b);
    NewLeaseIsBeside(r, b);
    NewLeaseGrows(r, b, slots, screens);
  }

  lemma NewLeaseGrows(r: Rack, b: nat, slots: seq<nat>, screens: seq<Screen>)
    requires Roster(r, slots, screens)
    ensures Grew(r, NewLease(r, b)) && Roster(NewLease(r, b), slots, screens)
  {
  }

  lemma LeaseIsThere(a: Rack, z: Rack, l: nat)
    requires Passed(a, z, {}) && l < |a.leases|
    ensures l < |z.leases| && z.leases[l].backend == a.leases[l].backend
  {
  }

  lemma RestartSteps(r: Rack, b: nat, l: nat, key: Key, slots: seq<nat>, screens: seq<Screen>)
    requires Sound(r) && Roster(r, slots, screens) && Idle(r) && b in slots && b in r.slots
    requires l < |r.leases| && r.leases[l].backend == b
    ensures var z := Launch(r, b, l, key, true);
            && Sound(z) && Roster(z, slots, screens) && Grew(r, z) && Beside(r, z, b)
            && z.slots == r.slots && z.leases == r.leases && z.workers[|r.workers|].slot == b
  {
    hide Sound, Beside, Roster, Grew;
    StopsBeforeShut(r, b, slots, screens);
    LaunchKeepsSound(r, b, l, key, true);
    GrowthIsBeside(r, b, l, key, true);
    LaunchGrows(r, b, l, key, true, slots, screens);
  }

  lemma PointSteps(launched: Rack, r: Rack, b: nat, l: nat, slots: seq<nat>, screens: seq<Screen>)
    requires Sound(r) && Roster(r, slots, screens) && b in slots && Passed(launched, r, {})
    requires b in launched.slots && l < |launched.leases| && launched.leases[l].backend == b
    requires launched.inFlight == Some(l) && launched.slots[b].lease < |launched.leases|
    requires !launched.leases[launched.slots[b].lease].live
    ensures b in r.slots
    ensures var z := Point(r, b, l);
            && Sound(z) && Roster(z, slots, screens) && Grew(r, z) && Beside(r, z, b) && z.workers == r.workers
            && z.inHand == r.inHand && z.adrift == r.adrift
  {
    hide Sound, Passed, Roster, Beside, Grew;
    LeaseStays(launched, r, b);
    LeaseIsThere(launched, r, l);
    PassedKeepsAccount(launched, r);
    PointKeepsSound(r, b, l);
    SlotStepsAreBeside(r, b);
    PointKeepsRoster(r, b, l, slots, screens);
    PointGrows(r, b, l);
  }

  lemma PointGrows(r: Rack, b: nat, l: nat)
    requires b in r.slots
    ensures Grew(r, Point(r, b, l))
  {
  }

  lemma PointKeepsRoster(r: Rack, b: nat, l: nat, slots: seq<nat>, screens: seq<Screen>)
    requires Roster(r, slots, screens) && b in r.slots
    ensures Roster(Point(r, b, l), slots, screens)
  {
  }

  lemma RestartedDraws(a: Rack, withdrawn: Rack, leased: Rack, ready: Rack, z: Rack, b: nat,
                       slots: seq<nat>, screens: seq<Screen>, night: Night)
    requires Sound(a) && Sound(z) && Idle(z) && Drawing(a, slots, screens, night) && b in slots && b in a.slots
    requires Beside(a, withdrawn, b) && b in withdrawn.slots && withdrawn.slots[b] == a.slots[b]
    requires |a.workers| == |withdrawn.workers| && leased == NewLease(withdrawn, b) && Worked(leased, ready)
    requires Beside(a, z, b) && a.slots[b].at < |screens|
    requires Taken(ready, z, b, |withdrawn.leases|, KeyOf(screens[a.slots[b].at], night))
    ensures Drawing(z, slots, screens, night)
  {
    RestartedIsDrawn(a, withdrawn, leased, ready, z, b, screens, night);
    assert forall w | 0 <= w < |a.workers| :: a.workers[w].lease < |a.leases|;
    hide Sound, Beside, Worked, Taken, Drawn;
    DrawingBeside(a, z, b, slots, slots, screens, night);
  }

  lemma RestartedIsDrawn(a: Rack, withdrawn: Rack, leased: Rack, ready: Rack, z: Rack, b: nat,
                         screens: seq<Screen>, night: Night)
    requires Sound(a) && Sound(z) && Idle(z) && Drawn(a, b, screens, night) && !a.storeClosed && b in a.slots
    requires Beside(a, withdrawn, b) && b in withdrawn.slots && withdrawn.slots[b] == a.slots[b]
    requires |a.workers| == |withdrawn.workers| && leased == NewLease(withdrawn, b) && Worked(leased, ready)
    requires Beside(a, z, b) && a.slots[b].at < |screens|
    requires Taken(ready, z, b, |withdrawn.leases|, KeyOf(screens[a.slots[b].at], night))
    ensures Drawn(z, b, screens, night)
  {
    var l, own := |withdrawn.leases|, |a.workers|;
    UpWithoutDrawing(a, b, screens, night);
    OldLeases(a, withdrawn, z, b);
    hide Sound, Worked, Drawn;
    LaunchedLease(leased, ready, l);
    assert leased.leases[l] == Lease(b, true);
    hide Beside;
    OnlyOneDraws(z, b, l, own, screens, night);
  }

  lemma UpWithoutDrawing(r: Rack, b: nat, screens: seq<Screen>, night: Night)
    requires Drawn(r, b, screens, night)
    ensures b in r.slots && !r.slots[b].shutDown && !r.slots[b].stop && r.slots[b].at < |screens|
  {
  }

  lemma OnlyOneDraws(z: Rack, b: nat, l: nat, own: nat, screens: seq<Screen>, night: Night)
    requires Sound(z) && Idle(z) && b in z.slots && z.slots[b].at < |screens| && !z.slots[b].shutDown
             && !z.slots[b].stop
    requires z.slots[b].lease == l && z.slots[b].worker == Some(own) && |z.workers| == own + 1
    requires z.workers[own].slot == b && z.workers[own].lease == l
    requires z.workers[own].key == KeyOf(screens[z.slots[b].at], night)
    requires l < |z.leases| && z.leases[l].live && forall w | 0 <= w < own :: z.workers[w].lease < l
    ensures Drawn(z, b, screens, night)
  {
  }

  lemma OldLeases(a: Rack, withdrawn: Rack, z: Rack, b: nat)
    requires Sound(a) && Beside(a, withdrawn, b) && Beside(a, z, b)
    ensures forall w | 0 <= w < |a.workers| :: z.workers[w].lease < |withdrawn.leases|
  {
  }

  lemma GrewLonger(a: Rack, z: Rack)
    requires Grew(a, z)
    ensures |a.leases| <= |z.leases|
  {
  }

  lemma WorkedKeepsSizes(a: Rack, z: Rack)
    requires Worked(a, z)
    ensures z.slots == a.slots && |z.workers| == |a.workers|
  {
  }

  lemma LaunchedLease(a: Rack, z: Rack, l: nat)
    requires Worked(a, z) && l < |a.leases|
    ensures z.slots == a.slots && z.storeClosed == a.storeClosed && |z.workers| == |a.workers|
            && |z.leases| == |a.leases|
    ensures a.leases[l].live && !a.storeClosed && a.leases[l].backend in a.slots
            && !a.slots[a.leases[l].backend].stop ==>
              z.leases[l].live
  {
  }

  const MAX_RESTARTS := 3

  /** A slot the watchdog restarts. */
  predicate Due(slot: Slot, stale: bool) {
    stale && slot.worker.Some? && slot.restarts < MAX_RESTARTS
  }

  /** What a watchdog pass makes of one slot: a worker on time is left alone, an overdue one is
      replaced on a new lease, three times at most, and the fourth time only counted. */
  ghost predicate Checked(a: Slot, z: Slot, stale: bool) {
    if !stale || a.worker.None? || a.restarts > MAX_RESTARTS then z == a
    else if a.restarts == MAX_RESTARTS then z == a.(restarts := a.restarts + 1)
    else
      && z == a.(restarts := a.restarts + 1, lease := z.lease, worker := z.worker)
      && z.worker.Some? && z.worker != a.worker && z.lease != a.lease
  }

  /** No worker is held off its panel. */
  ghost predicate NoneHeld(r: Rack) {
    forall w | 0 <= w < |r.workers| :: !r.workers[w].held
  }

  lemma CountSteps(r: Rack, b: nat, slots: seq<nat>, screens: seq<Screen>, night: Night)
    requires Sound(r) && Roster(r, slots, screens) && Idle(r) && b in r.slots
    ensures var z := WithSlot(r, b, r.slots[b].(restarts := r.slots[b].restarts + 1));
            && Sound(z) && Roster(z, slots, screens) && Idle(z) && Grew(r, z)
            && (Drawing(r, slots, screens, night) ==> Drawing(z, slots, screens, night)) && Beside(r, z, b)
    ensures r.slots[b].lease < |r.leases| && (r.slots[b].worker.Some? ==> r.slots[b].worker.value < |r.workers|)
  {
    assert Wired(r);
    hide Sound, Roster, Drawing, Grew, Beside;
    CountKeepsSound(r, b);
    CountKeepsRoster(r, b, slots, screens);
    CountGrows(r, b);
    if Drawing(r, slots, screens, night) {
      CountKeepsDrawing(r, b, slots, screens, night);
    }
    SlotIsBeside(r, b, r.slots[b].(restarts := r.slots[b].restarts + 1));
  }

  lemma CountKeepsSound(r: Rack, b: nat)
    requires Sound(r) && b in r.slots
    ensures Sound(WithSlot(r, b, r.slots[b].(restarts := r.slots[b].restarts + 1)))
  {
    assert r.slots[b].worker.Some? ==>
        r.slots[b].worker.value < |r.workers| && r.workers[r.slots[b].worker.value].slot == b;
    hide Sound;
    TweakKeepsSound(r, b, r.slots[b].(restarts := r.slots[b].restarts + 1));
  }

  lemma CountKeepsRoster(r: Rack, b: nat, slots: seq<nat>, screens: seq<Screen>)
    requires Roster(r, slots, screens) && b in r.slots
    ensures Roster(WithSlot(r, b, r.slots[b].(restarts := r.slots[b].restarts + 1)), slots, screens)
  {
  }

  lemma CountGrows(r: Rack, b: nat)
    requires b in r.slots
    ensures Grew(r, WithSlot(r, b, r.slots[b].(restarts := r.slots[b].restarts + 1)))
  {
  }

  lemma CountKeepsDrawing(r: Rack, b: nat, slots: seq<nat>, screens: seq<Screen>, night: Night)
    requires b in r.slots && Drawing(r, slots, screens, night)
    ensures Drawing(WithSlot(r, b, r.slots[b].(restarts := r.slots[b].restarts + 1)), slots, screens, night)
  {
  }

  lemma NoneHeldStays(a: Rack, b: Rack)
    requires NoneHeld(a) && Grew(a, b)
    ensures NoneHeld(b)
  {
  }

  // ---------------------------------------------------------------- accounting

  function At(r: Rack, b: nat): nat {
    if b in r.slots then r.slots[b].at else 0
  }

  /** Which screens the slots of a list stand for. */
  function Places(r: Rack, slots: seq<nat>): seq<nat> {
    seq(|slots|, i requires 0 <= i < |slots| => At(r, slots[i]))
  }

  /** The running slots and the unavailable records stand for exactly these screens, each once. */
  ghost predicate Accounted(r: Rack, slots: seq<nat>, unavailable: seq<nat>, places: multiset<nat>) {
    multiset(Places(r, slots)) + multiset(unavailable) == places
  }

  lemma EmptyIsSound(screens: seq<Screen>, night: Night)
    ensures Sound(EMPTY) && Roster(EMPTY, [], screens) && Drawing(EMPTY, [], screens, night) && NoneHeld(EMPTY)
  {
  }

  lemma NobodyAccounted(r: Rack)
    ensures Accounted(r, [], [], multiset(Indices(0)))
  {
    assert Places(r, []) == [] && Indices(0) == [];
  }

  lemma AccountStays(a: Rack, b: Rack, slots: seq<nat>, unavailable: seq<nat>, places: multiset<nat>)
    requires Grew(a, b) && forall s | s in slots :: s in a.slots
    ensures Accounted(a, slots, unavailable, places) ==> Accounted(b, slots, unavailable, places)
  {
    assert Places(a, slots) == Places(b, slots);
  }

  lemma AccountOfSlots(a: Rack, b: Rack, slots: seq<nat>, unavailable: seq<nat>, places: multiset<nat>)
    requires a.slots == b.slots && Accounted(a, slots, unavailable, places)
    ensures Accounted(b, slots, unavailable, places)
  {
    assert Places(a, slots) == Places(b, slots);
  }

  lemma SlotsStay(a: Rack, b: Rack, slots: seq<nat>)
    requires Grew(a, b) && forall s | s in slots :: s in a.slots
    ensures forall s | s in slots :: s in b.slots && b.slots[s].at == a.slots[s].at
  {
  }

  /** One more screen, opened or recorded as unavailable. */
  lemma OneMore(a: Rack, z: Rack, slots: seq<nat>, now: seq<nat>, missing: seq<nat>, unavailable: seq<nat>,
                places: multiset<nat>, at: nat)
    requires Grew(a, z) && forall s | s in slots :: s in a.slots
    requires (now == slots && unavailable == missing + [at])
             || (unavailable == missing && now == slots + [|a.backends|] && |a.backends| in z.slots
               && z.slots[|a.backends|].at == at)
    ensures Accounted(a, slots, missing, places) ==> Accounted(z, now, unavailable, places + multiset{at})
  {
    assert Places(a, slots) == Places(z, slots);
    if now == slots {
      assert multiset(missing + [at]) == multiset(missing) + multiset{at};
    } else {
      assert Places(z, now) == Places(z, slots) + [at];
    }
  }

  lemma {:induction false} PlacesWithout(r: Rack, slots: seq<nat>, b: nat)
    requires b in slots && b in r.slots
    ensures multiset(Places(r, slots)) == multiset(Places(r, Removed(slots, b))) + multiset{r.slots[b].at}
  {
    var first, rest := Places(r, [slots[0]]), slots[1..];
    assert Places(r, slots) == first + Places(r, rest);
    if slots[0] == b {
      assert first == [r.slots[b].at];
    } else {
      PlacesWithout(r, rest, b);
      assert Places(r, Removed(slots, b)) == first + Places(r, Removed(rest, b));
    }
  }

  lemma NoSlotTwice(r: Rack, slots: seq<nat>, screens: seq<Screen>)
    requires Roster(r, slots, screens)
    ensures forall i, j | 0 <= i < j < |slots| :: slots[i] != slots[j]
    ensures forall s | s in slots :: s in r.slots
  {
  }

  lemma OthersStay(a: Rack, z: Rack, b: nat)
    requires Beside(a, z, b)
    ensures a.slots.Keys == z.slots.Keys && forall s | s in a.slots && s != b :: z.slots[s] == a.slots[s]
  {
  }

  // ---------------------------------------------------------------- a pushed configuration

  /** `Skipped` is a screen left unopened because its bus is not guarded, `NoPanel` one whose
      display would not open, and `Unstarted` a slot whose worker would not start. */
  datatype Event =
    | Opened(at: nat) | NoPanel(at: nat) | Skipped(at: nat)
    | Launched(slot: nat) | Unstarted(slot: nat)
    | Held(worker: nat) | Freed(worker: nat)

  /** What one screen that has no slot comes to. */
  function Try(at: nat, screens: seq<Screen>, opening: nat -> bool, unguarded: set<Bus>): Event {
    if at < |screens| && BusOf(screens[at].config.display) in unguarded then Skipped(at)
    else if opening(at) then Opened(at)
    else NoPanel(at)
  }

  function Tries(added: seq<nat>, screens: seq<Screen>, opening: nat -> bool, unguarded: set<Bus>): seq<Event> {
    seq(|added|, i requires 0 <= i < |added| => Try(added[i], screens, opening, unguarded))
  }

  lemma NothingTriedYet(added: seq<nat>, screens: seq<Screen>, opening: nat -> bool, unguarded: set<Bus>)
    ensures Tries(added[..0], screens, opening, unguarded) == []
  {
  }

  lemma NothingTried(screens: seq<Screen>, opening: nat -> bool)
    ensures Tries(Indices(0), screens, opening, {}) == []
  {
  }

  lemma OneMoreTry(tried: seq<nat>, at: nat, screens: seq<Screen>, opening: nat -> bool, unguarded: set<Bus>)
    ensures Tries(tried + [at], screens, opening, unguarded)
            == Tries(tried, screens, opening, unguarded) + [Try(at, screens, opening, unguarded)]
  {
  }

  function Starts(slots: seq<nat>): seq<Event> {
    seq(|slots|, i requires 0 <= i < |slots| => Launched(slots[i]))
  }

  lemma OneMoreStart(slots: seq<nat>, i: nat)
    requires i < |slots|
    ensures Starts(slots[..i + 1]) == Starts(slots[..i]) + [Launched(slots[i])]
  {
    assert slots[..i + 1] == slots[..i] + [slots[i]];
  }

  lemma NothingStarted(slots: seq<nat>)
    ensures Starts(slots[..0]) == []
  {
  }

  /** Some listed slot stands for this screen. */
  ghost predicate Runs(r: Rack, slots: seq<nat>, at: nat) {
    exists b | b in slots :: At(r, b) == at
  }

  /** The slot has a worker, and that worker keeps its tick lock for as long as it is asked to
      pause. */
  ghost predicate Busy(r: Rack, b: nat, wedged: nat -> bool) {
    b in r.slots && r.slots[b].worker.Some? && wedged(r.slots[b].worker.value)
  }

  /** Every listed worker has been asked to pause: one that lets its tick lock go is held off, and
      a bus is unguarded exactly when somebody on it does not. */
  ghost predicate Offered(r: Rack, slots: seq<nat>, wedged: nat -> bool, held: seq<nat>, unguarded: set<Bus>) {
    && (forall b | b in slots && b in r.slots && r.slots[b].worker.Some? ::
          r.slots[b].worker.value in held <==> !Busy(r, b, wedged))
    && (forall bus :: bus in unguarded <==>
          exists b :: b in slots && Busy(r, b, wedged) && b < |r.backends| && BusOf(r.backends[b].display) == bus)
  }

  /** Whoever is held off has one of these slots. */
  ghost predicate HeldOf(r: Rack, slots: seq<nat>, held: seq<nat>) {
    forall w | w in held :: w < |r.workers| && r.workers[w].slot in slots
  }

  /** One more screen tried: it has a slot exactly if its panel opened. */
  lemma OneMoreRuns(a: Rack, z: Rack, slots: seq<nat>, now: seq<nat>, at: nat)
    requires Grew(a, z) && forall s | s in slots :: s in a.slots && At(a, s) != at
    requires now == slots || exists b :: now == slots + [b] && b in z.slots && At(z, b) == at
    ensures Runs(z, now, at) <==> now != slots
    ensures forall k | k != at :: Runs(z, now, k) <==> Runs(a, slots, k)
  {
    assert forall s | s in slots :: s in now && At(z, s) == At(a, s);
    assert forall s | s in now && s !in slots :: At(z, s) == at;
  }

  /** Whoever stands for one of these screens has no worker yet. */
  ghost predicate Bare(r: Rack, slots: seq<nat>, added: seq<nat>) {
    forall b | b in slots && At(r, b) in added :: b in r.slots && r.slots[b].worker.None?
  }

  /** The slot has a worker already, or the one it is given starts. */
  ghost predicate Starting(r: Rack, b: nat, starting: nat -> bool) {
    b in r.slots && (r.slots[b].worker.Some? || starting(r.slots[b].at))
  }

  lemma SameAt(a: Rack, z: Rack, slots: seq<nat>)
    requires forall s | s in slots :: s in a.slots && s in z.slots && z.slots[s] == a.slots[s]
    ensures forall s | s in slots :: At(z, s) == At(a, s)
  {
  }

  lemma RunsOfSlots(a: Rack, z: Rack, slots: seq<nat>, added: seq<nat>)
    requires z.slots == a.slots
    ensures forall at :: Runs(z, slots, at) <==> Runs(a, slots, at)
    ensures Bare(z, slots, added) <==> Bare(a, slots, added)
  {
    assert forall b :: At(z, b) == At(a, b);
  }

  /** Of the screens just opened, exactly those whose worker starts go on running. */
  lemma StartedIfOpened(a: Rack, z: Rack, slots: seq<nat>, now: seq<nat>, added: seq<nat>, starting: nat -> bool)
    requires Grew(a, z) && Bare(a, slots, added)
    requires forall b :: b in now <==> b in slots && Starting(a, b, starting)
    ensures forall k | 0 <= k < |added| ::
              Runs(z, now, added[k]) <==> Runs(a, slots, added[k]) && starting(added[k])
  {
    assert forall b | b in a.slots :: At(z, b) == At(a, b);
  }

  lemma OfferedBefore(a: Rack, z: Rack, slots: seq<nat>, wedged: nat -> bool, held: seq<nat>, unguarded: set<Bus>)
    requires Offered(z, slots, wedged, held, unguarded) && z.backends == a.backends
    requires forall b | b in slots :: SameWorker(a, z, b)
    ensures Offered(a, slots, wedged, held, unguarded)
  {
    assert forall b | b in slots :: Busy(a, b, wedged) <==> Busy(z, b, wedged);
  }

  lemma PartsAddUp(kept: seq<Pair>, added: seq<nat>, retired: seq<nat>, n: nat, m: nat)
    requires multiset(SlotsOf(kept)) + multiset(retired) == multiset(Indices(n))
    requires multiset(PlacesOf(kept)) + multiset(added) == multiset(Indices(m))
    ensures |kept| + |retired| == n && |kept| + |added| == m
  {
    assert |multiset(SlotsOf(kept)) + multiset(retired)| == |kept| + |retired|;
    assert |multiset(PlacesOf(kept)) + multiset(added)| == |kept| + |added|;
  }

  lemma StartedWhereOpened(a: Rack, z: Rack, slots: seq<nat>, screens: seq<Screen>, opening: nat -> bool,
                           starting: nat -> bool, ok: bool, stopped: bool)
    requires forall at | 0 <= at < |screens| :: Runs(a, slots, at) <==> opening(at)
    requires !stopped && ok ==> forall b | b in slots :: At(z, b) == At(a, b) && starting(At(z, b))
    ensures ok && !stopped ==>
              && (forall at | 0 <= at < |screens| :: Runs(z, slots, at) <==> opening(at))
              && (forall at | 0 <= at < |screens| && opening(at) :: starting(at))
  {
  }

  lemma LeaseOf(r: Rack, w: nat)
    requires Sound(r) && w < |r.workers|
    ensures r.workers[w].lease < |r.leases|
  {
  }

  lemma WorkerIsSame(a: Rack, z: Rack, w: nat)
    requires Worked(a, z) && w < |a.workers|
    ensures w < |z.workers| && z.workers[w] == a.workers[w].(ticking := z.workers[w].ticking)
    ensures z.slots == a.slots && z.backends == a.backends
  {
  }

  lemma NobodyAsked(r: Rack, slots: seq<nat>, wedged: nat -> bool)
    ensures Offered(r, slots[..0], wedged, [], {}) && HeldOf(r, slots[..0], [])
  {
  }

  lemma OfferedThere(r: Rack, z: Rack, slots: seq<nat>, wedged: nat -> bool, held: seq<nat>, unguarded: set<Bus>)
    requires Offered(r, slots, wedged, held, unguarded) && z.slots == r.slots && z.backends == r.backends
    ensures Offered(z, slots, wedged, held, unguarded)
  {
  }

  lemma AskedStays(a: Rack, z: Rack, slots: seq<nat>, wedged: nat -> bool, held: seq<nat>, unguarded: set<Bus>)
    requires Worked(a, z) && Offered(a, slots, wedged, held, unguarded) && HeldOf(a, slots, held)
    ensures Offered(z, slots, wedged, held, unguarded) && HeldOf(z, slots, held)
  {
    assert forall b :: Busy(z, b, wedged) <==> Busy(a, b, wedged);
  }

  /** The next slot's worker is not held yet, and nobody has told it to leave. */
  lemma NobodyHoldsIt(r: Rack, slots: seq<nat>, i: nat, held: seq<nat>, screens: seq<Screen>, night: Night)
    requires Drawing(r, slots, screens, night) && Roster(r, slots, screens) && i < |slots|
    requires Holding(r, held) && HeldOf(r, slots[..i], held)
    requires slots[i] in r.slots && r.slots[slots[i]].worker.Some?
    ensures var w := r.slots[slots[i]].worker.value;
            w < |r.workers| && !r.workers[w].held && !Told(r, w) && w !in held
  {
    assert Drawn(r, slots[i], screens, night);
    NoSlotTwice(r, slots, screens);
    assert slots[i] !in slots[..i];
  }

  /** One more slot asked: a worker that lets go is held, one that does not leaves its bus
      unguarded. */
  lemma AskedOne(r: Rack, slots: seq<nat>, i: nat, wedged: nat -> bool, held: seq<nat>, unguarded: set<Bus>)
    requires i < |slots| && HeldOf(r, slots[..i], held) && Offered(r, slots[..i], wedged, held, unguarded)
    requires slots[i] in r.slots && slots[i] < |r.backends|
    ensures r.slots[slots[i]].worker.None? ==>
              Offered(r, slots[..i + 1], wedged, held, unguarded) && HeldOf(r, slots[..i + 1], held)
    ensures Busy(r, slots[i], wedged) && r.slots[slots[i]].worker.value !in held ==>
              && Offered(r, slots[..i + 1], wedged, held, unguarded + {BusOf(r.backends[slots[i]].display)})
              && HeldOf(r, slots[..i + 1], held)
  {
    assert slots[..i + 1] == slots[..i] + [slots[i]];
    if Busy(r, slots[i], wedged) {
      var now := unguarded + {BusOf(r.backends[slots[i]].display)};
      forall bus
        ensures bus in now <==> exists b :: b in slots[..i + 1] && Busy(r, b, wedged) && b < |r.backends|
                                  && BusOf(r.backends[b].display) == bus
      {
        assert slots[i] in slots[..i + 1];
      }
    }
  }

  lemma AskedHolds(r: Rack, slots: seq<nat>, i: nat, wedged: nat -> bool, held: seq<nat>, unguarded: set<Bus>,
                   screens: seq<Screen>, night: Night)
    requires Drawing(r, slots, screens, night) && Roster(r, slots, screens) && i < |slots|
    requires HeldOf(r, slots[..i], held) && Offered(r, slots[..i], wedged, held, unguarded)
    requires slots[i] in r.slots && r.slots[slots[i]].worker.Some? && !wedged(r.slots[slots[i]].worker.value)
    ensures var w := r.slots[slots[i]].worker.value;
            && w < |r.workers| && Offered(Hold(r, w, true), slots[..i + 1], wedged, held + [w], unguarded)
            && HeldOf(Hold(r, w, true), slots[..i + 1], held + [w])
  {
    assert forall b | b in slots :: Drawn(r, b, screens, night);
    NoSlotTwice(r, slots, screens);
    hide Drawing, Roster;
    var w := r.slots[slots[i]].worker.value;
    OthersHaveTheirOwn(r, slots, i, screens, night);
    assert slots[..i + 1] == slots[..i] + [slots[i]];
    assert forall b :: Busy(Hold(r, w, true), b, wedged) <==> Busy(r, b, wedged);
    assert !Busy(r, slots[i], wedged);
    hide Drawn;
  }

  lemma OthersHaveTheirOwn(r: Rack, slots: seq<nat>, i: nat, screens: seq<Screen>, night: Night)
    requires i < |slots| && forall b | b in slots :: b in r.slots && Drawn(r, b, screens, night)
    requires forall j, k | 0 <= j < k < |slots| :: slots[j] != slots[k]
    requires r.slots[slots[i]].worker.Some?
    ensures var w := r.slots[slots[i]].worker.value;
            && w < |r.workers| && r.workers[w].slot == slots[i]
            && forall b | b in slots[..i] && b in r.slots && r.slots[b].worker.Some? :: r.slots[b].worker.value != w
  {
    assert Drawn(r, slots[i], screens, night);
    forall b | b in slots[..i] && b in r.slots && r.slots[b].worker.Some?
      ensures r.slots[b].worker.value != r.slots[slots[i]].worker.value
    {
      assert Drawn(r, b, screens, night);
    }
  }

  function Marks(held: seq<nat>, holding: bool): seq<Event> {
    seq(|held|, i requires 0 <= i < |held| => if holding then Held(held[i]) else Freed(held[i]))
  }

  /** A slot whose worker has been told to leave and whose lease is gone. */
  ghost predicate Dismissed(r: Rack, b: nat) {
    b in r.slots && r.slots[b].stop && r.slots[b].lease < |r.leases| && !r.leases[r.slots[b].lease].live
  }

  ghost predicate Untouched(r: Rack, b: nat) {
    b < |r.backends| && r.backends[b].slept == 0 && r.backends[b].closed == 0
  }

  lemma ApartAlready(r: Rack, those: set<nat>)
    ensures Apart(r, r, those)
  {
  }

  lemma RetireSteps(r: Rack, b: nat, gone: seq<nat>, slots: seq<nat>, screens: seq<Screen>)
    requires Sound(r) && Roster(r, slots, screens) && b in slots && b in gone
    ensures b in r.slots && r.slots[b].lease < |r.leases|
    ensures var z := SetStop(Revoke(r, r.slots[b].lease), b);
            && Sound(z) && Roster(z, slots, screens) && Apart(r, z, Used(gone)) && SameAccount(r, z)
            && z.backends == r.backends && Dismissed(z, b) && z.quiet == r.quiet && z.exclusive == r.exclusive
            && z.slots.Keys == r.slots.Keys && forall s | s in r.slots :: z.slots[s].shutDown == r.slots[s].shutDown
  {
    hide Sound, Roster, Passed, Apart;
    RosterBounds(r, b, slots, screens);
    var l := r.slots[b].lease;
    var revoked := Revoke(r, l);
    RevokeSteps(r, l, slots, screens);
    SetStopSteps(revoked, b, slots, screens);
    RevokeIsApart(r, l, Used(gone));
    SlotStepsAreApart(revoked, b, Used(gone));
    ApartOn(r, revoked, SetStop(revoked, b), Used(gone));
  }

  lemma DismissedStays(a: Rack, z: Rack, those: set<nat>)
    requires Apart(a, z, those)
    ensures forall b | Dismissed(a, b) :: Dismissed(z, b)
  {
  }

  lemma NobodyHeld(r: Rack, slots: seq<nat>)
    requires NoneHeld(r)
    ensures Holding(r, []) && Guarded(r, slots, 0, {})
  {
  }

  lemma HeldStays(a: Rack, z: Rack, held: seq<nat>, slots: seq<nat>, n: nat, unguarded: set<Bus>)
    requires Worked(a, z) && Holding(a, held) && n <= |slots| && Guarded(a, slots, n, unguarded)
    ensures Holding(z, held) && Guarded(z, slots, n, unguarded)
    ensures z.slots == a.slots && z.backends == a.backends
  {
  }

  lemma SlotIsThere(r: Rack, slots: seq<nat>, i: nat, screens: seq<Screen>, night: Night)
    requires Sound(r) && Drawing(r, slots, screens, night) && i < |slots|
    ensures slots[i] in r.slots && slots[i] < |r.backends|
    ensures r.slots[slots[i]].worker.Some? ==> r.slots[slots[i]].worker.value < |r.workers|
  {
    assert Drawn(r, slots[i], screens, night);
  }

  lemma HoldOne(r: Rack, slots: seq<nat>, i: nat, held: seq<nat>, unguarded: set<Bus>, taken: bool,
                screens: seq<Screen>, night: Night)
    requires Sound(r) && Roster(r, slots, screens) && Drawing(r, slots, screens, night) && i < |slots|
    requires Holding(r, held) && Guarded(r, slots, i, unguarded)
    requires slots[i] in r.slots && slots[i] < |r.backends|
    requires r.slots[slots[i]].worker.Some? ==> r.slots[slots[i]].worker.value < |r.workers|
    requires taken ==> r.slots[slots[i]].worker.Some? && !r.workers[r.slots[slots[i]].worker.value].held
    ensures taken ==>
              var w := r.slots[slots[i]].worker.value; var z := Hold(r, w, true);
              && Sound(z) && Roster(z, slots, screens) && Drawing(z, slots, screens, night)
              && Holding(z, held + [w]) && Guarded(z, slots, i + 1, unguarded)
    ensures !taken && r.slots[slots[i]].worker.Some? ==>
              Guarded(r, slots, i + 1, unguarded + {BusOf(r.backends[slots[i]].display)})
    ensures !taken && r.slots[slots[i]].worker.None? ==> Guarded(r, slots, i + 1, unguarded)
  {
    hide Sound, Roster, Drawing;
    if taken {
      var w := r.slots[slots[i]].worker.value;
      HoldKeepsSound(r, w, true);
      HoldKeepsDrawing(r, w, true, slots, screens, night);
    }
  }

  lemma FreeOne(r: Rack, held: seq<nat>, slots: seq<nat>, screens: seq<Screen>, night: Night)
    requires Sound(r) && Roster(r, slots, screens) && Drawing(r, slots, screens, night) && Holding(r, held)
             && held != []
    ensures held[0] < |r.workers|
    ensures var z := Hold(r, held[0], false);
            && Sound(z) && Roster(z, slots, screens) && Drawing(z, slots, screens, night) && Holding(z, held[1..])
  {
    hide Sound, Roster, Drawing;
    assert held[0] in held;
    HoldKeepsSound(r, held[0], false);
    HoldKeepsDrawing(r, held[0], false, slots, screens, night);
    HoldingLess(r, held);
  }

  lemma HoldingLess(r: Rack, held: seq<nat>)
    requires Holding(r, held) && held != [] && held[0] < |r.workers|
    ensures Holding(Hold(r, held[0], false), held[1..])
  {
    var z := Hold(r, held[0], false);
    forall w | 0 <= w < |r.workers| ensures z.workers[w].held <==> w in held[1..] {
      assert w in held <==> w == held[0] || w in held[1..];
    }
    assert forall w | w in held[1..] :: w in held;
  }

  lemma NobodyLeftHeld(r: Rack)
    requires Holding(r, [])
    ensures NoneHeld(r)
  {
  }

  lemma NoneUsed()
    ensures Used([]) == {}
  {
  }

  lemma BlankSteps(r: Rack, gone: seq<nat>, i: nat, slots: seq<nat>, screens: seq<Screen>)
    requires Sound(r) && Roster(r, slots, screens) && i < |gone| && r.inHand == Used(gone[i..])
    requires Dismissed(r, gone[i])
    ensures Untouched(r, gone[i]) ==>
              gone[i] < |r.backends| && r.backends[gone[i]].slept == 0 && r.backends[gone[i]].closed == 0
    ensures var z := Claim(r, gone[i]);
            && Sound(z) && Roster(z, slots, screens) && gone[i] in z.inHand && gone[i] < |r.backends|
            && gone[i] in z.slots && z.slots[gone[i]].shutDown
            && z.slots[gone[i]].lease < |z.leases| && !z.leases[z.slots[gone[i]].lease].live
  {
    hide Sound, Roster;
    ClaimSteps(r, gone[i], slots, screens);
  }

  lemma BlankedSteps(before: Rack, r: Rack, gone: seq<nat>, i: nat, slots: seq<nat>, screens: seq<Screen>)
    requires Sound(r) && Roster(r, slots, screens) && i < |gone| && before.inHand == Used(gone[i..])
    requires before.adrift.None? && before.inFlight.None?
    requires forall a, b | 0 <= a < b < |gone| :: gone[a] != gone[b]
    requires forall k | i <= k < |gone| ::
               Dismissed(before, gone[k]) && !before.slots[gone[k]].shutDown && Untouched(before, gone[k])
    requires forall k | 0 <= k < i :: gone[k] in before.slots && before.slots[gone[k]].shutDown
    requires gone[i] !in slots && gone[i] !in before.twice && gone[i] in before.slots
    requires Passed(Claim(before, gone[i]), r, {gone[i]}) && Beside(Claim(before, gone[i]), r, gone[i])
    requires gone[i] < |r.backends| && r.backends[gone[i]].slept == 1 && r.backends[gone[i]].closed == 1
    ensures var z := LetGo(r, gone[i], false);
            && Sound(z) && Roster(z, slots, screens) && z.inHand == Used(gone[i + 1..]) && z.adrift.None?
            && z.inFlight.None?
            && Apart(before, z, Used(gone)) && SameMarks(before, z) && z.quiet == r.quiet && z.exclusive == r.exclusive
            && (forall k | i < k < |gone| ::
                  Dismissed(z, gone[k]) && gone[k] in z.slots && !z.slots[gone[k]].shutDown && Untouched(z, gone[k]))
            && (forall k | 0 <= k <= i :: gone[k] in z.slots && z.slots[gone[k]].shutDown)
  {
    hide Sound, Roster, Passed, Beside, Apart, Dismissed, Untouched, Used;
    var b := gone[i];
    var claimed, z := Claim(before, b), LetGo(r, b, false);
    BlankedFacts(before, r, b);
    UsedRest(gone, i);
    LetGoKeepsSound(r, b, false);
    BlankedRoster(r, b, slots, screens);
    SlotStepsAreApart(before, b, Used(gone));
    BesideIsApart(claimed, r, b, Used(gone));
    AccountIsApart(r, z, Used(gone));
    ApartOn(before, claimed, r, Used(gone));
    ApartOn(before, r, z, Used(gone));
    BlankedOthers(before, r, gone, i);
    LetGoLeaves(r, b);
  }

  lemma LetGoLeaves(r: Rack, b: nat)
    ensures var z := LetGo(r, b, false);
            && z.slots == r.slots && (forall s | Dismissed(r, s) :: Dismissed(z, s))
              && (forall s | Untouched(r, s) :: Untouched(z, s))
  {
  }

  lemma BlankedFacts(before: Rack, r: Rack, b: nat)
    requires b in before.slots && Passed(Claim(before, b), r, {b}) && b < |r.backends| && b !in before.twice
    ensures b in r.slots && r.slots[b].shutDown && r.twice == before.twice && r.inHand == before.inHand + {b}
    ensures r.adrift == before.adrift && r.inFlight == before.inFlight
            && (before.inFlight.None? ==> r.slipped == before.slipped)
  {
  }

  lemma BlankedRoster(r: Rack, b: nat, slots: seq<nat>, screens: seq<Screen>)
    requires Roster(r, slots, screens) && b in r.slots && r.slots[b].shutDown && b !in slots
    ensures Roster(LetGo(r, b, false), slots, screens)
  {
  }

  lemma UsedRest(gone: seq<nat>, i: nat)
    requires i < |gone| && forall a, b | 0 <= a < b < |gone| :: gone[a] != gone[b]
    ensures Used(gone[i..]) + {gone[i]} - {gone[i]} == Used(gone[i + 1..])
    ensures gone[i] in Used(gone[i..]) && gone[i] in Used(gone)
  {
    assert gone[i..] == [gone[i]] + gone[i + 1..];
  }

  lemma BlankedOthers(before: Rack, r: Rack, gone: seq<nat>, i: nat)
    requires i < |gone| && before.inHand == Used(gone[i..]) && gone[i] in before.slots
    requires forall a, b | 0 <= a < b < |gone| :: gone[a] != gone[b]
    requires forall k | i <= k < |gone| ::
               Dismissed(before, gone[k]) && !before.slots[gone[k]].shutDown && Untouched(before, gone[k])
    requires forall k | 0 <= k < i :: gone[k] in before.slots && before.slots[gone[k]].shutDown
    requires Beside(Claim(before, gone[i]), r, gone[i]) && Passed(Claim(before, gone[i]), r, {gone[i]})
    ensures forall k | i < k < |gone| ::
              Dismissed(r, gone[k]) && gone[k] in r.slots && !r.slots[gone[k]].shutDown && Untouched(r, gone[k])
    ensures forall k | 0 <= k <= i :: gone[k] in r.slots && r.slots[gone[k]].shutDown
  {
  }

  lemma RetiredAreApart(a: Rack, z: Rack, gone: seq<nat>, slots: seq<nat>, screens: seq<Screen>, night: Night)
    requires Sound(a) && Drawing(a, slots, screens, night) && Apart(a, z, Used(gone))
    requires forall b | b in gone :: b !in slots
    ensures Drawing(z, slots, screens, night)
  {
    assert forall w | 0 <= w < |a.workers| :: a.workers[w].lease < |a.leases|;
    hide Sound;
    DrawingApart(a, z, Used(gone), slots, screens, night);
  }

  // Adopting the pushed configuration.

  /** `match.screen = screen`, for every match. */
  function Repoint(r: Rack, ids: seq<nat>, places: seq<nat>): Rack
    requires |ids| == |places|
    decreases |ids|
  {
    if ids == [] then r
    else
      var n := |ids| - 1;
      var before := Repoint(r, ids[..n], places[..n]);
      if ids[n] in before.slots then WithSlot(before, ids[n], before.slots[ids[n]].(at := places[n])) else before
  }

  function IdsOf(slots: seq<nat>, at: seq<nat>): seq<nat>
    requires Within(at, |slots|)
  {
    seq(|at|, i requires 0 <= i < |at| => slots[at[i]])
  }

  lemma {:induction false} Repointed(r: Rack, ids: seq<nat>, places: seq<nat>)
    requires |ids| == |places| && Distinct(ids) && forall s | s in ids :: s in r.slots
    ensures var z := Repoint(r, ids, places);
            && z == r.(slots := z.slots) && z.slots.Keys == r.slots.Keys
            && (forall s | s in r.slots :: z.slots[s] == r.slots[s].(at := z.slots[s].at))
            && (forall i | 0 <= i < |ids| :: z.slots[ids[i]].at == places[i])
    decreases |ids|
  {
    if ids != [] {
      var n := |ids| - 1;
      Repointed(r, ids[..n], places[..n]);
      assert ids[n] in ids;
    }
  }

  function Running(r: Rack, slots: seq<nat>, screens: seq<Screen>): seq<Screen>
    requires forall s | s in slots :: s in r.slots && r.slots[s].at < |screens|
  {
    seq(|slots|, i requires 0 <= i < |slots| => screens[r.slots[slots[i]].at])
  }

  /** These slots already draw what the push asks for in these places. */
  ghost predicate KeptAs(a: Rack, slots: seq<nat>, screens: seq<Screen>, night: Night,
                         pushed: seq<Screen>, pushedNight: Night, keep: seq<nat>, places: seq<nat>) {
    && |keep| == |places| && Distinct(keep) && Distinct(places)
    && forall i | 0 <= i < |keep| ::
         && keep[i] in slots && keep[i] in a.slots && a.slots[keep[i]].at < |screens| && places[i] < |pushed|
         && KeyOf(screens[a.slots[keep[i]].at], night) == KeyOf(pushed[places[i]], pushedNight)
  }

  /** Every slot is kept or retired, and none is both. */
  ghost predicate Parted(slots: seq<nat>, keep: seq<nat>, gone: seq<nat>) {
    && (forall s | s in slots :: s in keep || s in gone) && (forall s | s in keep :: s in slots && s !in gone)
    && (forall s | s in gone :: s in slots) && Distinct(gone)
  }

  lemma PairsAreKept(a: Rack, slots: seq<nat>, screens: seq<Screen>, night: Night, pushed: seq<Screen>,
                     pushedNight: Night,
                     kept: seq<Pair>)
    requires Distinct(slots) && forall s | s in slots :: s in a.slots && a.slots[s].at < |screens|
    requires Pairs(kept, Keys(Running(a, slots, screens), night), Keys(pushed, pushedNight))
    ensures Within(SlotsOf(kept), |slots|)
    ensures KeptAs(a, slots, screens, night, pushed, pushedNight, IdsOf(slots, SlotsOf(kept)), PlacesOf(kept))
  {
    var running := Running(a, slots, screens);
    assert Within(SlotsOf(kept), |slots|);
    var keep: seq<nat> := IdsOf(slots, SlotsOf(kept));
    forall i | 0 <= i < |keep|
      ensures keep[i] in slots && kept[i].place < |pushed|
      ensures KeyOf(screens[a.slots[keep[i]].at], night) == KeyOf(pushed[kept[i].place], pushedNight)
    {
      assert Keys(running, night)[kept[i].slot] == KeyOf(running[kept[i].slot], night);
      assert Keys(pushed, pushedNight)[kept[i].place] == KeyOf(pushed[kept[i].place], pushedNight);
    }
    forall i, j | 0 <= i < j < |keep| ensures keep[i] != keep[j] {
      assert kept[i].slot != kept[j].slot;
    }
  }

  lemma KeptOrRetired(slots: seq<nat>, kept: seq<Pair>, retired: seq<nat>)
    requires Distinct(slots) && Within(SlotsOf(kept), |slots|) && Within(retired, |slots|) && Distinct(retired)
    requires forall i | 0 <= i < |kept| :: kept[i].slot !in retired
    requires multiset(SlotsOf(kept)) + multiset(retired) == multiset(Indices(|slots|))
    ensures Parted(slots, IdsOf(slots, SlotsOf(kept)), IdsOf(slots, retired))
  {
    var keep, gone := IdsOf(slots, SlotsOf(kept)), IdsOf(slots, retired);
    forall k | 0 <= k < |slots| ensures slots[k] in keep || slots[k] in gone {
      assert Indices(|slots|)[k] == k;
      assert k in multiset(SlotsOf(kept)) + multiset(retired);
      if k in SlotsOf(kept) {
        var i :| 0 <= i < |kept| && SlotsOf(kept)[i] == k;
        assert keep[i] == slots[k];
      } else {
        var i :| 0 <= i < |retired| && retired[i] == k;
        assert gone[i] == slots[k];
      }
    }
    forall i, j | 0 <= i < |kept| && 0 <= j < |retired| ensures keep[i] != gone[j] {
      assert retired[j] in retired && SlotsOf(kept)[i] == kept[i].slot;
    }
  }

  /** After the retirements, what is left draws exactly what the push asks of it. */
  lemma Adopted(a: Rack, m: Rack, slots: seq<nat>, screens: seq<Screen>, night: Night,
                pushed: seq<Screen>, pushedNight: Night, keep: seq<nat>, places: seq<nat>, gone: seq<nat>)
    requires Sound(m) && Idle(m) && Roster(m, slots, screens) && Drawing(a, slots, screens, night)
    requires Apart(a, m, Used(gone)) && forall b | b in gone :: Dismissed(m, b)
    requires KeptAs(a, slots, screens, night, pushed, pushedNight, keep, places) && Parted(slots, keep, gone)
    ensures |keep| == |places|
    ensures var z := Repoint(m, keep, places).(inHand := Used(gone));
            && Sound(z) && Roster(z, keep, pushed) && Drawing(z, keep, pushed, pushedNight)
            && Places(z, keep) == places && z == m.(slots := z.slots, inHand := Used(gone))
            && z.slots.Keys == m.slots.Keys
            && (forall s | s in m.slots :: z.slots[s] == m.slots[s].(at := z.slots[s].at))
  {
    hide Sound, Roster, Drawing, Apart, Wired, KeptAs, Parted, Dismissed, Repoint, Used, Places;
    KeptIsThere(a, m, slots, screens, night, pushed, pushedNight, keep, places);
    SoundIsWired(m);
    Repointed(m, keep, places);
    var z := Repoint(m, keep, places);
    PlacesAre(z.(inHand := Used(gone)), keep, places);
    KeptDraw(a, m, z, slots, screens, night, pushed, pushedNight, keep, places, gone);
    KeptRoster(a, m, z, slots, screens, night, pushed, pushedNight, keep, places, gone);
    RepointedIsSound(m, z, gone);
  }

  lemma KeptIsThere(a: Rack, m: Rack, slots: seq<nat>, screens: seq<Screen>, night: Night,
                    pushed: seq<Screen>, pushedNight: Night, keep: seq<nat>, places: seq<nat>)
    requires Roster(m, slots, screens) && KeptAs(a, slots, screens, night, pushed, pushedNight, keep, places)
    ensures |keep| == |places| && Distinct(keep) && forall s | s in keep :: s in m.slots
  {
  }

  lemma PlacesAre(r: Rack, keep: seq<nat>, places: seq<nat>)
    requires |keep| == |places| && forall i | 0 <= i < |keep| :: keep[i] in r.slots && r.slots[keep[i]].at == places[i]
    ensures Places(r, keep) == places
  {
  }

  lemma SoundIsWired(r: Rack)
    requires Sound(r)
    ensures Wired(r)
  {
  }

  lemma RepointedIsSound(m: Rack, z: Rack, gone: seq<nat>)
    requires Sound(m) && z == m.(slots := z.slots) && z.slots.Keys == m.slots.Keys && Idle(m)
    requires forall s | s in m.slots :: z.slots[s] == m.slots[s].(at := z.slots[s].at)
    requires forall s | s in gone :: Dismissed(m, s)
    ensures Sound(z.(inHand := Used(gone)))
  {
    hide Sound, Leased, Unreached, Counted;
    SoundParts(m);
    RepointedIsCounted(m, z, gone);
    RepointedIsUnreached(m, z, gone);
    SoundFrom(z.(inHand := Used(gone)));
  }

  lemma SoundParts(r: Rack)
    ensures Sound(r) ==> Wired(r) && Leased(r) && Unreached(r) && Counted(r)
  {
  }

  lemma SoundFrom(r: Rack)
    requires Wired(r) && Leased(r) && Unreached(r) && Counted(r)
    ensures Sound(r)
  {
  }

  lemma RepointedIsCounted(m: Rack, z: Rack, gone: seq<nat>)
    requires Wired(m) && Counted(m) && z == m.(slots := z.slots) && z.slots.Keys == m.slots.Keys && Idle(m)
    requires forall s | s in m.slots :: z.slots[s] == m.slots[s].(at := z.slots[s].at)
    requires forall s | s in gone :: Dismissed(m, s)
    ensures Wired(z.(inHand := Used(gone))) && Counted(z.(inHand := Used(gone)))
  {
  }

  lemma RepointedIsUnreached(m: Rack, z: Rack, gone: seq<nat>)
    requires Wired(m) && Leased(m) && Unreached(m) && z == m.(slots := z.slots) && z.slots.Keys == m.slots.Keys
    requires Wired(z.(inHand := Used(gone)))
    requires forall s | s in m.slots :: z.slots[s] == m.slots[s].(at := z.slots[s].at)
    ensures Leased(z.(inHand := Used(gone))) && Unreached(z.(inHand := Used(gone)))
  {
  }

  lemma SlotsAreThere(r: Rack, slots: seq<nat>, screens: seq<Screen>)
    requires Roster(r, slots, screens)
    ensures Distinct(slots) && forall s | s in slots :: s in r.slots && r.slots[s].at < |screens|
  {
  }

  lemma KeptDraw(a: Rack, m: Rack, z: Rack, slots: seq<nat>, screens: seq<Screen>, night: Night,
                 pushed: seq<Screen>, pushedNight: Night, keep: seq<nat>, places: seq<nat>, gone: seq<nat>)
    requires Wired(m) && Drawing(a, slots, screens, night) && Apart(a, m, Used(gone))
    requires forall b | b in gone :: Dismissed(m, b)
    requires KeptAs(a, slots, screens, night, pushed, pushedNight, keep, places) && Parted(slots, keep, gone)
    requires z == m.(slots := z.slots) && z.slots.Keys == m.slots.Keys
    requires forall s | s in m.slots :: z.slots[s] == m.slots[s].(at := z.slots[s].at)
    requires forall i | 0 <= i < |keep| :: keep[i] in z.slots && z.slots[keep[i]].at == places[i]
    ensures Drawing(z.(inHand := Used(gone)), keep, pushed, pushedNight)
  {
    var z' := z.(inHand := Used(gone));
    forall i | 0 <= i < |keep| ensures Drawn(z', keep[i], pushed, pushedNight) {
      assert keep[i] in keep && Drawn(a, keep[i], screens, night);
      OneKept(a, m, z', keep[i], gone, screens, night, pushed, pushedNight, places[i]);
    }
    forall w | 0 <= w < |z'.workers| && z'.workers[w].lease < |z'.leases| && Live(z', w)
      ensures z'.workers[w].slot in keep
    {
      assert z'.workers[w].lease == a.workers[w].lease && z'.workers[w].slot == a.workers[w].slot && Live(a, w);
      GoneAreDismissed(a, m, slots, gone, screens, night, w);
    }
    hide Drawn, Apart, Wired;
  }

  lemma OneKept(a: Rack, m: Rack, z: Rack, s: nat, gone: seq<nat>, screens: seq<Screen>, night: Night,
                pushed: seq<Screen>, pushedNight: Night, place: nat)
    requires Wired(m) && Drawn(a, s, screens, night) && Apart(a, m, Used(gone)) && s !in gone && !a.storeClosed
    requires s in z.slots && z == m.(slots := z.slots, inHand := z.inHand) && s in m.slots
    requires z.slots[s] == m.slots[s].(at := place) && place < |pushed|
    requires KeyOf(screens[a.slots[s].at], night) == KeyOf(pushed[place], pushedNight)
    ensures Drawn(z, s, pushed, pushedNight)
  {
    assert s !in Used(gone);
    assert forall w | 0 <= w < |a.workers| :: a.workers[w].lease == m.workers[w].lease < |m.leases|;
    DrawnApart(a, m, Used(gone), s, screens, night);
  }

  lemma GoneAreDismissed(a: Rack, m: Rack, slots: seq<nat>, gone: seq<nat>, screens: seq<Screen>, night: Night, w: nat)
    requires Drawing(a, slots, screens, night) && Apart(a, m, Used(gone)) && forall b | b in gone :: Dismissed(m, b)
    requires w < |m.workers| && w < |a.workers| && m.workers[w].lease < |m.leases| && a.workers[w].lease < |a.leases|
    requires Live(m, w)
    ensures m.workers[w].slot in slots && m.workers[w].slot !in gone
  {
    var b := a.workers[w].slot;
    assert Live(a, w) && b in slots && Drawn(a, b, screens, night);
    assert b in gone ==> Dismissed(m, b);
  }

  lemma KeptRoster(a: Rack, m: Rack, z: Rack, slots: seq<nat>, screens: seq<Screen>, night: Night,
                   pushed: seq<Screen>, pushedNight: Night, keep: seq<nat>, places: seq<nat>, gone: seq<nat>)
    requires Idle(m) && Roster(m, slots, screens) && Apart(a, m, Used(gone))
    requires KeptAs(a, slots, screens, night, pushed, pushedNight, keep, places) && Parted(slots, keep, gone)
    requires z == m.(slots := z.slots) && z.slots.Keys == m.slots.Keys
    requires forall s | s in m.slots :: z.slots[s] == m.slots[s].(at := z.slots[s].at)
    requires forall i | 0 <= i < |keep| :: keep[i] in z.slots && z.slots[keep[i]].at == places[i]
    ensures Roster(z.(inHand := Used(gone)), keep, pushed)
  {
    hide Apart, Roster;
    forall i | 0 <= i < |keep| ensures PlacedAt(m, z, keep[i], places[i], pushed) {
      assert keep[i] in keep && keep[i] in slots;
      KeptIsPlaced(a, m, z, keep[i], gone, slots, screens, places[i], pushed);
    }
    RosterOfKept(m, z, slots, keep, places, gone, screens, pushed);
  }

  /** A kept slot stands for a pushed screen with the display it was opened on. */
  ghost predicate PlacedAt(m: Rack, z: Rack, s: nat, place: nat, pushed: seq<Screen>) {
    && s in m.slots && s in z.slots && s < |z.backends| && z.slots[s] == m.slots[s].(at := place) && place < |pushed|
    && z.backends[s].display == pushed[place].config.display
  }

  lemma KeptIsPlaced(a: Rack, m: Rack, z: Rack, s: nat, gone: seq<nat>, slots: seq<nat>, screens: seq<Screen>,
                     place: nat, pushed: seq<Screen>)
    requires Roster(m, slots, screens) && Apart(a, m, Used(gone)) && s in slots && s !in gone
    requires s in a.slots && a.slots[s].at < |screens| && place < |pushed|
    requires screens[a.slots[s].at].config.display == pushed[place].config.display
    requires z == m.(slots := z.slots) && s in z.slots && s in m.slots && z.slots[s] == m.slots[s].(at := place)
    ensures PlacedAt(m, z, s, place, pushed)
  {
    assert s !in Used(gone) && m.slots[s] == a.slots[s];
  }

  lemma RosterOfKept(m: Rack, z: Rack, slots: seq<nat>, keep: seq<nat>, places: seq<nat>, gone: seq<nat>,
                     screens: seq<Screen>, pushed: seq<Screen>)
    requires Idle(m) && Roster(m, slots, screens) && z == m.(slots := z.slots) && z.slots.Keys == m.slots.Keys
    requires |places| == |keep| && Distinct(keep) && Distinct(places) && Parted(slots, keep, gone)
    requires forall i | 0 <= i < |keep| :: PlacedAt(m, z, keep[i], places[i], pushed)
    requires forall s | s in m.slots :: z.slots[s] == m.slots[s].(at := z.slots[s].at)
    ensures Roster(z.(inHand := Used(gone)), keep, pushed)
  {
    forall b, c | b in keep && c in keep && b != c ensures z.slots[b].at != z.slots[c].at {
      var i :| 0 <= i < |keep| && keep[i] == b;
      var j :| 0 <= j < |keep| && keep[j] == c;
    }
  }

  /** A list in another order is the same list. */
  lemma Reordered(r: Rack, slots: seq<nat>, now: seq<nat>, screens: seq<Screen>, night: Night)
    requires (forall s :: s in slots <==> s in now) && Distinct(now)
    ensures Roster(r, slots, screens) ==> Roster(r, now, screens)
    ensures Drawing(r, slots, screens, night) ==> Drawing(r, now, screens, night)
  {
  }

  lemma SameMembers(slots: seq<nat>, now: seq<nat>)
    requires multiset(slots) == multiset(now)
    ensures forall s :: s in slots <==> s in now
  {
    forall s ensures s in slots <==> s in now {
      assert s in multiset(slots) <==> s in multiset(now);
    }
  }

  // Opening what is new.

  ghost predicate AllQuiet(r: Rack, unguarded: set<Bus>) {
    forall bus :: bus !in unguarded ==> Quiet(r, bus)
  }

  lemma GuardKeepsQuiet(r: Rack, slots: seq<nat>, unguarded: set<Bus>, screens: seq<Screen>, night: Night)
    requires Drawing(r, slots, screens, night) && Guarded(r, slots, |slots|, unguarded)
    ensures AllQuiet(r, unguarded)
  {
    hide Drawing, Guarded, Quiet;
    forall bus | bus !in unguarded ensures Quiet(r, bus) {
      GuardedIsQuiet(r, slots, unguarded, bus, screens, night);
    }
  }

  lemma ApartKeepsGuard(a: Rack, z: Rack, those: set<nat>, held: seq<nat>, unguarded: set<Bus>)
    requires Apart(a, z, those)
    ensures Holding(a, held) ==> Holding(z, held)
    ensures AllQuiet(a, unguarded) ==> AllQuiet(z, unguarded)
  {
    if AllQuiet(a, unguarded) {
      forall bus | bus !in unguarded ensures Quiet(z, bus) {
        QuietApart(a, z, those, bus);
      }
    }
  }

  lemma OpeningKeepsGuard(a: Rack, z: Rack, held: seq<nat>, unguarded: set<Bus>)
    requires Sound(a) && Grew(a, z) && |a.workers| == |z.workers|
    ensures Holding(a, held) ==> Holding(z, held)
    ensures AllQuiet(a, unguarded) ==> AllQuiet(z, unguarded)
  {
    if AllQuiet(a, unguarded) {
      forall bus | bus !in unguarded ensures Quiet(z, bus) {
        QuietGrows(a, z, bus);
      }
    }
  }

  lemma Unopened(r: Rack, slots: seq<nat>, unavailable: seq<nat>, places: multiset<nat>, at: nat)
    requires Accounted(r, slots, unavailable, places)
    ensures Accounted(r, slots, unavailable + [at], places + multiset{at})
  {
  }

  lemma StartKeepsAccount(a: Rack, z: Rack, slots: seq<nat>, b: nat, unavailable: seq<nat>, places: multiset<nat>)
    requires Grew(a, z) && b in slots && Distinct(slots) && forall s | s in slots :: s in a.slots
    requires Accounted(a, slots, unavailable, places)
    ensures Accounted(z, Removed(slots, b), unavailable + [a.slots[b].at], places)
  {
    RemovedMembers(slots, b);
    AccountStays(a, z, slots, unavailable, places);
    PlacesWithout(z, slots, b);
  }

  lemma BusIsQuiet(r: Rack, unguarded: set<Bus>, bus: Bus)
    requires AllQuiet(r, unguarded) && bus !in unguarded
    ensures Quiet(r, bus)
  {
  }

  lemma UnmovedMarks(a: Rack, z: Rack)
    requires Unmoved(a, z)
    ensures SameMarks(a, z)
  {
  }

  lemma UnmovedOn(a: Rack, m: Rack, z: Rack)
    requires Unmoved(a, m) && Unmoved(m, z)
    ensures Unmoved(a, z)
  {
  }

  lemma PlacesDiffer(r: Rack, slots: seq<nat>, screens: seq<Screen>)
    requires Roster(r, slots, screens)
    ensures forall i, j | 0 <= i < j < |slots| :: At(r, slots[i]) != At(r, slots[j])
  {
  }

  /** In the order of the screens they stand for. */
  ghost predicate InOrder(r: Rack, slots: seq<nat>) {
    forall i, j | 0 <= i < j < |slots| :: At(r, slots[i]) < At(r, slots[j])
  }

  /** The same slots, in order. */
  ghost predicate SortedCopy(r: Rack, sorted: seq<nat>, listed: seq<nat>) {
    && InOrder(r, sorted) && multiset(sorted) == multiset(listed)
    && multiset(Places(r, sorted)) == multiset(Places(r, listed))
  }

  lemma InsertedAt(r: Rack, sorted: seq<nat>, j: nat, done: seq<nat>, b: nat)
    requires j <= |sorted| && SortedCopy(r, sorted, done)
    requires forall k | 0 <= k < j :: At(r, sorted[k]) < At(r, b)
    requires j < |sorted| ==> At(r, sorted[j]) > At(r, b)
    ensures SortedCopy(r, sorted[..j] + [b] + sorted[j..], done + [b])
  {
    StillInOrder(r, sorted, j, b);
    hide InOrder, At;
    var now := sorted[..j] + [b] + sorted[j..];
    Inserted(sorted, j, b);
    Inserted(Places(r, sorted), j, At(r, b));
    assert Places(r, now) == Places(r, sorted)[..j] + [At(r, b)] + Places(r, sorted)[j..];
    assert Places(r, done + [b]) == Places(r, done) + [At(r, b)];
  }

  lemma Inserted(s: seq<nat>, j: nat, x: nat)
    requires j <= |s|
    ensures multiset(s[..j] + [x] + s[j..]) == multiset(s + [x])
  {
    assert s == s[..j] + s[j..];
  }

  lemma StillInOrder(r: Rack, sorted: seq<nat>, j: nat, b: nat)
    requires j <= |sorted| && InOrder(r, sorted)
    requires forall k | 0 <= k < j :: At(r, sorted[k]) < At(r, b)
    requires j < |sorted| ==> At(r, sorted[j]) > At(r, b)
    ensures InOrder(r, sorted[..j] + [b] + sorted[j..])
  {
    hide At;
    var now := sorted[..j] + [b] + sorted[j..];
    forall i, k | 0 <= i < k < |now| ensures At(r, now[i]) < At(r, now[k]) {
      if k > j {
        assert now[k] == sorted[k - 1] && At(r, sorted[j]) <= At(r, sorted[k - 1]);
      }
    }
  }

  /** Insertion by which screen each slot stands for. */
  method Sort(r: Rack, listed: seq<nat>) returns (sorted: seq<nat>)
    requires forall i, j | 0 <= i < j < |listed| :: At(r, listed[i]) != At(r, listed[j])
    ensures SortedCopy(r, sorted, listed)
  {
    hide SortedCopy, At;
    sorted := [];
    NothingInOrder(r);
    for i := 0 to |listed|
      invariant SortedCopy(r, sorted, listed[..i])
    {
      var j := Position(r, sorted, listed[i]);
      if j < |sorted| {
        Among(r, sorted, listed[..i], sorted[j]);
      }
      InsertedAt(r, sorted, j, listed[..i], listed[i]);
      assert listed[..i + 1] == listed[..i] + [listed[i]];
      sorted := sorted[..j] + [listed[i]] + sorted[j..];
    }
    assert listed[..|listed|] == listed;
  }

  method Position(r: Rack, sorted: seq<nat>, b: nat) returns (j: nat)
    ensures j <= |sorted| && forall k | 0 <= k < j :: At(r, sorted[k]) < At(r, b)
    ensures j < |sorted| ==> At(r, sorted[j]) >= At(r, b)
  {
    j := 0;
    while j < |sorted| && At(r, sorted[j]) < At(r, b)
      invariant j <= |sorted| && forall k | 0 <= k < j :: At(r, sorted[k]) < At(r, b)
    {
      j := j + 1;
    }
  }

  lemma NothingInOrder(r: Rack)
    ensures SortedCopy(r, [], [])
  {
  }

  lemma OrderedIsDistinct(r: Rack, slots: seq<nat>)
    requires InOrder(r, slots)
    ensures Distinct(slots)
  {
  }

  lemma Among(r: Rack, sorted: seq<nat>, done: seq<nat>, s: nat)
    requires SortedCopy(r, sorted, done) && s in sorted
    ensures exists i :: 0 <= i < |done| && done[i] == s
  {
    assert s in multiset(done);
  }

  /** The retired slots, ready to be blanked: in no list, their leases gone, their panels lit. */
  ghost predicate Gone(r: Rack, slots: seq<nat>, gone: seq<nat>) {
    && Distinct(gone)
    && forall k | 0 <= k < |gone| ::
         && gone[k] !in slots && gone[k] in r.slots && Dismissed(r, gone[k]) && Untouched(r, gone[k])
         && !r.slots[gone[k]].shutDown && gone[k] !in r.twice
  }

  ghost predicate StillRuns(r: Rack, b: nat) {
    b in r.slots && r.slots[b].worker.Some?
  }

  /** The same backend, lease and worker, whichever screen object the slot points at. */
  ghost predicate SameWorker(a: Rack, z: Rack, b: nat) {
    b in a.slots && b in z.slots && z.slots[b] == a.slots[b].(at := z.slots[b].at)
  }

  ghost predicate SlotsKept(a: Rack, z: Rack, slots: seq<nat>) {
    forall s | s in slots :: s in a.slots && s in z.slots && z.slots[s] == a.slots[s]
  }

  /** Leases can only have ended. */
  ghost predicate LeasesEnd(a: Rack, z: Rack) {
    |z.leases| == |a.leases| && forall l | 0 <= l < |a.leases| :: z.leases[l].live ==> a.leases[l].live
  }

  lemma WorkedEnds(a: Rack, m: Rack, z: Rack)
    requires LeasesEnd(a, m) && Worked(m, z)
    ensures LeasesEnd(a, z)
  {
  }

  lemma GoneAreListed(r: Rack, slots: seq<nat>, screens: seq<Screen>, keep: seq<nat>, gone: seq<nat>)
    requires Roster(r, slots, screens) && Parted(slots, keep, gone)
    ensures forall b | b in gone :: b in r.slots && b in slots
  {
  }

  lemma GoneAreReady(a: Rack, m: Rack, slots: seq<nat>, screens: seq<Screen>, night: Night,
                     keep: seq<nat>, places: seq<nat>, gone: seq<nat>)
    requires Sound(a) && Idle(a) && Roster(a, slots, screens) && Drawing(a, slots, screens, night)
    requires Parted(slots, keep, gone) && |keep| == |places|
    requires m.backends == a.backends && SameAccount(a, m)
    requires forall b | b in gone :: b in a.slots && Dismissed(m, b) && m.slots[b].shutDown == a.slots[b].shutDown
    requires var z := Repoint(m, keep, places).(inHand := Used(gone));
             && z == m.(slots := z.slots, inHand := Used(gone)) && z.slots.Keys == m.slots.Keys
             && forall s | s in m.slots :: z.slots[s] == m.slots[s].(at := z.slots[s].at)
    ensures Gone(Repoint(m, keep, places).(inHand := Used(gone)), keep, gone)
  {
    forall k | 0 <= k < |gone| ensures Untouched(a, gone[k]) && !a.slots[gone[k]].shutDown && gone[k] !in a.twice {
      assert gone[k] in gone && gone[k] in slots && Drawn(a, gone[k], screens, night);
      OutOfHand(a, slots, screens, gone[k]);
    }
    hide Sound, Roster, Drawing, Repoint;
  }

  lemma KeptGoOn(a: Rack, m: Rack, slots: seq<nat>, screens: seq<Screen>, night: Night, pushed: seq<Screen>,
                 pushedNight: Night,
                 keep: seq<nat>, places: seq<nat>, gone: seq<nat>)
    requires Apart(a, m, Used(gone)) && KeptAs(a, slots, screens, night, pushed, pushedNight, keep, places)
    requires Parted(slots, keep, gone) && |keep| == |places| && NoneHeld(a)
    requires var z := Repoint(m, keep, places).(inHand := Used(gone));
             && z == m.(slots := z.slots, inHand := Used(gone)) && z.slots.Keys == m.slots.Keys
             && forall s | s in m.slots :: z.slots[s] == m.slots[s].(at := z.slots[s].at)
    ensures var z := Repoint(m, keep, places).(inHand := Used(gone));
            NoneHeld(z) && forall b | b in keep :: SameWorker(a, z, b)
  {
    hide Repoint;
  }

  lemma GoneStillReady(a: Rack, z: Rack, slots: seq<nat>, gone: seq<nat>)
    requires Gone(a, slots, gone) && z.slots == a.slots && z.backends == a.backends && z.twice == a.twice
    requires LeasesEnd(a, z)
    ensures Gone(z, slots, gone)
  {
  }

  lemma AccountedFor(a: Rack, guarded: Rack, z: Rack, slots: seq<nat>, places: seq<nat>, gone: seq<nat>,
                     added: seq<nat>)
    requires guarded.slots == a.slots && Apart(guarded, z, Used(gone)) && Places(a, slots) == places
    requires forall k | 0 <= k < |added| :: added[k] !in places
    requires forall s | s in slots :: s in a.slots
    ensures Accounted(z, slots, [], multiset(places))
    ensures forall b, k | b in slots && 0 <= k < |added| :: At(z, b) != added[k]
  {
    assert Places(z, slots) == places;
    forall b, k | b in slots && 0 <= k < |added| ensures At(z, b) != added[k] {
      var i :| 0 <= i < |slots| && slots[i] == b;
      assert places[i] == At(z, b) && places[i] in places;
    }
  }

  lemma SlotsAllKept(a: Rack, guarded: Rack, blanked: Rack, bare: Rack, z: Rack, slots: seq<nat>, gone: seq<nat>)
    requires Gone(a, slots, gone) && guarded.slots == a.slots && Apart(guarded, blanked, Used(gone))
    requires Unmoved(blanked, bare) && z.slots == bare.slots && forall s | s in slots :: s in a.slots
    requires forall b | b in gone :: b in blanked.slots && blanked.slots[b].shutDown
    ensures SlotsKept(a, z, slots) && forall b | b in gone :: b in z.slots && z.slots[b].shutDown
  {
    assert forall k | 0 <= k < |gone| :: gone[k] !in slots;
    assert forall s | s in slots :: s !in Used(gone);
  }

  lemma KeptToTheEnd(a: Rack, taken: Rack, drawn: Rack, z: Rack, keep: seq<nat>, listed: seq<nat>, slots: seq<nat>)
    requires forall b | b in keep :: SameWorker(a, taken, b)
    requires SlotsKept(taken, drawn, keep) && keep <= listed
    requires forall b | b in listed && b in drawn.slots && drawn.slots[b].worker.Some? ::
               b in slots && b in z.slots && z.slots[b] == drawn.slots[b]
    ensures forall b | b in keep && StillRuns(a, b) :: b in slots && SameWorker(a, z, b)
  {
  }

  lemma GoneStayShut(a: Rack, z: Rack, gone: seq<nat>)
    requires Grew(a, z) && forall b | b in gone :: b in a.slots && a.slots[b].shutDown
    ensures forall b | b in gone :: b in z.slots && z.slots[b].shutDown
  {
  }

  ghost predicate Listed(r: Rack, slots: seq<nat>, screens: seq<Screen>) {
    forall s | s in slots :: s in r.slots && r.slots[s].at < |screens|
  }

  lemma RunningLength(r: Rack, slots: seq<nat>, screens: seq<Screen>)
    requires Listed(r, slots, screens)
    ensures |Running(r, slots, screens)| == |slots|
  {
  }

  lemma NeverAdded(kept: seq<Pair>, added: seq<nat>)
    requires forall i | 0 <= i < |kept| :: kept[i].place !in added
    ensures forall k | 0 <= k < |added| :: added[k] !in PlacesOf(kept)
  {
  }

  lemma NotKeptIsGone(slots: seq<nat>, keep: seq<nat>, gone: seq<nat>)
    requires Parted(slots, keep, gone)
    ensures forall b | b in slots && b !in keep :: b in gone
  {
  }

  /** A push that neither adds nor retires leaves every object as it is. */
  lemma Unmoving(r: Rack, slots: seq<nat>, screens: seq<Screen>, night: Night, pushed: seq<Screen>, pushedNight: Night,
                 keep: seq<nat>, places: seq<nat>, gone: seq<nat>)
    requires Sound(r) && Idle(r) && NoneHeld(r) && Roster(r, slots, screens) && Drawing(r, slots, screens, night)
             && gone == []
    requires KeptAs(r, slots, screens, night, pushed, pushedNight, keep, places) && Parted(slots, keep, gone)
    ensures |keep| == |places|
    ensures var z := Repoint(r, keep, places);
            && Sound(z) && Idle(z) && NoneHeld(z) && Roster(z, slots, pushed) && Drawing(z, slots, pushed, pushedNight)
            && z == r.(slots := z.slots) && forall b | b in keep :: b in slots && SameWorker(r, z, b)
  {
    hide Sound, Roster, Drawing, KeptAs, Repoint, Apart;
    ApartAlready(r, Used(gone));
    SlotsAreThere(r, slots, screens);
    KeptIsThere(r, r, slots, screens, night, pushed, pushedNight, keep, places);
    Adopted(r, r, slots, screens, night, pushed, pushedNight, keep, places, gone);
    var z := Repoint(r, keep, places);
    Repointed(r, keep, places);
    NoneUsed();
    assert z.inHand == r.inHand == {} && z.(inHand := Used(gone)) == z;
    Reordered(z, keep, slots, pushed, pushedNight);
    assert forall b | b in keep :: b in slots;
  }

  // ---------------------------------------------------------------- one candidate panel

  datatype Device = Device(bus: nat, cs: nat)

  function DeviceOf(display: Display): Device {
    Device(display.bus, display.cs)
  }

  /** Sleep and close a panel no slot was ever given. */
  function CloseLoose(r: Rack, b: nat): Rack
    requires b < |r.backends|
  {
    r.(backends := r.backends[b := r.backends[b].(slept := 1, closed := 1)], adrift := None)
  }

  ghost function OpenPanels(r: Rack): set<nat> {
    set b: nat | b < |r.backends| && r.backends[b].closed == 0
  }

  /** A device no configured screen claims is open nowhere. */
  lemma UnclaimedIsUnused(r: Rack, slots: seq<nat>, screens: seq<Screen>, display: Display)
    requires Sound(r) && Roster(r, slots, screens) && r.inHand == {} && r.adrift.None?
    requires forall i | 0 <= i < |screens| :: !SameDevice(screens[i].config.display, display)
    ensures Unused(r, display)
  {
    forall b | 0 <= b < |r.backends| && r.backends[b].closed == 0 ensures !SameDevice(r.backends[b].display, display) {
      assert b in r.slots && !r.slots[b].shutDown;
    }
  }

  /** A panel opened, painted and closed again leaves the rack as it found it. */
  lemma ProbedSteps(r: Rack, display: Display, painted: Rack, slots: seq<nat>, screens: seq<Screen>, night: Night,
                    held: seq<nat>)
    requires Sound(r) && Idle(r) && Roster(r, slots, screens) && Drawing(r, slots, screens, night) && Holding(r, held)
    requires Worked(OpenDevice(r, display), painted) && Sound(painted) && Roster(painted, slots, screens)
    ensures var z := CloseLoose(painted, |r.backends|);
            && Sound(z) && Idle(z) && Roster(z, slots, screens) && Drawing(z, slots, screens, night) && Holding(z, held)
            && z.slots == r.slots && OpenPanels(z) == OpenPanels(r) && SameMarks(r, z)
            && z.quiet == painted.quiet && z.exclusive == painted.exclusive
  {
    hide Sound, Roster, Drawing, Holding, Worked, Quiet, Unused, OpenPanels;
    LooseKeepsSound(r, display, painted);
    OpeningKeepsRest(r, display, slots, screens, night, held);
    DrawingGoesOn(OpenDevice(r, display), painted, slots, screens, night);
    HoldingGoesOn(OpenDevice(r, display), painted, held);
    PaintedIsThere(r, display, painted);
    LooseKeepsRest(painted, |r.backends|, slots, screens, night, held);
    StillOpen(r, display, painted);
  }

  lemma OpeningKeepsRest(r: Rack, display: Display, slots: seq<nat>, screens: seq<Screen>, night: Night, held: seq<nat>)
    ensures Drawing(r, slots, screens, night) ==> Drawing(OpenDevice(r, display), slots, screens, night)
    ensures Holding(r, held) ==> Holding(OpenDevice(r, display), held)
  {
    hide Quiet, Unused;
  }

  lemma HoldingGoesOn(a: Rack, z: Rack, held: seq<nat>)
    requires Worked(a, z) && Holding(a, held)
    ensures Holding(z, held)
  {
  }

  lemma LooseKeepsSound(r: Rack, display: Display, painted: Rack)
    requires Sound(r) && Idle(r) && Worked(OpenDevice(r, display), painted) && Sound(painted)
    ensures Sound(CloseLoose(painted, |r.backends|))
  {
    hide Quiet, Unused;
  }

  lemma LooseKeepsRest(painted: Rack, b: nat, slots: seq<nat>, screens: seq<Screen>, night: Night, held: seq<nat>)
    requires b < |painted.backends|
    ensures var z := CloseLoose(painted, b);
            && (Roster(painted, slots, screens) ==> Roster(z, slots, screens))
            && (Drawing(painted, slots, screens, night) ==> Drawing(z, slots, screens, night))
            && (Holding(painted, held) ==> Holding(z, held))
  {
  }

  lemma StillOpen(r: Rack, display: Display, painted: Rack)
    requires Worked(OpenDevice(r, display), painted)
    ensures OpenPanels(CloseLoose(painted, |r.backends|)) == OpenPanels(r)
  {
    hide Quiet, Unused;
    var z := CloseLoose(painted, |r.backends|);
    assert forall b: nat | b < |r.backends| :: z.backends[b] == r.backends[b];
  }

  lemma PaintedIsThere(r: Rack, display: Display, painted: Rack)
    requires Worked(OpenDevice(r, display), painted)
    ensures |painted.backends| == |r.backends| + 1
    ensures var z := CloseLoose(painted, |r.backends|);
            && z.slots == r.slots && SameMarks(r, z) && z.quiet == painted.quiet && z.exclusive == painted.exclusive
            && (Idle(r) ==> Idle(z))
  {
  }

  lemma SameOpen(a: Rack, z: Rack)
    requires z.backends == a.backends
    ensures OpenPanels(z) == OpenPanels(a)
  {
  }

  // ---------------------------------------------------------------- what may go wrong

  /** All that can go wrong in a run. `Caught`: a stop claimed the slot while its new worker ran
      and the slot had not taken up the new lease. `Astray`: a replacement's thread ran although
      its start raised, so nothing ever will. `Again`: a failed start found its slot claimed. */
  datatype Mishap = Caught(slot: nat) | Astray(slot: nat) | Again(slot: nat)

  /** Every listed slot is claimed and its worker told to leave. */
  ghost predicate Down(r: Rack, slots: seq<nat>) {
    forall b | b in slots :: b in r.slots && r.slots[b].shutDown && r.slots[b].stop
  }

  /** Nobody is in the middle of opening or shutting down anything. */
  predicate Resting(r: Rack) {
    r.inHand == {} && r.adrift.None?
  }

  /** The mishaps so far account for every panel shut down twice and every slip, and for a lease
      that is still astray over a lit panel. */
  ghost predicate Noted(r: Rack, mishaps: seq<Mishap>) {
    && (forall b :: b in r.twice <==> Again(b) in mishaps)
    && (forall b :: b in r.slipped <==> Caught(b) in mishaps)
    && (forall b :: Astray(b) in mishaps <==> b in Flying(r) && b in r.slots && !r.slots[b].shutDown)
  }

  /** The same, while a lease in flight is on its way to its slot. */
  ghost predicate Accounts(r: Rack, mishaps: seq<Mishap>) {
    && (forall b :: b in r.twice <==> Again(b) in mishaps)
    && (forall b :: b in r.slipped <==> Caught(b) in mishaps)
    && (forall b :: Astray(b) !in mishaps)
  }

  lemma DownPasses(a: Rack, b: Rack, slots: seq<nat>, except: set<nat>)
    requires Passed(a, b, except)
    ensures Down(a, slots) ==> Down(b, slots)
  {
  }

  lemma DownGrows(a: Rack, b: Rack, slots: seq<nat>)
    requires Grew(a, b)
    ensures Down(a, slots) ==> Down(b, slots)
  {
  }

  lemma OpeningKeepsDown(r: Rack, display: Display, slots: seq<nat>)
    ensures Down(r, slots) ==> Down(OpenDevice(r, display), slots)
  {
    hide Quiet, Unused;
  }

  lemma DownWithout(r: Rack, slots: seq<nat>, screens: seq<Screen>, b: nat, again: bool)
    requires Roster(r, slots, screens)
    ensures Down(r, slots) ==> Down(LetGo(r, b, again), Removed(slots, b))
  {
    RemovedMembers(slots, b);
  }

  lemma StillNoted(a: Rack, b: Rack, mishaps: seq<Mishap>)
    requires Noted(a, mishaps) && SameMarks(a, b) && a.inFlight.None? && b.inFlight.None?
    ensures Noted(b, mishaps)
  {
  }

  lemma PassedMarks(a: Rack, b: Rack)
    requires Passed(a, b, {})
    ensures a.twice == b.twice && a.inFlight == b.inFlight && (a.inFlight.None? ==> SameMarks(a, b))
  {
  }

  lemma NotedAgain(a: Rack, z: Rack, was: seq<Mishap>, now: seq<Mishap>, b: nat)
    requires Noted(a, was) && a.inFlight.None? && z.inFlight.None? && z.slipped == a.slipped
    requires now == was || now == was + [Again(b)]
    requires z.twice == a.twice + if now == was then {} else {b}
    ensures Noted(z, now)
  {
    assert now != was ==> now[|was|] == Again(b) && forall m :: m in now <==> m in was || m == Again(b);
  }

  /** What one restart may add: a stop that landed in its window, or a raise that left its lease
      astray over a panel nobody has claimed. */
  predicate Spoilt(was: seq<Mishap>, now: seq<Mishap>, b: nat, landed: bool, stopped: bool, ok: bool) {
    now == was || (now == was + [Caught(b)] && landed) || (now == was + [Astray(b)] && !ok && !stopped)
  }

  function Spoils(b: nat, before: bool, after: bool, ok: bool): seq<Mishap> {
    if !before && after then [Caught(b)] else if !after && !ok then [Astray(b)] else []
  }

  predicate AtMostOne(was: seq<Mishap>, now: seq<Mishap>, stopped: bool, ok: bool) {
    now == was
    || (was < now && |now| == |was| + 1 && if stopped then now[|was|].Caught? else now[|was|].Astray? && !ok)
  }

  predicate AgainOnly(was: seq<Mishap>, now: seq<Mishap>) {
    was < now && |now| == |was| + 1 && now[|was|].Again?
  }

  /** A stop that claims the slot in the window came in the window; otherwise none has come. */
  lemma InTheWindow(a: Rack, launched: Rack, running: Rack, b: nat, slots: seq<nat>, before: bool, after: bool)
    requires b in slots && b in launched.slots && b in running.slots && a.slots == launched.slots
    requires (before ==> Down(a, slots)) && (after ==> Down(running, slots)) && (!after ==> Worked(launched, running))
    ensures !launched.slots[b].shutDown && running.slots[b].shutDown ==> !before && after
    ensures !running.slots[b].shutDown ==> !after
  {
  }

  lemma WindowIsNoted(a: Rack, launched: Rack, running: Rack, b: nat, was: seq<Mishap>, ok: bool)
    requires Sound(launched) && Sound(running) && Passed(launched, running, {}) && Resting(launched)
    requires Noted(a, was) && a.inFlight.None? && SameMarks(a, launched) && Flying(launched) == {b}
    requires b in launched.slots && b in running.slots
    ensures running.twice == a.twice
    ensures var now := was + Spoils(b, launched.slots[b].shutDown, running.slots[b].shutDown, ok);
            if ok then Accounts(running, now) else Noted(running, now)
  {
    hide Sound, Passed, Flying, Spoils;
    WindowSlips(launched, running, b);
    PassedMarks(launched, running);
    FlyingStays(launched, running);
    var before, after := launched.slots[b].shutDown, running.slots[b].shutDown;
    SpoilsAre(was, b, before, after, ok);
    NoneFlying(a);
  }

  lemma SpoilsAre(was: seq<Mishap>, b: nat, before: bool, after: bool, ok: bool)
    ensures forall m :: m in was + Spoils(b, before, after, ok) <==>
              m in was || (m == Caught(b) && !before && after) || (m == Astray(b) && !after && !ok)
  {
  }

  lemma NoneFlying(a: Rack)
    requires a.inFlight.None?
    ensures Flying(a) == {}
  {
  }

  lemma WindowSlips(launched: Rack, running: Rack, b: nat)
    requires Sound(launched) && Sound(running) && Passed(launched, running, {}) && Resting(launched)
    requires Flying(launched) == {b} && b in launched.slots && b in running.slots
    ensures running.slipped == launched.slipped
              + if !launched.slots[b].shutDown && running.slots[b].shutDown then {b} else {}
  {
    assert b in Flying(launched);
    assert launched.backends[b].slept == Downs(launched, b) && running.backends[b].slept == Downs(running, b);
    hide Leased, Unreached;
  }

  lemma FlyingStays(a: Rack, b: Rack)
    requires Passed(a, b, {})
    ensures Flying(a) == Flying(b)
  {
  }

  lemma NotedOn(running: Rack, pointed: Rack, settled: Rack, z: Rack, mishaps: seq<Mishap>)
    requires SameMarks(running, pointed) && pointed.inFlight.None? && Passed(pointed, settled, {})
    requires SameMarks(settled, z) && z.inFlight == settled.inFlight
    requires Accounts(running, mishaps)
    ensures Noted(z, mishaps)
  {
    PassedMarks(pointed, settled);
    hide Passed;
  }

  /** This lease is over. */
  ghost predicate Ended(r: Rack, l: nat) {
    l < |r.leases| && !r.leases[l].live
  }

  lemma EndedGrows(a: Rack, z: Rack, l: nat)
    requires Grew(a, z)
    ensures Ended(a, l) ==> Ended(z, l)
  {
  }

  lemma EndedForGood(withdrawn: Rack, leased: Rack, z: Rack, b: nat, l: nat)
    requires l < |withdrawn.leases| && !withdrawn.leases[l].live && leased == NewLease(withdrawn, b)
    requires Passed(leased, z, {})
    ensures Ended(z, l)
  {
  }

  lemma NothingNoted(r: Rack)
    requires r == EMPTY
    ensures Noted(r, [])
  {
  }

  /** One mishap so far at most, and after one without a stop the run is about to end. */
  predicate AtRisk(mishaps: seq<Mishap>, stopped: bool, ok: bool) {
    mishaps == [] || (|mishaps| == 1 && if stopped then !mishaps[0].Astray? else mishaps[0].Astray? && !ok)
  }

  lemma DownIs(r: Rack, slots: seq<nat>)
    requires Down(r, slots)
    ensures forall b | b in slots :: b in r.slots && r.slots[b].shutDown
  {
  }

  lemma StartedHasOne(r: Rack, w: nat, b: nat, l: nat)
    requires b in r.slots && DrawsOn(r, w, b, l)
    ensures r.slots[b].worker.Some?
  {
  }

  // ---------------------------------------------------------------- the end of a run

  lemma RestsOn(a: Rack, b: Rack)
    requires Passed(a, b, {})
    ensures (Idle(a) ==> Idle(b)) && (Resting(a) ==> Resting(b))
  {
  }

  lemma LateSlipped(r: Rack)
    requires Sound(r)
    ensures r.late <= r.slipped
  {
  }

  /** Whatever the workers still do. */
  function ActAll(r: Rack, moves: seq<Move>): Rack
    decreases |moves|
  {
    if moves == [] then r else ActAll(Act(r, moves[0]), moves[1..])
  }

  /** No worker ever reaches a sleeping panel that is not among the slips. */
  lemma {:induction false} NeverLater(r: Rack, moves: seq<Move>)
    requires Sound(r)
    ensures ActAll(r, moves).late <= r.slipped
    decreases |moves|
  {
    hide Sound, Act;
    if moves == [] {
      LateSlipped(r);
    } else {
      ActKeepsSound(r, moves[0]);
      NeverLater(Act(r, moves[0]), moves[1..]);
    }
  }

  /** The last stop finds whatever lease is astray and puts its panel to sleep under it. */
  lemma LastSlips(a: Rack, z: Rack, slots: seq<nat>, screens: seq<Screen>, mishaps: seq<Mishap>)
    requires Sound(a) && Sound(z) && Roster(a, slots, screens) && Resting(a) && Passed(a, z, {}) && Down(z, slots)
    requires Noted(a, mishaps)
    ensures forall b :: b in z.twice <==> Again(b) in mishaps
    ensures forall b :: b in z.slipped <==> Caught(b) in mishaps || Astray(b) in mishaps
  {
    forall b | b in Flying(a) ensures b in Slips(a, z) <==> b in a.slots && !a.slots[b].shutDown {
      LastSlip(a, z, slots, screens, b);
    }
    PassedMarks(a, z);
    assert z.slipped == a.slipped + Slips(a, z);
    hide Sound, Roster, Passed, Down;
  }

  lemma LastSlip(a: Rack, z: Rack, slots: seq<nat>, screens: seq<Screen>, b: nat)
    requires Sound(a) && Sound(z) && Roster(a, slots, screens) && Resting(a) && Passed(a, z, {}) && Down(z, slots)
    requires b in Flying(a)
    ensures b in Slips(a, z) <==> b in a.slots && !a.slots[b].shutDown
  {
    assert b in a.slots && b in z.slots && z.slots[b].shutDown;
    assert a.backends[b].slept == Downs(a, b) && z.backends[b].slept == Downs(z, b);
    hide Leased, Unreached;
  }

  /** When every listed slot is claimed and nobody is mid-way through anything, every panel that
      was ever opened is asleep and closed, each exactly once but for those shut down twice. */
  lemma AllDown(r: Rack, slots: seq<nat>, screens: seq<Screen>)
    requires Sound(r) && Roster(r, slots, screens) && Resting(r)
    requires forall b | b in slots :: b in r.slots && r.slots[b].shutDown
    ensures forall b | 0 <= b < |r.backends| ::
              r.backends[b].slept == r.backends[b].closed == 1 + if b in r.twice then 1 else 0
    ensures OpenPanels(r) == {}
  {
    forall b | 0 <= b < |r.backends|
      ensures r.backends[b].slept == r.backends[b].closed == 1 + if b in r.twice then 1 else 0
    {
      assert b in r.slots ==> r.slots[b].shutDown;
    }
  }

  /** Putting a panel to sleep leaves exactly one way to reach it: a worker in the middle of a
      tick that draws through the lease in flight. */
  lemma OnlyTheLeaseInFlightReaches(r: Rack, b: nat, w: nat)
    requires Sound(r) && b in r.inHand && r.slots[b].shutDown && !r.leases[r.slots[b].lease].live && b !in r.late
    requires w < |r.workers| && r.workers[w].slot == b
    ensures b in Act(Sleep(r, b), Command(w)).late
            <==> r.workers[w].ticking && Live(r, w) && r.inFlight == Some(r.workers[w].lease)
  {
  }

  // ---------------------------------------------------------------- what the code does not promise

  /** One panel, opened, drawing, and then wedged: the watchdog has revoked its lease, taken a new
      one out and started a second worker on it, which is in its first tick. */
  function Restarting(display: Display, key: Key): Rack {
    var up := SetWorker(Launch(Record(OpenDevice(EMPTY, display), 0, 0), 0, 0, key, false), 0, 0);
    Act(Launch(NewLease(Revoke(up, 0), 0), 0, 1, key, true), Begin(1))
  }

  /** `stop`, run to its end from there. */
  function Stopped(r: Rack): Rack
    requires 0 in r.slots && |r.backends| > 0 && r.slots[0].lease < |r.leases|
  {
    var told := SetStop(r, 0).(storeClosed := true);
    LetGo(Close(Sleep(Revoke(Claim(told, 0), told.slots[0].lease), 0), 0), 0, false)
  }

  /** A signal between the start of the replacement and the slot taking up its lease shuts the
      panel down under a worker nobody revoked, and that worker's next command reaches it. */
  lemma ASlipReachesAClosedPanel(display: Display, key: Key)
    ensures var r := Restarting(display, key);
            && 0 in r.slots && |r.backends| == 1 && r.slots[0].lease < |r.leases|
            && Stopped(r).backends[0].closed == 1 && Stopped(r).late == {}
            && Act(Stopped(r), Command(1)).late == {0}
  {
    RestartingIs(display, key);
    hide Restarting;
  }

  lemma RestartingIs(display: Display, key: Key)
    ensures var r := Restarting(display, key);
            && r.backends == [Backend(display, 0, 0)] && r.leases == [Lease(0, false), Lease(0, true)]
            && |r.workers| == 2 && r.workers[1] == Worker(0, 1, key, true, false)
            && 0 in r.slots && r.slots[0].lease == 0 && r.inFlight == Some(1) && r.late == {}
  {
    hide Quiet, Unused;
    var bare := OpenDevice(EMPTY, display);
    assert bare.backends == [Backend(display, 0, 0)];
    var recorded := Record(bare, 0, 0);
    assert recorded.leases == [Lease(0, true)];
    var up := SetWorker(Launch(recorded, 0, 0, key, false), 0, 0);
    assert up.workers == [Worker(0, 0, key, false, false)];
    var leased := NewLease(Revoke(up, 0), 0);
    assert leased.leases == [Lease(0, false), Lease(0, true)];
    var launched := Launch(leased, 0, 1, key, true);
    assert launched.workers == up.workers + [Worker(0, 1, key, false, false)];
    assert Act(launched, Begin(1)).workers[1] == Worker(0, 1, key, true, false);
  }

  /** A start that fails after a stop has already shut its panel down shuts it down again. */
  lemma AFailedStartAfterAStopShutsTwice(display: Display)
    ensures var r := Record(OpenDevice(EMPTY, display), 0, 0);
            && 0 in r.slots && |r.backends| == 1 && r.slots[0].lease < |r.leases|
            && var z := Claim(Stopped(r), 0);
               && |z.backends| == 1 && Close(Sleep(z, 0), 0).backends[0].closed == 2
  {
    hide Quiet, Unused;
    assert OpenDevice(EMPTY, display).backends == [Backend(display, 0, 0)];
  }

  lemma BreathKeepsRoster(r: Rack, m: Move, slots: seq<nat>, screens: seq<Screen>)
    requires Sound(r) && Roster(r, slots, screens)
    ensures Sound(Act(r, m)) && Worked(r, Act(r, m)) && Roster(Act(r, m), slots, screens)
    ensures Act(r, m).quiet == r.quiet && Act(r, m).exclusive == r.exclusive
  {
    ActKeepsSound(r, m);
    hide Sound, Act;
  }

  lemma CloseSteps(r: Rack, slots: seq<nat>, screens: seq<Screen>)
    requires Sound(r) && Roster(r, slots, screens)
    ensures var closed := r.(storeClosed := true);
            Sound(closed) && Roster(closed, slots, screens) && Passed(r, closed, {})
  {
    StoreKeepsSound(r);
    StorePasses(r);
    hide Sound, Passed;
  }

  lemma StorePasses(r: Rack)
    ensures Passed(r, r.(storeClosed := true), {})
  {
  }

  lemma StoreStaysClosed(a: Rack, b: Rack)
    requires a.storeClosed && Passed(a, b, {})
    ensures b.storeClosed
  {
  }

  lemma StopsStay(a: Rack, b: Rack)
    requires Passed(a, b, {})
    ensures a.slots.Keys == b.slots.Keys
    ensures forall s | s in a.slots :: s in b.slots
              && (a.slots[s].stop ==> b.slots[s].stop) && (a.slots[s].shutDown ==> b.slots[s].shutDown)
  {
  }

  lemma SetStopSteps(r: Rack, b: nat, slots: seq<nat>, screens: seq<Screen>)
    requires Sound(r) && Roster(r, slots, screens) && b in slots
    ensures b in r.slots
    ensures Sound(SetStop(r, b)) && Roster(SetStop(r, b), slots, screens) && Passed(r, SetStop(r, b), {})
  {
    SetStopKeepsSound(r, b);
    SetStopPasses(r, b);
    hide Sound, Passed;
  }

  lemma SetStopPasses(r: Rack, b: nat)
    requires b in r.slots
    ensures Passed(r, SetStop(r, b), {})
  {
  }

  lemma ClaimSteps(r: Rack, b: nat, slots: seq<nat>, screens: seq<Screen>)
    requires Sound(r) && Roster(r, slots, screens) && b in r.slots && Released(r, b)
    ensures Sound(Claim(r, b)) && Roster(Claim(r, b), slots, screens)
    ensures b < |r.backends| && r.slots[b].lease < |r.leases|
  {
    ClaimKeepsSound(r, b);
    assert b < |r.backends| && r.slots[b].lease < |r.leases|;
    hide Sound;
  }

  lemma RevokeSteps(r: Rack, l: nat, slots: seq<nat>, screens: seq<Screen>)
    requires Sound(r) && Roster(r, slots, screens) && l < |r.leases|
    ensures Sound(Revoke(r, l)) && Roster(Revoke(r, l), slots, screens) && Passed(r, Revoke(r, l), {})
  {
    RevokeKeepsSound(r, l);
    RevokePasses(r, l);
    hide Sound, Passed;
  }

  lemma RevokePasses(r: Rack, l: nat)
    requires l < |r.leases|
    ensures Passed(r, Revoke(r, l), {})
  {
  }

  lemma SleepSteps(r: Rack, b: nat, slots: seq<nat>, screens: seq<Screen>)
    requires Sound(r) && Roster(r, slots, screens) && b in r.slots && b in r.inHand && r.slots[b].shutDown
    requires r.slots[b].lease < |r.leases| && !r.leases[r.slots[b].lease].live && b < |r.backends|
    ensures Sound(Sleep(r, b)) && Roster(Sleep(r, b), slots, screens) && Passed(r, Sleep(r, b), {b})
  {
    SleepKeepsSound(r, b);
    SleepPasses(r, b);
    hide Sound, Passed;
  }

  lemma SleepPasses(r: Rack, b: nat)
    requires b < |r.backends|
    ensures Passed(r, Sleep(r, b), {b})
  {
  }

  lemma CloseDeviceSteps(r: Rack, b: nat, slots: seq<nat>, screens: seq<Screen>)
    requires Sound(r) && Roster(r, slots, screens) && b in r.slots && b in r.inHand && b < |r.backends|
    ensures Sound(Close(r, b)) && Roster(Close(r, b), slots, screens) && Passed(r, Close(r, b), {b})
  {
    CloseKeepsSound(r, b);
    ClosePasses(r, b);
    hide Sound, Passed;
  }

  lemma ClosePasses(r: Rack, b: nat)
    requires b < |r.backends|
    ensures Passed(r, Close(r, b), {b})
  {
  }

  /** A slot in hand stays in hand, its backend untouched, across a gap. */
  lemma HandIsKept(a: Rack, b: Rack, s: nat)
    requires Passed(a, b, {}) && s in a.slots && s in a.inHand && s < |a.backends| && a.slots[s].lease < |a.leases|
    ensures s in b.slots && s in b.inHand && s < |b.backends| && b.backends[s] == a.backends[s]
    ensures b.slots[s] == a.slots[s].(stop := b.slots[s].stop, shutDown := b.slots[s].shutDown)
    ensures (a.slots[s].shutDown ==> b.slots[s].shutDown) && (a.slots[s].stop ==> b.slots[s].stop)
    ensures b.slots[s].lease < |b.leases| && (b.leases[b.slots[s].lease].live ==> a.leases[a.slots[s].lease].live)
  {
  }

  lemma ChainPassed(a: Rack, asleep: Rack, waited: Rack, closed: Rack, z: Rack, b: nat)
    requires Passed(a, asleep, {b}) && Passed(asleep, waited, {}) && Passed(waited, closed, {b})
             && Passed(closed, z, {})
    ensures Passed(a, z, {b})
  {
    PassedWeaker(asleep, waited, b);
    PassedWeaker(closed, z, b);
    hide Passed;
    PassedOn(a, asleep, waited, {b});
    PassedOn(a, waited, closed, {b});
    PassedOn(a, closed, z, {b});
  }

  lemma ChainBeside(a: Rack, asleep: Rack, waited: Rack, closed: Rack, z: Rack, b: nat)
    requires b in a.slots && b < |a.backends| && asleep == Sleep(a, b) && Worked(asleep, waited)
    requires b < |waited.backends| && closed == Close(waited, b) && Worked(closed, z)
    ensures Beside(a, z, b)
  {
    assert b in waited.slots;
    PanelStepsAreBeside(a, b);
    PanelStepsAreBeside(waited, b);
    WorkedBeside(asleep, waited, b);
    WorkedBeside(closed, z, b);
    hide Beside, Worked;
    BesideOn(a, asleep, waited, b);
    BesideOn(a, waited, closed, b);
    BesideOn(a, closed, z, b);
  }

  lemma PassedWeaker(a: Rack, b: Rack, s: nat)
    requires Passed(a, b, {})
    ensures Passed(a, b, {s})
  {
  }

  /** A panel claimed, revoked, slept and closed is out of hand again, down exactly once. */
  lemma LetGoSteps(a: Rack, ready: Rack, r: Rack, b: nat, slots: seq<nat>, screens: seq<Screen>)
    requires Sound(a) && Sound(r) && Roster(a, slots, screens) && Roster(r, slots, screens)
    requires b in slots && b in a.slots && !a.slots[b].shutDown && a.slots[b].stop
    requires Passed(Claim(a, b), ready, {}) && Passed(ready, r, {b})
    requires b < |ready.backends| && b < |r.backends|
    requires r.backends[b].slept == ready.backends[b].slept + 1 && r.backends[b].closed == ready.backends[b].closed + 1
    ensures b in r.slots && r.slots[b].shutDown
    ensures var gone := LetGo(r, b, false); Sound(gone) && Roster(gone, slots, screens) && Passed(a, gone, {})
  {
    assert a.adrift != Some(b) && b !in a.inHand;
    Lost(a, ready, r, b);
    LetGoKeepsSound(r, b, false);
    LetGoPasses(a, ready, r, b);
    LetGoKeepsRoster(r, b, slots, screens);
    hide Sound, Passed, Roster;
  }

  lemma LetGoKeepsRoster(r: Rack, b: nat, slots: seq<nat>, screens: seq<Screen>)
    requires Roster(r, slots, screens) && b in slots && r.slots[b].shutDown && r.slots[b].stop && b !in r.twice
    ensures Roster(LetGo(r, b, false), slots, screens)
  {
  }

  lemma LetGoPasses(a: Rack, ready: Rack, r: Rack, b: nat)
    requires b in a.slots && b !in a.inHand && a.adrift != Some(b)
    requires Passed(Claim(a, b), ready, {}) && Passed(ready, r, {b})
    ensures Passed(a, LetGo(r, b, false), {})
  {
    PassedWeaker(Claim(a, b), ready, b);
    PassedOn(Claim(a, b), ready, r, {b});
    ClaimPasses(a, b, r);
  }

  lemma ClaimPasses(a: Rack, b: nat, r: Rack)
    requires b in a.slots && b !in a.inHand && a.adrift != Some(b)
    requires Passed(Claim(a, b), r, {b})
    ensures Passed(a, LetGo(r, b, false), {})
  {
  }

  lemma Lost(a: Rack, ready: Rack, r: Rack, b: nat)
    requires Sound(a) && b in a.slots && b !in a.inHand && !a.slots[b].shutDown && a.slots[b].stop && b !in a.twice
    requires Passed(Claim(a, b), ready, {}) && Passed(ready, r, {b})
    requires b < |ready.backends| && b < |r.backends|
    requires r.backends[b].slept == ready.backends[b].slept + 1 && r.backends[b].closed == ready.backends[b].closed + 1
    ensures b in r.slots && r.slots[b].shutDown && r.slots[b].stop && b !in r.twice
    ensures r.backends[b].slept == r.backends[b].closed == 1
  {
  }
}
