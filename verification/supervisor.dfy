/** The supervisor: starts panels and workers, restarts the wedged ones, and shuts the rack down,
    with a SIGTERM landing on its own thread between any two of its steps. */
module Supervision {
  import opened Wrappers
  import opened Racks
  import opened Steps
  import opened Diffing

  /** What an apply came to: turned away by a stop, nothing a worker reads had changed, or some
      panels were retired, opened or both. */
  datatype Result = Refused | Unchanged | Moved

  /** What a probe came to. */
  datatype Probed = Stopping | Claimed | Unguarded | Failed | Dark | Lit

  /** What one lap of a run does, and how the world meets it: a pass of the watchdog, a push, a
      probe, or only time. */
  datatype Doing =
    | Watch(overdue: nat -> bool, makes: nat -> bool, raises: nat -> bool)
    | Push(pushed: seq<Screen>, night: Night, wedged: nat -> bool, opening: nat -> bool, starting: nat -> bool)
    | TryPanel(device: Device, wedged: nat -> bool, fits: bool, paints: bool)
    | Pass

  /** The screens the last push of a plan asked for. */
  function Configured(plan: seq<Doing>, screens: seq<Screen>): seq<Screen> {
    if plan == [] then screens
    else if plan[|plan| - 1].Push? then plan[|plan| - 1].pushed
    else Configured(plan[..|plan| - 1], screens)
  }

  lemma ConfiguredOnce(plan: seq<Doing>, i: nat, screens: seq<Screen>)
    requires i < |plan|
    ensures Configured(plan[..i + 1], screens) ==
            if plan[i].Push? then plan[i].pushed else Configured(plan[..i], screens)
  {
    assert plan[..i + 1][..i] == plan[..i];
  }

  /** A restart that is due cannot be made in this lap. */
  ghost predicate Fails(doing: Doing) {
    doing.Watch? && exists b: nat :: !doing.makes(b) || doing.raises(b)
  }

  predicate Claims(screen: Screen, device: Device) {
    screen.config.display.kind.Gc9a01? && DeviceOf(screen.config.display) == device
  }

  lemma NobodyClaims(screens: seq<Screen>, device: Device)
    requires forall i | 0 <= i < |screens| :: !Claims(screens[i], device)
    ensures forall i | 0 <= i < |screens| ::
              !SameDevice(screens[i].config.display, Display(Gc9a01, device.bus, device.cs))
  {
  }

  class Supervisor {
    var rack: Rack
    var slots: seq<nat>
    var unavailable: seq<nat>
    var screens: seq<Screen>
    var night: Night
    var stopped: bool
    /** How many more SIGTERMs will come, and whether this thread is the one they land on. */
    var signals: nat
    var interruptible: bool
    /** What was opened, started, held off and given back, in order. */
    ghost var trace: seq<Event>
    /** Every configuration so far named each SPI device at most once. */
    ghost var distinct: bool
    /** What has gone wrong, in order. */
    ghost var mishaps: seq<Mishap>

    ghost predicate Valid()
      reads this
    {
      && Sound(rack) && Roster(rack, slots, screens) && rack.quiet
      && (distinct ==> rack.exclusive && DistinctDevices(screens))
    }

    /** A stop that has come and gone left every listed slot claimed. */
    ghost predicate Settled()
      reads this
    {
      stopped ==> Down(rack, slots)
    }

    /** What holds whenever control comes back: a stop is for good, a signal brought it, and it
        settled the list. */
    twostate predicate Returned()
      reads this
    {
      && signals <= old(signals) && (old(stopped) ==> stopped)
      && (stopped && !old(stopped) ==> interruptible && signals < old(signals))
      && (old(Settled()) ==> Settled())
    }

    /** Workers draw; nobody else runs. */
    method Breathe()
      requires Valid()
      modifies `rack
      ensures Valid() && Worked(old(rack), rack) && Passed(old(rack), rack, {})
    {
      hide Sound, Roster, DistinctDevices;
      var moves: nat := *;
      SameWorks(rack, End(0));
      while moves > 0
        invariant Valid() && Worked(old(rack), rack)
        decreases moves
      {
        var move: Move := *;
        BreathKeepsRoster(rack, move, slots, screens);
        WorkedOn(old(rack), rack, Act(rack, move));
        rack, moves := Act(rack, move), moves - 1;
      }
      WorkedPasses(old(rack), rack);
    }

    /** The moment between two steps: workers run, and a signal may run `stop` on this thread. */
    method Gap()
      requires Valid()
      modifies `rack, `stopped, `signals
      ensures Valid() && Passed(old(rack), rack, {}) && Returned()
      ensures !stopped || !interruptible ==> stopped == old(stopped) && Worked(old(rack), rack)
      decreases signals, 0
    {
      hide Sound, Roster, DistinctDevices, Passed, Worked, Down;
      Breathe();
      DownPasses(old(rack), rack, slots, {});
      if interruptible && signals > 0 {
        var lands: bool := *;
        if lands {
          ghost var before := rack;
          signals := signals - 1;
          Stop();
          PassedOn(old(rack), before, rack, {});
        }
      }
    }

    /** Every thread told to leave, then every panel put to sleep and closed, each by whichever
        call claims it first. */
    method Stop()
      requires Valid()
      modifies `rack, `stopped, `signals
      ensures Valid() && Passed(old(rack), rack, {}) && stopped && rack.storeClosed && signals <= old(signals)
      ensures Down(rack, slots)
      decreases signals, 4
    {
      hide Sound, DistinctDevices, Worked, Passed, Roster;
      stopped := true;
      TellAll();
      CloseSteps(rack, slots, screens);
      ghost var told, closed := rack, rack.(storeClosed := true);
      rack := rack.(storeClosed := true);
      ShutAll();
      PassedOn(old(rack), told, closed, {});
      PassedOn(old(rack), closed, rack, {});
      StoreStaysClosed(closed, rack);
    }

    /** Set every slot's stop event. */
    method TellAll()
      requires Valid() && stopped
      modifies `rack, `stopped, `signals
      ensures Valid() && Passed(old(rack), rack, {}) && stopped && signals <= old(signals)
      ensures forall b | b in slots :: b in rack.slots && rack.slots[b].stop
      decreases signals, 3
    {
      hide Sound, DistinctDevices, Worked, Passed, Roster;
      Gap();
      for i := 0 to |slots|
        invariant Valid() && Passed(old(rack), rack, {}) && stopped && signals <= old(signals)
        invariant forall k | 0 <= k < i :: slots[k] in rack.slots && rack.slots[slots[k]].stop
      {
        SetStopSteps(rack, slots[i], slots, screens);
        ghost var before, told := rack, SetStop(rack, slots[i]);
        rack := SetStop(rack, slots[i]);
        Gap();
        PassedOn(old(rack), before, told, {});
        PassedOn(old(rack), told, rack, {});
        StopsStay(told, rack);
      }
    }

    /** Join every worker, then shut down every panel nobody has claimed. */
    method ShutAll()
      requires Valid() && stopped && forall b | b in slots :: b in rack.slots && rack.slots[b].stop
      modifies `rack, `stopped, `signals
      ensures Valid() && Passed(old(rack), rack, {}) && stopped && signals <= old(signals)
      ensures forall b | b in slots :: b in rack.slots && rack.slots[b].shutDown && rack.slots[b].stop
      decreases signals, 3
    {
      hide Sound, DistinctDevices, Worked, Passed, Roster;
      JoinAll();
      StopsStay(old(rack), rack);
      for i := 0 to |slots|
        invariant Valid() && Passed(old(rack), rack, {}) && stopped && signals <= old(signals)
        invariant forall b | b in slots :: b in rack.slots && rack.slots[b].stop
        invariant forall k | 0 <= k < i :: rack.slots[slots[k]].shutDown
      {
        ghost var before := rack;
        if !rack.slots[slots[i]].shutDown {
          TakeDown(slots[i]);
          PassedOn(old(rack), before, rack, {});
          StopsStay(before, rack);
        }
      }
    }

    method JoinAll()
      requires Valid() && forall b | b in slots :: b in rack.slots
      modifies `rack, `stopped, `signals
      ensures Valid() && Passed(old(rack), rack, {}) && (old(stopped) ==> stopped) && signals <= old(signals)
      decreases signals, 2
    {
      hide Sound, DistinctDevices, Worked, Passed, Roster;
      Gap();
      for i := 0 to |slots|
        invariant Valid() && Passed(old(rack), rack, {}) && (old(stopped) ==> stopped) && signals <= old(signals)
      {
        StopsStay(old(rack), rack);
        ghost var before := rack;
        if !rack.slots[slots[i]].shutDown && rack.slots[slots[i]].worker.Some? {
          Gap();
          PassedOn(old(rack), before, rack, {});
        }
      }
    }

    /** Claim, revoke, sleep and close one panel. The claim comes with the check, so a signal
        between any two of these steps finds the panel already in hand. */
    method TakeDown(b: nat)
      requires Valid() && b in slots && b in rack.slots && !rack.slots[b].shutDown && rack.slots[b].stop
      modifies `rack, `stopped, `signals
      ensures Valid() && Passed(old(rack), rack, {}) && (old(stopped) ==> stopped) && signals <= old(signals)
      ensures b in rack.slots && rack.slots[b].shutDown
      decreases signals, 2
    {
      hide Sound, DistinctDevices, Worked, Passed, Roster;
      ClaimSteps(rack, b, slots, screens);
      ghost var claimed := Claim(rack, b);
      rack := Claim(rack, b);
      Gap();
      HandIsKept(claimed, rack, b);
      ghost var waited := rack;
      RevokeSteps(rack, rack.slots[b].lease, slots, screens);
      ghost var revoked := Revoke(rack, rack.slots[b].lease);
      rack := Revoke(rack, rack.slots[b].lease);
      PassedOn(claimed, waited, revoked, {});
      Gap();
      HandIsKept(revoked, rack, b);
      PassedOn(claimed, revoked, rack, {});
      ghost var ready := rack;
      ShutDownPanel(b);
      LetGoSteps(old(rack), ready, rack, b, slots, screens);
      rack := LetGo(rack, b, false);
    }

    /** `_shut_down_panel`: sleep, then close, each whatever the other did. */
    method ShutDownPanel(b: nat)
      requires Valid() && b in rack.slots && b in rack.inHand && rack.slots[b].shutDown
      requires rack.slots[b].lease < |rack.leases| && !rack.leases[rack.slots[b].lease].live && b < |rack.backends|
      modifies `rack, `stopped, `signals
      ensures Valid() && Passed(old(rack), rack, {b}) && Returned()
      ensures b < |rack.backends| && rack.backends[b].slept == old(rack).backends[b].slept + 1
      ensures rack.backends[b].closed == old(rack).backends[b].closed + 1
      ensures !stopped || !interruptible ==> stopped == old(stopped) && Beside(old(rack), rack, b)
      decreases signals, 1
    {
      hide Sound, DistinctDevices, Worked, Passed, Roster, Beside, Down;
      SleepSteps(rack, b, slots, screens);
      ghost var asleep := Sleep(rack, b);
      DownPasses(rack, asleep, slots, {b});
      rack := Sleep(rack, b);
      Gap();
      HandIsKept(asleep, rack, b);
      ghost var waited := rack;
      CloseDeviceSteps(rack, b, slots, screens);
      ghost var closed := Close(rack, b);
      DownPasses(rack, closed, slots, {b});
      rack := Close(rack, b);
      Gap();
      HandIsKept(closed, rack, b);
      ChainPassed(old(rack), asleep, waited, closed, rack, b);
      if !stopped || !interruptible {
        ChainBeside(old(rack), asleep, waited, closed, rack, b);
      }
    }

    /** `_open_panel`: a panel that opens is in the list before the stop flag is read, so no
        instant leaves one open and out of a shutdown's reach. */
    method OpenPanel(at: nat, opens: bool)
      requires Valid() && Idle(rack) && at < |screens| && (forall b | b in slots :: rack.slots[b].at != at)
      requires Quiet(rack, BusOf(screens[at].config.display))
      modifies `rack, `stopped, `signals, `slots, `unavailable, `trace
      ensures Valid() && Idle(rack) && Returned() && SameMarks(old(rack), rack)
      ensures stopped && slots != old(slots) ==> Down(rack, slots)
      ensures (slots != old(slots) <==> opens) && trace == old(trace) + [if opens then Opened(at) else NoPanel(at)]
      ensures Grew(old(rack), rack) && |rack.workers| == |old(rack).workers|
      ensures if slots == old(slots) then unavailable == old(unavailable) + [at]
              else
                var b := |old(rack).backends|;
                && slots == old(slots) + [b] && unavailable == old(unavailable)
                && b in rack.slots && b !in old(rack).slots && rack.slots[b].at == at && rack.slots[b].worker.None?
      ensures !stopped ==> Unmoved(old(rack), rack)
      ensures !stopped && Drawing(old(rack), old(slots), screens, night) ==> Drawing(rack, slots, screens, night)
    {
      hide Sound, DistinctDevices, Worked, Passed, Roster, Drawing, Grew, Quiet, Unmoved, Down;
      if !opens {
        trace := trace + [NoPanel(at)];
        unavailable := unavailable + [at];
        NothingMoved(rack);
        return;
      }
      var b := |rack.backends|;
      var display := screens[at].config.display;
      if distinct {
        FreshDeviceIsUnused(rack, slots, screens, at);
      }
      OpenSteps(rack, display, slots, screens);
      OpeningKeepsDown(rack, display, slots);
      rack := OpenDevice(rack, display);
      trace := trace + [Opened(at)];
      ghost var waited := Enlist(b, at);
      assert slots != old(slots);
      GrewOpen(old(rack), display, waited, at, rack);
      if !stopped {
        CalmOpen(old(rack), display, waited, at, rack, old(slots), screens, night);
      } else {
        ghost var before := rack;
        Stop();
        PassedGrows(before, rack, {});
        GrewOn(old(rack), before, rack);
        RecordStays(before, rack, b);
      }
    }

    /** A panel that has just opened goes into the list. */
    method Enlist(b: nat, at: nat) returns (ghost waited: Rack)
      requires Valid() && rack.adrift == Some(b) && at < |screens| && b < |rack.backends|
      requires rack.backends[b].display == screens[at].config.display
      requires forall s | s in slots :: s in rack.slots && rack.slots[s].at != at
      modifies `rack, `stopped, `signals, `slots
      ensures Valid() && slots == old(slots) + [b] && signals <= old(signals) && (old(stopped) ==> stopped)
      ensures stopped && !old(stopped) ==> interruptible && signals < old(signals)
      ensures Passed(old(rack), waited, {}) && Passed(Record(waited, b, at), rack, {})
      ensures !stopped ==> Worked(old(rack), waited) && Worked(Record(waited, b, at), rack)
    {
      hide Sound, DistinctDevices, Worked, Passed, Roster, Down;
      Gap();
      waited := rack;
      RecordSteps(old(rack), waited, b, at, slots, screens);
      rack := Record(rack, b, at);
      slots := slots + [b];
      Gap();
    }

    /** `Gap`, for a caller in the middle of one slot's affairs. */
    method Wait(ghost b: nat)
      requires Valid()
      modifies `rack, `stopped, `signals
      ensures Valid() && Passed(old(rack), rack, {}) && Grew(old(rack), rack) && Returned()
      ensures !stopped ==> Worked(old(rack), rack) && Beside(old(rack), rack, b)
      ensures SameAccount(old(rack), rack)
    {
      hide Sound, DistinctDevices, Worked, Passed, Roster, Grew, Beside, Down;
      Gap();
      PassedGrows(old(rack), rack, {});
      PassedKeepsAccount(old(rack), rack);
      if !stopped {
        WorkedBeside(old(rack), rack, b);
      }
    }

    /** The start that failed: the thread may or may not have got as far as running, so the lease
        goes first; then the panel is claimed, whoever claimed it before, and shut down. */
    method FailStart(b: nat)
      requires Valid() && Idle(rack) && b in slots && b in rack.slots && rack.slots[b].worker.None?
      modifies `rack, `stopped, `signals, `slots, `unavailable, `mishaps
      ensures Valid() && Idle(rack) && Returned() && rack.slipped == old(rack).slipped
      ensures mishaps == old(mishaps) || mishaps == old(mishaps) + [Again(b)]
      ensures rack.twice == old(rack).twice + if mishaps == old(mishaps) then {} else {b}
      ensures Grew(old(rack), rack) && |rack.backends| == |old(rack).backends|
      ensures b in rack.slots && rack.slots[b].shutDown
      ensures slots == Removed(old(slots), b) && unavailable == old(unavailable) + [old(rack).slots[b].at]
      ensures !stopped ==> Beside(old(rack), rack, b)
      ensures !stopped && Drawing(old(rack), old(slots), screens, night) ==>
                Drawing(rack, slots, screens, night) && mishaps == old(mishaps)
    {
      hide Sound, DistinctDevices, Worked, Passed, Roster, Drawing, Grew, Beside, Drawn, Down;
      RosterBounds(rack, b, slots, screens);
      GrownSlot(old(rack), b);
      RunAway(b);
      ghost var ran := rack;
      Withdraw(b);
      ghost var released := rack;
      Abandon(b);
      GrownSlotOn(old(rack), ran, released, b);
      Onward(old(rack), ran, released, rack, b, !stopped);
      if !stopped && Drawing(old(rack), old(slots), screens, night) {
        DrawingIsUp(old(rack), b, old(slots), screens, night);
        OutOfHand(old(rack), old(slots), screens, b);
        RemovedMembers(old(slots), b);
        FailedDraws(old(rack), rack, b, old(slots), screens, night);
      }
    }

    /** Revoke the slot's lease: from here on nobody can draw on its panel. */
    method Withdraw(b: nat)
      requires Valid() && Idle(rack) && b in slots && b in rack.slots
      modifies `rack, `stopped, `signals
      ensures Valid() && Idle(rack) && Returned()
      ensures Grew(old(rack), rack) && SameAccount(old(rack), rack)
      ensures b in rack.slots && b < |rack.backends| && rack.slots[b].lease == old(rack).slots[b].lease < |rack.leases|
      ensures !rack.leases[rack.slots[b].lease].live && Released(rack, b)
      ensures !stopped ==> Beside(old(rack), rack, b) && rack.slots[b] == old(rack).slots[b]
    {
      hide Sound, DistinctDevices, Worked, Passed, Roster, Grew, Beside, Released, Down;
      RosterBounds(rack, b, slots, screens);
      var l := rack.slots[b].lease;
      RevokeSteps(rack, l, slots, screens);
      RevokeIsBeside(rack, l, b);
      PassedGrows(rack, Revoke(rack, l), {});
      PassedKeepsAccount(rack, Revoke(rack, l));
      ghost var revoked := Revoke(rack, l);
      DownGrows(rack, revoked, slots);
      rack := Revoke(rack, l);
      Wait(b);
      NobodyDraws(revoked, rack, b);
      LeaseStays(revoked, rack, b);
      GrewOn(old(rack), revoked, rack);
      if !stopped {
        WorkedKeepsSlots(revoked, rack);
        BesideOn(old(rack), revoked, rack, b);
      }
    }

    /** Claim a panel nobody can draw on, shut it down, and take its slot out of the list. */
    method Abandon(b: nat)
      requires Valid() && Idle(rack) && b in slots && b in rack.slots && b < |rack.backends|
      requires rack.slots[b].lease < |rack.leases| && !rack.leases[rack.slots[b].lease].live && Released(rack, b)
      modifies `rack, `stopped, `signals, `slots, `unavailable, `mishaps
      ensures Valid() && Idle(rack) && Returned() && rack.slipped == old(rack).slipped
      ensures Grew(old(rack), rack) && |rack.backends| == |old(rack).backends|
      ensures slots == Removed(old(slots), b) && unavailable == old(unavailable) + [old(rack).slots[b].at]
      ensures b in rack.slots && rack.slots[b].shutDown && rack.slots[b].lease < |rack.leases|
              && !rack.leases[rack.slots[b].lease].live
      ensures mishaps == old(mishaps) + if old(rack).slots[b].shutDown then [Again(b)] else []
      ensures rack.twice == old(rack).twice + if old(rack).slots[b].shutDown then {b} else {}
      ensures !stopped ==> Beside(old(rack), rack, b)
    {
      hide Sound, DistinctDevices, Worked, Passed, Roster, Grew, Beside, Released, Down, Removed;
      var again, at := rack.slots[b].shutDown, rack.slots[b].at;
      mishaps := mishaps + if again then [Again(b)] else [];
      ghost var ready := Blank(b);
      FailSteps(old(rack), ready, rack, b, again, slots, screens);
      LeaseStaysDead(ready, rack, b);
      ghost var down := rack;
      DownWithout(down, slots, screens, b, again);
      rack := LetGo(rack, b, again);
      slots := Removed(slots, b);
      unavailable := unavailable + [at];
      GrewOn(old(rack), down, rack);
      if !stopped {
        BesideOn(old(rack), down, rack, b);
      }
    }

    /** Claim a panel, whoever claimed it before, and put it to sleep and close it. */
    method Blank(b: nat) returns (ghost ready: Rack)
      requires Valid() && Idle(rack) && b in slots && b in rack.slots && b < |rack.backends|
      requires rack.slots[b].lease < |rack.leases| && !rack.leases[rack.slots[b].lease].live && Released(rack, b)
      modifies `rack, `stopped, `signals
      ensures Valid() && Returned() && Grew(old(rack), rack)
      ensures Passed(Claim(old(rack), b), ready, {}) && Passed(ready, rack, {b}) && b < |ready.backends|
              && b < |rack.backends|
      ensures b in ready.slots && ready.slots[b].shutDown && ready.slots[b].lease < |ready.leases|
              && !ready.leases[ready.slots[b].lease].live
      ensures rack.backends[b].slept == ready.backends[b].slept + 1
      ensures rack.backends[b].closed == ready.backends[b].closed + 1
      ensures !stopped ==> Beside(old(rack), rack, b)
    {
      hide Sound, DistinctDevices, Worked, Passed, Roster, Grew, Beside, Released, Down;
      ClaimSteps(rack, b, slots, screens);
      ClaimGrows(rack, b);
      DownGrows(rack, Claim(rack, b), slots);
      ghost var claimed := Claim(rack, b);
      rack := Claim(rack, b);
      Wait(b);
      HandIsKept(claimed, rack, b);
      ready := rack;
      ShutDownPanel(b);
      PassedGrows(ready, rack, {b});
      Onward(old(rack), claimed, ready, rack, b, !stopped);
    }

    /** A thread that runs, or does not, and the moment after it. */
    method RunAway(b: nat)
      requires Valid() && Idle(rack) && b in slots && b in rack.slots && rack.slots[b].worker.None?
      modifies `rack, `stopped, `signals
      ensures Valid() && Idle(rack) && Returned() && rack.slipped == old(rack).slipped
      ensures Grew(old(rack), rack) && |rack.backends| == |old(rack).backends| && rack.twice == old(rack).twice
      ensures b in rack.slots && rack.slots[b].lease == old(rack).slots[b].lease < |rack.leases|
      ensures rack.leases[rack.slots[b].lease].backend == b
      ensures !stopped ==> Beside(old(rack), rack, b) && rack.slots[b] == old(rack).slots[b]
    {
      hide Sound, DistinctDevices, Worked, Passed, Roster, Drawing, Grew, Beside, Drawn, Down;
      RosterBounds(rack, b, slots, screens);
      LaunchSteps(rack, b, rack.slots[b].lease, KeyOf(screens[rack.slots[b].at], night), slots, screens);
      ghost var before := rack;
      var runs: bool := *;
      if runs {
        rack := Launch(rack, b, rack.slots[b].lease, KeyOf(screens[rack.slots[b].at], night), false);
      } else {
        NothingMoved(rack);
        PanelStepsAreBeside(rack, b);
      }
      ghost var ran := rack;
      DownGrows(before, ran, slots);
      Wait(b);
      GrewOn(before, ran, rack);
      LeaseStays(ran, rack, b);
      if !stopped {
        WorkedKeepsSlots(ran, rack);
        BesideOn(before, ran, rack, b);
      }
    }

    /** `_start_worker`. A start that fails takes its slot out of the list with the panel off. */
    method StartWorker(b: nat, starts: bool) returns (ok: bool)
      requires Valid() && Idle(rack) && b in slots && b in rack.slots && rack.slots[b].worker.None?
      modifies `rack, `stopped, `signals, `slots, `unavailable, `trace, `mishaps
      ensures Valid() && Idle(rack) && Returned() && rack.slipped == old(rack).slipped
      ensures mishaps == old(mishaps) || (!ok && mishaps == old(mishaps) + [Again(b)])
      ensures rack.twice == old(rack).twice + if mishaps == old(mishaps) then {} else {b}
      ensures ok == starts && trace == old(trace) + [if ok then Launched(b) else Unstarted(b)]
      ensures Grew(old(rack), rack) && |rack.backends| == |old(rack).backends|
      ensures ok ==>
                && slots == old(slots) && unavailable == old(unavailable) && |rack.workers| == |old(rack).workers| + 1
                && b in rack.slots && DrawsOn(rack, |old(rack).workers|, b, old(rack).slots[b].lease)
      ensures !ok ==> Shut(rack, b)
      ensures !ok ==> slots == Removed(old(slots), b) && unavailable == old(unavailable) + [old(rack).slots[b].at]
      ensures !stopped ==> Beside(old(rack), rack, b)
      ensures !stopped && Drawing(old(rack), old(slots), screens, night) ==>
                Drawing(rack, slots, screens, night) && mishaps == old(mishaps)
    {
      hide Sound, DistinctDevices, Worked, Passed, Roster, Drawing, Grew, Beside, Drawn, Down, DrawsOn;
      trace := trace + [if starts then Launched(b) else Unstarted(b)];
      if !starts {
        FailStart(b);
        return false;
      }
      RosterBounds(rack, b, slots, screens);
      var l, key := rack.slots[b].lease, KeyOf(screens[rack.slots[b].at], night);
      LaunchSteps(rack, b, l, key, slots, screens);
      ghost var launched := Launch(rack, b, l, key, false);
      var w := |rack.workers|;
      DownGrows(rack, launched, slots);
      rack := Launch(rack, b, l, key, false);
      Wait(b);
      ghost var waited := rack;
      SetWorkerSteps(launched, rack, b, w, slots, screens);
      rack := SetWorker(rack, b, w);
      ok := true;
      DownGrows(waited, rack, slots);
      DrawsOnItsOwn(launched, waited, b, w);
      GrewOn(old(rack), launched, waited);
      GrewOn(old(rack), waited, rack);
      if !stopped {
        BesideOn(old(rack), launched, waited, b);
        BesideOn(old(rack), waited, rack, b);
        if Drawing(old(rack), slots, screens, night) {
          StartedDraws(old(rack), waited, b, slots, screens, night);
        }
      }
    }

    /** `_replace`: a second lease on the same backend, and a worker that draws through it. The
        slot takes the new lease up only once the worker runs. */
    method Replace(b: nat, makes: bool, raises: bool) returns (ok: bool)
      requires Valid() && Idle(rack) && b in slots && b in rack.slots && Settled() && Noted(rack, mishaps)
      modifies `rack, `stopped, `signals, `mishaps
      ensures Valid() && Resting(rack) && (ok ==> Idle(rack)) && Returned() && Noted(rack, mishaps)
      ensures Spoilt(old(mishaps), mishaps, b, stopped && !old(stopped), stopped, ok)
      ensures Grew(old(rack), rack) && |rack.backends| == |old(rack).backends| && rack.twice == old(rack).twice
      ensures Ended(rack, old(rack).slots[b].lease) && (ok <==> makes && !raises)
      ensures !stopped ==> Beside(old(rack), rack, b)
      ensures ok && !stopped ==>
                && b in rack.slots && rack.slots[b].worker == Some(|old(rack).workers|)
                && rack.slots[b].lease >= |old(rack).leases|
                && rack.slots[b] == old(rack).slots[b].(lease := rack.slots[b].lease, worker := rack.slots[b].worker)
      ensures ok && !stopped && Drawing(old(rack), slots, screens, night) ==> Drawing(rack, slots, screens, night)
    {
      hide Sound, DistinctDevices, Worked, Passed, Roster, Drawing, Grew, Beside, Drawn, Released, Down, Noted, Ended;
      Withdraw(b);
      ghost var withdrawn := rack;
      var l := |rack.leases|;
      NewLeaseSteps(rack, b, slots, screens);
      ghost var leased := NewLease(rack, b);
      DownGrows(rack, leased, slots);
      rack := NewLease(rack, b);
      Wait(b);
      Onward(old(rack), withdrawn, leased, rack, b, !stopped);
      LeaseStays(leased, rack, b);
      LeaseIsThere(leased, rack, l);
      StillNoted(old(rack), rack, mishaps);
      EndedForGood(withdrawn, leased, rack, b, old(rack).slots[b].lease);
      if !makes {
        return false;
      }
      ghost var ready := rack;
      RosterBounds(rack, b, slots, screens);
      ghost var launched, running;
      ok, launched, running := Relaunch(b, l, raises);
      GrewOn(old(rack), ready, rack);
      EndedGrows(ready, rack, old(rack).slots[b].lease);
      if ok && !stopped {
        BesideOn(old(rack), ready, rack, b);
        GrewLonger(old(rack), withdrawn);
        WorkedKeepsSizes(leased, ready);
        if Drawing(old(rack), slots, screens, night) {
          RestartedDraws(old(rack), withdrawn, leased, ready, rack, b, slots, screens, night);
        }
      } else if !stopped {
        BesideOn(old(rack), ready, rack, b);
      }
    }

    /** The rest of a restart, once there is a thread: run it on the lease, then take that up. A
        start may raise although its thread runs, and then nothing ever takes the lease up.
        `launched` is the rack as the new worker starts, `running` as it is next looked at. */
    method Relaunch(b: nat, l: nat, raises: bool) returns (ok: bool, ghost launched: Rack, ghost running: Rack)
      requires Valid() && Idle(rack) && b in slots && b in rack.slots && l < |rack.leases|
               && rack.leases[l].backend == b
      requires rack.slots[b].lease < |rack.leases| && !rack.leases[rack.slots[b].lease].live
      requires rack.slots[b].at < |screens| && Settled() && Noted(rack, mishaps)
      modifies `rack, `stopped, `signals, `mishaps
      ensures Valid() && Resting(rack) && (ok ==> Idle(rack)) && Returned() && Noted(rack, mishaps)
      ensures launched == Launch(old(rack), b, l, KeyOf(screens[old(rack).slots[b].at], night), true)
      ensures ok == !raises && Passed(launched, running, {}) && b in running.slots && (!ok ==> rack == running)
      ensures mishaps == old(mishaps) + Spoils(b, launched.slots[b].shutDown, running.slots[b].shutDown, ok)
      ensures Spoilt(old(mishaps), mishaps, b, stopped && !old(stopped), stopped, ok)
      ensures Grew(old(rack), rack) && |rack.backends| == |old(rack).backends| && rack.twice == old(rack).twice
      ensures !stopped ==> Beside(old(rack), rack, b)
      ensures ok && !stopped ==> Taken(old(rack), rack, b, l, KeyOf(screens[old(rack).slots[b].at], night))
    {
      hide Sound, DistinctDevices, Worked, Passed, Roster, Drawing, Grew, Beside, Drawn, Taken, Down, Noted, Accounts;
      var w := |rack.workers|;
      ghost var key := KeyOf(screens[rack.slots[b].at], night);
      ok, launched := RunOn(b, l, raises);
      running := rack;
      if !ok {
        return;
      }
      ghost var settled := Settle(b, l, w, launched);
      GrewOn(old(rack), running, rack);
      if !stopped {
        BesideOn(old(rack), running, rack, b);
        TakenUp(old(rack), running, settled, b, l, key);
      }
    }

    /** The new worker runs; the slot still names the old one and its dead lease. */
    method RunOn(b: nat, l: nat, raises: bool) returns (ok: bool, ghost launched: Rack)
      requires Valid() && Idle(rack) && b in slots && b in rack.slots && l < |rack.leases|
               && rack.leases[l].backend == b
      requires rack.slots[b].lease < |rack.leases| && !rack.leases[rack.slots[b].lease].live
      requires rack.slots[b].at < |screens| && Settled() && Noted(rack, mishaps)
      modifies `rack, `stopped, `signals, `mishaps
      ensures Valid() && Resting(rack) && Returned() && b in rack.slots
      ensures launched == Launch(old(rack), b, l, KeyOf(screens[old(rack).slots[b].at], night), true)
      ensures ok == !raises && Passed(launched, rack, {}) && (!stopped ==> Worked(launched, rack))
      ensures mishaps == old(mishaps) + Spoils(b, launched.slots[b].shutDown, rack.slots[b].shutDown, ok)
      ensures Spoilt(old(mishaps), mishaps, b, stopped && !old(stopped), stopped, ok)
      ensures if ok then Accounts(rack, mishaps) else Noted(rack, mishaps)
      ensures Grew(old(rack), rack) && |rack.backends| == |old(rack).backends| && rack.twice == old(rack).twice
      ensures !stopped ==> Beside(old(rack), rack, b)
    {
      hide Sound, DistinctDevices, Worked, Passed, Roster, Grew, Beside, Down, Noted, Accounts;
      var key := KeyOf(screens[rack.slots[b].at], night);
      RestartSteps(rack, b, l, key, slots, screens);
      launched := Launch(rack, b, l, key, true);
      DownGrows(rack, launched, slots);
      rack := Launch(rack, b, l, key, true);
      Wait(b);
      LeaseStays(launched, rack, b);
      InTheWindow(old(rack), launched, rack, b, slots, old(stopped), stopped);
      ok := !raises;
      WindowIsNoted(old(rack), launched, rack, b, mishaps, ok);
      mishaps := mishaps + Spoils(b, launched.slots[b].shutDown, rack.slots[b].shutDown, ok);
      GrewOn(old(rack), launched, rack);
      if !stopped {
        BesideOn(old(rack), launched, rack, b);
      }
    }

    /** The slot takes up the lease its new worker draws through, and then the worker. */
    method Settle(b: nat, l: nat, w: nat, ghost launched: Rack) returns (ghost settled: Rack)
      requires Valid() && Resting(rack) && b in slots && b in rack.slots && Settled() && Accounts(rack, mishaps)
      requires b in launched.slots && l < |launched.leases| && launched.leases[l].backend == b && w < |launched.workers|
      requires launched.inFlight == Some(l) && launched.slots[b].lease < |launched.leases|
      requires !launched.leases[launched.slots[b].lease].live && launched.workers[w].slot == b
      requires Passed(launched, rack, {})
      modifies `rack, `stopped, `signals
      ensures Valid() && Idle(rack) && Returned() && Noted(rack, mishaps)
      ensures Grew(old(rack), rack) && |rack.backends| == |old(rack).backends| && rack.twice == old(rack).twice
      ensures b in settled.slots && rack == SetWorker(settled, b, w)
      ensures !stopped ==> Beside(old(rack), rack, b) && Worked(Point(old(rack), b, l), settled)
    {
      hide Sound, DistinctDevices, Worked, Passed, Roster, Grew, Beside, Down, Noted, Accounts;
      PointSteps(launched, rack, b, l, slots, screens);
      ghost var pointed := Point(rack, b, l);
      DownGrows(rack, pointed, slots);
      rack := Point(rack, b, l);
      Wait(b);
      settled := rack;
      WorkerStays(launched, old(rack), w);
      SetWorkerSteps(pointed, rack, b, w, slots, screens);
      rack := SetWorker(rack, b, w);
      DownGrows(settled, rack, slots);
      NotedOn(old(rack), pointed, settled, rack, mishaps);
      Onward(old(rack), pointed, settled, rack, b, !stopped);
    }

    /** `_check`: a worker whose heartbeat has stopped is replaced, three times at most; a fourth
        is only counted. */
    method Check(b: nat, stale: bool, makes: bool, raises: bool) returns (ok: bool)
      requires Valid() && Idle(rack) && b in slots && b in rack.slots && Settled() && Noted(rack, mishaps)
      modifies `rack, `stopped, `signals, `mishaps
      ensures Valid() && Resting(rack) && (ok ==> Idle(rack)) && Returned() && Noted(rack, mishaps)
      ensures Spoilt(old(mishaps), mishaps, b, stopped && !old(stopped), stopped, ok)
      ensures Grew(old(rack), rack) && |rack.backends| == |old(rack).backends| && rack.twice == old(rack).twice
      ensures !stopped ==> Beside(old(rack), rack, b)
      ensures ok <==> (makes && !raises) || !Due(old(rack).slots[b], stale)
      ensures ok && !stopped ==> b in rack.slots && Checked(old(rack).slots[b], rack.slots[b], stale)
      ensures ok && !stopped && Drawing(old(rack), slots, screens, night) ==> Drawing(rack, slots, screens, night)
    {
      hide Sound, DistinctDevices, Worked, Passed, Roster, Drawing, Grew, Beside, Drawn, Down, Noted, Ended;
      GrownSlot(rack, b);
      RosterBounds(rack, b, slots, screens);
      PanelStepsAreBeside(rack, b);
      if rack.slots[b].restarts > MAX_RESTARTS || rack.slots[b].worker.None? || !stale {
        return true;
      }
      CountSteps(rack, b, slots, screens, night);
      ghost var counted := WithSlot(rack, b, rack.slots[b].(restarts := rack.slots[b].restarts + 1));
      DownGrows(rack, counted, slots);
      StillNoted(rack, counted, mishaps);
      rack := WithSlot(rack, b, rack.slots[b].(restarts := rack.slots[b].restarts + 1));
      if rack.slots[b].restarts > MAX_RESTARTS {
        return true;
      }
      ok := Replace(b, makes, raises);
      GrewOn(old(rack), counted, rack);
      if !stopped {
        BesideOn(old(rack), counted, rack, b);
      }
    }

    /** One watchdog pass: unless a stop lands or a thread will not start, exactly the overdue
        workers are replaced, each on the panel it had. At most one of them comes to grief. */
    method Tick(overdue: nat -> bool, makes: nat -> bool, raises: nat -> bool) returns (ok: bool)
      requires Valid() && Steady() && Settled() && Noted(rack, mishaps)
      modifies `rack, `stopped, `signals, `mishaps
      ensures Valid() && Resting(rack) && NoneHeld(rack) && Returned() && Noted(rack, mishaps)
      ensures AtMostOne(old(mishaps), mishaps, stopped, ok)
      ensures |rack.backends| == |old(rack).backends| && rack.twice == old(rack).twice
      ensures ok ==> Steady()
      ensures old(stopped) ==> ok && rack == old(rack) && mishaps == old(mishaps)
      ensures (forall b | b in slots :: makes(b) && !raises(b)) ==> ok
      ensures ok && !stopped ==> forall b | b in slots ::
                b in old(rack).slots && b in rack.slots && Checked(old(rack).slots[b], rack.slots[b], overdue(b))
    {
      hide Sound, DistinctDevices, Worked, Passed, Roster, Drawing, Grew, Beside, Drawn, NoneHeld, Checked, Down, Noted;
      GrownSlot(rack, 0);
      if stopped {
        return true;
      }
      SlotsAreThere(rack, slots, screens);
      for i := 0 to |slots|
        invariant Valid() && Steady() && Grew(old(rack), rack) && Returned() && Noted(rack, mishaps)
        invariant AtMostOne(old(mishaps), mishaps, stopped, true)
        invariant |rack.backends| == |old(rack).backends| && rack.twice == old(rack).twice
        invariant forall b | b in slots :: b in rack.slots
        invariant !stopped ==> forall k | 0 <= k < |slots| ::
          if k < i then Checked(old(rack).slots[slots[k]], rack.slots[slots[k]], overdue(slots[k]))
          else rack.slots[slots[k]] == old(rack).slots[slots[k]]
      {
        ghost var before := rack;
        ok := Check(slots[i], overdue(slots[i]), makes(slots[i]), raises(slots[i]));
        GrewOn(old(rack), before, rack);
        NoneHeldStays(before, rack);
        SlotsStay(before, rack, slots);
        if !ok {
          return false;
        }
        if !stopped {
          OthersStay(before, rack, slots[i]);
        }
      }
      ok := true;
    }

    /** At rest: nobody mid-way through anything, no worker held off, and, until a stop, drawing. */
    ghost predicate Steady()
      reads this
    {
      Idle(rack) && NoneHeld(rack) && (!stopped ==> Drawing(rack, slots, screens, night))
    }

    constructor (screens: seq<Screen>, night: Night, signals: nat)
      ensures Valid() && Steady() && rack == EMPTY && slots == [] && unavailable == [] && !stopped
      ensures this.screens == screens && this.night == night && this.signals == signals && interruptible
      ensures distinct == DistinctDevices(screens) && mishaps == [] && Noted(rack, mishaps)
    {
      this.rack, this.slots, this.unavailable := EMPTY, [], [];
      this.screens, this.night, this.signals := screens, night, signals;
      this.stopped, this.interruptible := false, true;
      this.distinct, this.trace, this.mishaps := DistinctDevices(screens), [], [];
      EmptyIsSound(screens, night);
      hide Sound, Roster, Drawing, DistinctDevices;
    }

    /** Every panel first, and only then every worker. A rack that comes up uninterrupted has tried
        to open every screen, once and in order, and started a worker on every panel that opened;
        it is interrupted by a stop, or by the first of those workers that will not start. */
    method Start(opening: nat -> bool, starting: nat -> bool)
      returns (ok: bool, ghost opens: seq<Event>, ghost starts: seq<Event>)
      requires Valid() && Steady() && rack == EMPTY && slots == [] && unavailable == [] && Noted(rack, mishaps)
      modifies `rack, `stopped, `signals, `slots, `unavailable, `trace, `mishaps
      ensures Valid() && Idle(rack) && NoneHeld(rack) && Returned() && Noted(rack, mishaps)
      ensures mishaps == old(mishaps) || (!ok && stopped && AgainOnly(old(mishaps), mishaps))
      ensures trace == old(trace) + opens + starts && (ok ==> Steady())
      ensures (forall e | e in opens :: e.Opened? || e.NoPanel?)
              && (forall e | e in starts :: e.Launched? || e.Unstarted?)
      ensures !ok ==> exists at :: 0 <= at < |screens| && opening(at) && !starting(at)
      ensures ok && !stopped ==>
                && opens == Tries(Indices(|screens|), screens, opening, {}) && starts == Starts(slots)
                && Accounted(rack, slots, unavailable, multiset(Indices(|screens|)))
                && (forall b | b in slots :: b in rack.slots && rack.slots[b].worker.Some?)
                && (forall at | 0 <= at < |screens| :: Runs(rack, slots, at) <==> opening(at))
                && (forall at | 0 <= at < |screens| && opening(at) :: starting(at))
    {
      hide Sound, DistinctDevices, Roster, Drawing, NoneHeld, Accounted, Down, Noted, Runs;
      ghost var before := rack;
      OpenAll(opening);
      StillNoted(before, rack, mishaps);
      opens, starts := trace[|old(trace)|..], [];
      if stopped {
        ok := true;
        return;
      }
      ghost var shown, bare, listed := trace, rack, slots;
      ok := StartAll(starting);
      starts := trace[|shown|..];
      StartedWhereOpened(bare, rack, listed, screens, opening, starting, ok, stopped);
    }

    /** Open one panel, at startup. */
    method OpenNext(at: nat, opens: bool, ghost places: multiset<nat>)
      requires Valid() && Steady() && !stopped && |rack.workers| == 0 && at < |screens|
      requires Accounted(rack, slots, unavailable, places)
      requires forall b | b in slots :: b in rack.slots && At(rack, b) != at
      modifies `rack, `stopped, `signals, `slots, `unavailable, `trace
      ensures Valid() && Steady() && Returned() && SameMarks(old(rack), rack) && |rack.workers| == 0
      ensures trace == old(trace) + [if opens then Opened(at) else NoPanel(at)]
      ensures old(slots) <= slots
      ensures forall b | b in old(slots) :: b in rack.slots && At(rack, b) == At(old(rack), b)
      ensures forall b | b in slots && b !in old(slots) ::
                b in rack.slots && At(rack, b) == at && rack.slots[b].worker.None? && opens
      ensures !stopped ==>
                && Accounted(rack, slots, unavailable, places + multiset{at})
                && (Runs(rack, slots, at) <==> opens)
                && (forall k | k != at :: Runs(rack, slots, k) <==> Runs(old(rack), old(slots), k))
                && (forall b | b in old(slots) :: rack.slots[b] == old(rack).slots[b])
    {
      hide Sound, DistinctDevices, Worked, Passed, Roster, Drawing, Grew, Beside, Drawn, Accounted, Unmoved, Down, Runs;
      OpenPanel(at, opens);
      SlotsStay(old(rack), rack, old(slots));
      if !stopped {
        UnmovedSlots(old(rack), rack);
      }
      OneMore(old(rack), rack, old(slots), slots, old(unavailable), unavailable, places, at);
      OneMoreRuns(old(rack), rack, old(slots), slots, at);
    }

    /** Open every panel in turn, until there is no other or a stop has come. */
    method OpenAll(opening: nat -> bool)
      requires Valid() && Steady() && rack == EMPTY && slots == [] && unavailable == []
      modifies `rack, `stopped, `signals, `slots, `unavailable, `trace
      ensures Valid() && Steady() && Returned() && SameMarks(old(rack), rack) && |rack.workers| == 0
      ensures old(trace) <= trace && forall i | |old(trace)| <= i < |trace| :: trace[i].Opened? || trace[i].NoPanel?
      ensures forall b | b in slots :: b in rack.slots && At(rack, b) < |screens| && opening(At(rack, b))
      ensures !stopped ==>
                && trace == old(trace) + Tries(Indices(|screens|), screens, opening, {})
                && Accounted(rack, slots, unavailable, multiset(Indices(|screens|)))
                && (forall b | b in slots :: b in rack.slots && rack.slots[b].worker.None?)
                && (forall at | 0 <= at < |screens| :: Runs(rack, slots, at) <==> opening(at))
    {
      hide Sound, DistinctDevices, Worked, Passed, Roster, Drawing, Grew, Beside, Drawn, Accounted, Unmoved, Down, Runs,
        Tries, At;
      NobodyAccounted(rack);
      NothingTried(screens, opening);
      for at := 0 to |screens|
        invariant Valid() && Steady() && Returned() && SameMarks(old(rack), rack) && |rack.workers| == 0
        invariant old(trace) <= trace && forall i | |old(trace)| <= i < |trace| :: trace[i].Opened? || trace[i].NoPanel?
        invariant !stopped ==> trace == old(trace) + Tries(Indices(at), screens, opening, {})
        invariant !stopped ==> Accounted(rack, slots, unavailable, multiset(Indices(at)))
        invariant forall b | b in slots :: b in rack.slots && At(rack, b) < at && opening(At(rack, b))
        invariant !stopped ==> forall b | b in slots :: rack.slots[b].worker.None?
        invariant forall k | 0 <= k < at :: !stopped ==> (Runs(rack, slots, k) <==> opening(k))
      {
        if stopped {
          return;
        }
        ghost var before, listed := rack, slots;
        OpenNext(at, opening(at), multiset(Indices(at)));
        OneMoreTry(Indices(at), at, screens, opening, {});
        assert Indices(at + 1) == Indices(at) + [at];
      }
    }

    /** Start a worker on one panel that has none, at startup. */
    method StartNext(b: nat, starts: bool) returns (ok: bool)
      requires Valid() && Steady() && Noted(rack, mishaps) && b in slots
      requires b in rack.slots && rack.slots[b].worker.None?
      modifies `rack, `stopped, `signals, `slots, `unavailable, `trace, `mishaps
      ensures Valid() && Idle(rack) && NoneHeld(rack) && Returned() && Noted(rack, mishaps)
      ensures mishaps == old(mishaps) || (!ok && stopped && AgainOnly(old(mishaps), mishaps))
      ensures ok == starts && trace == old(trace) + [if ok then Launched(b) else Unstarted(b)]
      ensures Grew(old(rack), rack)
      ensures ok ==>
                && Steady() && slots == old(slots) && unavailable == old(unavailable)
                && b in rack.slots && rack.slots[b].worker.Some?
      ensures ok && !stopped ==>
                forall s | s in old(rack).slots && s != b :: s in rack.slots && rack.slots[s] == old(rack).slots[s]
    {
      hide Sound, DistinctDevices, Worked, Passed, Roster, Drawing, Grew, Beside, Drawn, Accounted, NoneHeld, Down,
        Noted, DrawsOn, Shut, Removed;
      NoSlotTwice(rack, slots, screens);
      ok := StartWorker(b, starts);
      NoneHeldStays(old(rack), rack);
      NotedAgain(old(rack), rack, old(mishaps), mishaps, b);
      if ok {
        StartedHasOne(rack, |old(rack).workers|, b, old(rack).slots[b].lease);
        if !stopped {
          OthersStay(old(rack), rack, b);
        }
      }
    }

    /** Start a worker on every panel, until one will not start or a stop has come. */
    method StartAll(starting: nat -> bool) returns (ok: bool)
      requires Valid() && Steady() && !stopped && Noted(rack, mishaps)
      requires Accounted(rack, slots, unavailable, multiset(Indices(|screens|)))
      requires forall b | b in slots :: b in rack.slots && rack.slots[b].worker.None?
      modifies `rack, `stopped, `signals, `slots, `unavailable, `trace, `mishaps
      ensures Valid() && Idle(rack) && NoneHeld(rack) && Returned() && Noted(rack, mishaps)
      ensures mishaps == old(mishaps) || (!ok && stopped && AgainOnly(old(mishaps), mishaps))
      ensures old(trace) <= trace && forall i | |old(trace)| <= i < |trace| :: trace[i].Launched? || trace[i].Unstarted?
      ensures ok ==> Steady()
      ensures !ok ==> exists b :: b in old(slots) && !starting(At(old(rack), b))
      ensures ok && !stopped ==>
                && trace == old(trace) + Starts(slots) && slots == old(slots)
                && Accounted(rack, slots, unavailable, multiset(Indices(|screens|)))
                && (forall b | b in slots :: b in rack.slots && rack.slots[b].worker.Some?)
                && (forall b | b in slots :: At(rack, b) == At(old(rack), b) && starting(At(rack, b)))
    {
      hide Sound, DistinctDevices, Worked, Passed, Roster, Drawing, Grew, Beside, Drawn, Accounted, NoneHeld, Down,
        Noted, DrawsOn, Shut, Starts, Removed;
      var listed := slots;
      NothingStarted(listed);
      for i := 0 to |listed|
        invariant Valid() && Steady() && Returned() && slots == listed
        invariant Noted(rack, mishaps) && mishaps == old(mishaps)
        invariant !stopped ==> trace == old(trace) + Starts(listed[..i])
        invariant old(trace) <= trace && forall j | |old(trace)| <= j < |trace| ::
          trace[j].Launched? || trace[j].Unstarted?
        invariant !stopped ==>
          && Accounted(rack, slots, unavailable, multiset(Indices(|screens|)))
          && (forall k | 0 <= k < |listed| ::
            listed[k] in rack.slots && rack.slots[listed[k]].worker.Some? == (k < i))
        invariant forall b | b in listed :: b in rack.slots && At(rack, b) == At(old(rack), b)
        invariant forall k | 0 <= k < i :: starting(At(old(rack), listed[k]))
      {
        if stopped {
          return true;
        }
        ghost var before := rack;
        NoSlotTwice(rack, slots, screens);
        ok := StartNext(listed[i], starting(rack.slots[listed[i]].at));
        if !ok {
          return false;
        }
        AccountStays(before, rack, slots, unavailable, multiset(Indices(|screens|)));
        SlotsStay(before, rack, slots);
        OneMoreStart(listed, i);
      }
      assert listed[..|listed|] == listed;
      ok := true;
    }

    // -------------------------------------------------------------- a pushed configuration

    /** `_retire`: every lease and stop first, then the joins. */
    method Retire(gone: seq<nat>)
      requires Valid() && !interruptible && !stopped && forall b | b in gone :: b in rack.slots && b in slots
      modifies `rack, `stopped, `signals
      ensures Valid() && !stopped && Returned() && Apart(old(rack), rack, Used(gone)) && SameAccount(old(rack), rack)
      ensures rack.backends == old(rack).backends
      ensures forall b | b in gone :: Dismissed(rack, b) && rack.slots[b].shutDown == old(rack).slots[b].shutDown
    {
      hide Sound, DistinctDevices, Worked, Passed, Roster, Apart, Grew, Beside, Used, Dismissed;
      ApartAlready(rack, Used(gone));
      for i := 0 to |gone|
        invariant Valid() && !stopped && Returned() && Apart(old(rack), rack, Used(gone))
                  && SameAccount(old(rack), rack)
        invariant rack.backends == old(rack).backends
        invariant forall b | b in gone :: b in rack.slots && rack.slots[b].shutDown == old(rack).slots[b].shutDown
        invariant forall k | 0 <= k < i :: Dismissed(rack, gone[k])
      {
        ghost var before := rack;
        RetireSteps(rack, gone[i], gone, slots, screens);
        rack := SetStop(Revoke(rack, rack.slots[gone[i]].lease), gone[i]);
        ApartOn(old(rack), before, rack, Used(gone));
        DismissedStays(before, rack, Used(gone));
      }
      for i := 0 to |gone|
        invariant Valid() && !stopped && Returned() && Apart(old(rack), rack, Used(gone))
                  && SameAccount(old(rack), rack)
        invariant rack.backends == old(rack).backends
        invariant forall b | b in gone :: b in rack.slots && rack.slots[b].shutDown == old(rack).slots[b].shutDown
        invariant forall b | b in gone :: Dismissed(rack, b)
      {
        ghost var before := rack;
        Wait(gone[i]);
        WorkedApart(before, rack, Used(gone));
        WorkedKeepsSlots(before, rack);
        ApartOn(old(rack), before, rack, Used(gone));
        DismissedStays(before, rack, Used(gone));
      }
    }

    /** `pause`: the worker lets its tick lock go while it is waited for, or, wedged, is still in
        the middle of a tick when the waiting ends. */
    method Pause(w: nat, wedged: bool) returns (taken: bool)
      requires Valid() && w < |rack.workers| && w < |rack.workers| && !rack.workers[w].held && !Told(rack, w)
      modifies `rack
      ensures Valid() && Worked(old(rack), rack) && SameAccount(old(rack), rack)
      ensures taken == !rack.workers[w].ticking == !wedged
    {
      hide Sound, DistinctDevices, Roster;
      var move := if wedged then Begin(w) else End(w);
      BreathKeepsRoster(rack, move, slots, screens);
      LeaseOf(rack, w);
      PassedKeepsAccount(rack, Act(rack, move)) by {
        WorkedPasses(rack, Act(rack, move));
      }
      rack := Act(rack, move);
      taken := !rack.workers[w].ticking;
    }

    /** `_off_the_bus`, on the way in: every kept worker is offered a pause, and takes it unless it
        is wedged in the middle of a tick. A worker that does not come off, and nobody else,
        leaves its bus unguarded. */
    method HoldAll(wedged: nat -> bool) returns (held: seq<nat>, unguarded: set<Bus>)
      requires Valid() && NoneHeld(rack) && !stopped && !interruptible
      requires Drawing(rack, slots, screens, night)
      modifies `rack, `stopped, `signals, `trace
      ensures Valid() && SameAccount(old(rack), rack) && !stopped && Returned() && Drawing(rack, slots, screens, night)
      ensures Holding(rack, held) && Guarded(rack, slots, |slots|, unguarded)
      ensures Offered(old(rack), slots, wedged, held, unguarded)
      ensures rack.slots == old(rack).slots && rack.backends == old(rack).backends && LeasesEnd(old(rack), rack)
      ensures trace == old(trace) + Marks(held, true)
    {
      hide Sound, DistinctDevices, Worked, Passed, Roster, Drawing, Grew, Beside, Holding, Guarded, Offered, HeldOf;
      held, unguarded := [], {};
      NobodyHeld(rack, slots);
      NobodyAsked(rack, slots, wedged);
      assert Marks([], true) == [];
      for i := 0 to |slots|
        invariant Valid() && SameAccount(old(rack), rack) && !stopped && Returned()
                  && Drawing(rack, slots, screens, night)
        invariant Holding(rack, held) && Guarded(rack, slots, i, unguarded)
        invariant Offered(rack, slots[..i], wedged, held, unguarded) && HeldOf(rack, slots[..i], held)
        invariant rack.slots == old(rack).slots && rack.backends == old(rack).backends && LeasesEnd(old(rack), rack)
        invariant trace == old(trace) + Marks(held, true)
      {
        ghost var before := rack;
        Wait(slots[i]);
        DrawingGoesOn(before, rack, slots, screens, night);
        HeldStays(before, rack, held, slots, i, unguarded);
        AskedStays(before, rack, slots[..i], wedged, held, unguarded);
        WorkedEnds(old(rack), before, rack);
        SlotIsThere(rack, slots, i, screens, night);
        var worker := rack.slots[slots[i]].worker;
        if worker.Some? {
          NobodyHoldsIt(rack, slots, i, held, screens, night);
          ghost var asked := rack;
          var taken := Pause(worker.value, wedged(worker.value));
          DrawingGoesOn(asked, rack, slots, screens, night);
          HeldStays(asked, rack, held, slots, i, unguarded);
          AskedStays(asked, rack, slots[..i], wedged, held, unguarded);
          WorkedEnds(old(rack), asked, rack);
          WorkerIsSame(asked, rack, worker.value);
          HoldOne(rack, slots, i, held, unguarded, taken, screens, night);
          if taken {
            AskedHolds(rack, slots, i, wedged, held, unguarded, screens, night);
            rack := Hold(rack, worker.value, true);
            held := held + [worker.value];
            trace := trace + [Held(worker.value)];
            assert Marks(held, true) == Marks(held[..|held| - 1], true) + [Held(worker.value)];
          } else {
            AskedOne(rack, slots, i, wedged, held, unguarded);
            unguarded := unguarded + {BusOf(rack.backends[slots[i]].display)};
          }
        } else {
          HoldOne(rack, slots, i, held, unguarded, false, screens, night);
          AskedOne(rack, slots, i, wedged, held, unguarded);
        }
      }
      assert slots[..|slots|] == slots;
      OfferedThere(rack, old(rack), slots, wedged, held, unguarded);
    }

    /** `_off_the_bus`, on the way out: everyone held goes back to drawing, once. */
    method ResumeAll(held: seq<nat>)
      requires Valid() && Idle(rack) && !stopped && !interruptible && Holding(rack, held)
      requires Drawing(rack, slots, screens, night)
      modifies `rack, `trace
      ensures Valid() && Idle(rack) && NoneHeld(rack) && Drawing(rack, slots, screens, night)
      ensures rack == old(rack).(workers := rack.workers) && |rack.workers| == |old(rack).workers|
      ensures trace == old(trace) + Marks(held, false)
    {
      hide Sound, DistinctDevices, Worked, Passed, Roster, Drawing, Grew, Beside, Holding;
      for i := 0 to |held|
        invariant Valid() && Idle(rack) && Drawing(rack, slots, screens, night)
        invariant Holding(rack, held[i..])
        invariant rack == old(rack).(workers := rack.workers) && |rack.workers| == |old(rack).workers|
        invariant trace == old(trace) + Marks(held[..i], false)
      {
        FreeOne(rack, held[i..], slots, screens, night);
        rack := Hold(rack, held[i], false);
        trace := trace + [Freed(held[i])];
        assert held[i..][0] == held[i] && held[i..][1..] == held[i + 1..];
        assert Marks(held[..i + 1], false) == Marks(held[..i], false) + [Freed(held[i])];
      }
      assert held[|held|..] == [] && held[..|held|] == held;
      NobodyLeftHeld(rack);
    }

    /** Blank the retired panels, so that their devices are free. */
    method BlankRetired(gone: seq<nat>)
      requires Valid() && !interruptible && !stopped && rack.inHand == Used(gone) && rack.adrift.None?
               && rack.inFlight.None?
      requires Gone(rack, slots, gone)
      requires Drawing(rack, slots, screens, night)
      modifies `rack, `stopped, `signals
      ensures Valid() && Idle(rack) && !stopped && Returned() && Drawing(rack, slots, screens, night)
      ensures Apart(old(rack), rack, Used(gone)) && SameMarks(old(rack), rack)
      ensures forall b | b in gone :: b in rack.slots && rack.slots[b].shutDown
    {
      hide Sound, DistinctDevices, Worked, Passed, Roster, Drawing, Apart, Grew, Beside, Dismissed, Untouched;
      ApartAlready(rack, Used(gone));
      for i := 0 to |gone|
        invariant Valid() && !stopped && Returned() && rack.inHand == Used(gone[i..]) && rack.adrift.None?
                  && rack.inFlight.None?
        invariant Apart(old(rack), rack, Used(gone)) && SameMarks(old(rack), rack)
        invariant forall k | i <= k < |gone| ::
          Dismissed(rack, gone[k]) && gone[k] in rack.slots && !rack.slots[gone[k]].shutDown && Untouched(rack, gone[k])
        invariant forall k | 0 <= k < i :: gone[k] in rack.slots && rack.slots[gone[k]].shutDown
      {
        ghost var before := rack;
        var b := gone[i];
        BlankSteps(rack, gone, i, slots, screens);
        ghost var claimed := Claim(rack, b);
        rack := Claim(rack, b);
        ShutDownPanel(b);
        BlankedSteps(before, rack, gone, i, slots, screens);
        rack := LetGo(rack, b, false);
        ApartOn(old(rack), before, rack, Used(gone));
      }
      assert gone[|gone|..] == [];
      NoneUsed();
      RetiredAreApart(old(rack), rack, gone, slots, screens, night);
    }

    /** One screen that has no slot: opened, or recorded if its bus is not guarded. */
    method OpenOrSkip(at: nat, opening: nat -> bool, unguarded: set<Bus>, ghost held: seq<nat>,
                      ghost places: multiset<nat>)
      requires Valid() && Idle(rack) && !stopped && !interruptible && Drawing(rack, slots, screens, night)
      requires Holding(rack, held) && AllQuiet(rack, unguarded) && at < |screens|
      requires forall b | b in slots :: At(rack, b) != at
      requires Accounted(rack, slots, unavailable, places)
      modifies `rack, `stopped, `signals, `slots, `unavailable, `trace
      ensures Valid() && Idle(rack) && !stopped && Returned() && Drawing(rack, slots, screens, night)
      ensures Holding(rack, held) && AllQuiet(rack, unguarded) && Unmoved(old(rack), rack)
      ensures Accounted(rack, slots, unavailable, places + multiset{at}) && |rack.workers| == |old(rack).workers|
      ensures trace == old(trace) + [Try(at, screens, opening, unguarded)]
      ensures Runs(rack, slots, at) <==> Try(at, screens, opening, unguarded).Opened?
      ensures forall k | k != at :: Runs(rack, slots, k) <==> Runs(old(rack), old(slots), k)
      ensures old(slots) <= slots && forall b | b in slots && b !in old(slots) ::
                b in rack.slots && At(rack, b) == at && rack.slots[b].worker.None?
      ensures forall b | b in old(slots) ::
                b in rack.slots && b in old(rack).slots && rack.slots[b] == old(rack).slots[b]
    {
      hide Sound, DistinctDevices, Worked, Passed, Roster, Drawing, Grew, Beside, Holding, AllQuiet, Accounted, Unmoved,
        Quiet, Runs;
      SlotsAreThere(rack, slots, screens);
      NothingMoved(rack);
      var bus := BusOf(screens[at].config.display);
      if bus in unguarded {
        Unopened(rack, slots, unavailable, places, at);
        unavailable := unavailable + [at];
        trace := trace + [Skipped(at)];
        OneMoreRuns(rack, rack, slots, slots, at);
      } else {
        BusIsQuiet(rack, unguarded, bus);
        OpenPanel(at, opening(at));
        OpeningKeepsGuard(old(rack), rack, held, unguarded);
        UnmovedSlots(old(rack), rack);
        OneMore(old(rack), rack, old(slots), slots, old(unavailable), unavailable, places, at);
        OneMoreRuns(old(rack), rack, old(slots), slots, at);
      }
    }

    /** Open every screen that has no slot, but none on a bus that is not guarded. */
    method OpenAdded(added: seq<nat>, opening: nat -> bool, unguarded: set<Bus>, ghost held: seq<nat>,
                     ghost places: multiset<nat>)
      requires Valid() && Idle(rack) && !stopped && !interruptible && Drawing(rack, slots, screens, night)
      requires Holding(rack, held) && AllQuiet(rack, unguarded) && Within(added, |screens|)
      requires forall i, j | 0 <= i < j < |added| :: added[i] < added[j]
      requires forall b, k | b in slots && 0 <= k < |added| :: At(rack, b) != added[k]
      requires Accounted(rack, slots, unavailable, places)
      modifies `rack, `stopped, `signals, `slots, `unavailable, `trace
      ensures Valid() && Idle(rack) && !stopped && Returned() && Drawing(rack, slots, screens, night)
              && Holding(rack, held)
      ensures Accounted(rack, slots, unavailable, places + multiset(added))
      ensures old(slots) <= slots && |rack.workers| == |old(rack).workers| && Unmoved(old(rack), rack)
      ensures trace == old(trace) + Tries(added, screens, opening, unguarded)
      ensures forall k | 0 <= k < |added| ::
                Runs(rack, slots, added[k]) <==> Try(added[k], screens, opening, unguarded).Opened?
      ensures Bare(rack, slots, added)
    {
      hide Sound, DistinctDevices, Worked, Passed, Roster, Drawing, Grew, Beside, Holding, AllQuiet, Accounted, Unmoved,
        Quiet, At, Try, Tries, Runs;
      SlotsAreThere(rack, slots, screens);
      NothingMoved(rack);
      NothingTriedYet(added, screens, opening, unguarded);
      assert added[..0] == [] && places + multiset(added[..0]) == places;
      for i := 0 to |added|
        invariant Valid() && Idle(rack) && !stopped && Returned() && Drawing(rack, slots, screens, night)
        invariant Holding(rack, held) && AllQuiet(rack, unguarded)
        invariant forall b, k | b in slots && i <= k < |added| :: At(rack, b) != added[k]
        invariant Accounted(rack, slots, unavailable, places + multiset(added[..i]))
        invariant old(slots) <= slots && |rack.workers| == |old(rack).workers| && Unmoved(old(rack), rack)
        invariant trace == old(trace) + Tries(added[..i], screens, opening, unguarded)
        invariant forall k | 0 <= k < i ::
          Runs(rack, slots, added[k]) <==> Try(added[k], screens, opening, unguarded).Opened?
        invariant forall b | b in slots ::
          b in rack.slots && (rack.slots[b].worker.None? || forall k | 0 <= k < |added| :: At(rack, b) != added[k])
      {
        ghost var before, listed := rack, slots;
        assert forall k | 0 <= k < i :: added[k] != added[i];
        assert added[..i + 1] == added[..i] + [added[i]];
        assert places + multiset(added[..i + 1]) == places + multiset(added[..i]) + multiset{added[i]};
        OpenOrSkip(added[i], opening, unguarded, held, places + multiset(added[..i]));
        UnmovedOn(old(rack), before, rack);
        SameAt(before, rack, listed);
        OneMoreTry(added[..i], added[i], screens, opening, unguarded);
      }
      assert added[..|added|] == added;
    }

    /** One listed slot: a worker is started on it if it has none, and a start that fails takes
        the slot away. */
    method StartOne(b: nat, starting: nat -> bool, ghost places: multiset<nat>)
      requires Valid() && Steady() && !stopped && !interruptible && Accounted(rack, slots, unavailable, places)
      requires b in slots
      modifies `rack, `stopped, `signals, `slots, `unavailable, `trace, `mishaps
      ensures Valid() && Steady() && !stopped && Returned() && SameMarks(old(rack), rack) && mishaps == old(mishaps)
      ensures Accounted(rack, slots, unavailable, places)
      ensures |rack.backends| == |old(rack).backends| && Grew(old(rack), rack)
      ensures b in old(rack).slots && b in rack.slots && (b in slots ==> rack.slots[b].worker.Some?)
      ensures b in slots <==> Starting(old(rack), b, starting)
      ensures old(rack).slots[b].worker.Some? ==> rack == old(rack)
      ensures forall s | s != b :: s in slots <==> s in old(slots)
      ensures forall s | s in old(slots) && s != b :: s in rack.slots && rack.slots[s] == old(rack).slots[s]
      ensures trace == old(trace) + if old(rack).slots[b].worker.Some? then []
                                    else if starting(old(rack).slots[b].at) then [Launched(b)] else [Unstarted(b)]
    {
      hide Sound, DistinctDevices, Worked, Passed, Roster, Drawing, Grew, Beside, Accounted, NoneHeld, DrawsOn, Down,
        Shut, Unmoved, Removed;
      SlotsAreThere(rack, slots, screens);
      NothingMoved(rack);
      if rack.slots[b].worker.None? {
        var ok := StartWorker(b, starting(rack.slots[b].at));
        NoneHeldStays(old(rack), rack);
        OthersStay(old(rack), rack, b);
        if ok {
          StartedHasOne(rack, |old(rack).workers|, b, old(rack).slots[b].lease);
          AccountStays(old(rack), rack, slots, unavailable, places);
        } else {
          RemovedMembers(old(slots), b);
          StartKeepsAccount(old(rack), rack, old(slots), b, old(unavailable), places);
        }
      }
    }

    /** Start a worker on every panel that has none. A start that fails loses its slot and is
        recorded, and the others are started all the same. */
    method StartAdded(starting: nat -> bool, ghost places: multiset<nat>)
      requires Valid() && Steady() && !stopped && !interruptible && Accounted(rack, slots, unavailable, places)
      modifies `rack, `stopped, `signals, `slots, `unavailable, `trace, `mishaps
      ensures Valid() && Steady() && !stopped && Returned() && SameMarks(old(rack), rack) && mishaps == old(mishaps)
      ensures Accounted(rack, slots, unavailable, places)
      ensures |rack.backends| == |old(rack).backends| && Grew(old(rack), rack)
      ensures forall b | b in slots :: b in rack.slots && rack.slots[b].worker.Some?
      ensures forall b :: b in slots <==> b in old(slots) && Starting(old(rack), b, starting)
      ensures forall b | b in old(slots) && old(rack).slots[b].worker.Some? ::
                b in slots && b in rack.slots && rack.slots[b] == old(rack).slots[b]
      ensures old(trace) <= trace && forall i | |old(trace)| <= i < |trace| :: trace[i].Launched? || trace[i].Unstarted?
    {
      hide Sound, DistinctDevices, Worked, Passed, Roster, Drawing, Grew, Beside, Accounted, NoneHeld, Down, Unmoved;
      SlotsAreThere(rack, slots, screens);
      NothingMoved(rack);
      var listed := slots;
      for i := 0 to |listed|
        invariant Valid() && Steady() && !stopped && Returned() && SameMarks(old(rack), rack) && mishaps == old(mishaps)
        invariant Accounted(rack, slots, unavailable, places)
        invariant |rack.backends| == |old(rack).backends| && Grew(old(rack), rack)
        invariant forall b | b in slots :: b in listed && b in rack.slots
        invariant forall k | i <= k < |listed| ::
          listed[k] in slots && rack.slots[listed[k]] == old(rack).slots[listed[k]]
        invariant forall k | 0 <= k < i :: listed[k] in slots <==> Starting(old(rack), listed[k], starting)
        invariant forall k | 0 <= k < i && listed[k] in slots :: rack.slots[listed[k]].worker.Some?
        invariant forall k | 0 <= k < i && old(rack).slots[listed[k]].worker.Some? ::
          listed[k] in slots && rack.slots[listed[k]] == old(rack).slots[listed[k]]
        invariant old(trace) <= trace && forall j | |old(trace)| <= j < |trace| ::
          trace[j].Launched? || trace[j].Unstarted?
      {
        ghost var before := rack;
        StartOne(listed[i], starting, places);
        GrewOn(old(rack), before, rack);
      }
    }

    /** `_slots.sort`, by which pushed screen each slot stands for. */
    method Arrange(ghost places: multiset<nat>)
      requires Valid() && Steady() && Accounted(rack, slots, unavailable, places)
      modifies `slots
      ensures Valid() && Steady() && Accounted(rack, slots, unavailable, places)
      ensures multiset(slots) == multiset(old(slots)) && forall s :: s in slots <==> s in old(slots)
      ensures InOrder(rack, slots)
    {
      hide Sound, DistinctDevices, Roster, Drawing, NoneHeld, InOrder, Places, At;
      PlacesDiffer(rack, slots, screens);
      var sorted := Sort(rack, slots);
      OrderedIsDistinct(rack, sorted);
      SameMembers(slots, sorted);
      Reordered(rack, slots, sorted, screens, night);
      slots := sorted;
    }

    /** Retire what the push does not keep and take up its configuration with the list of what
        it does; nothing reads either in between. */
    method TakeUp(keep: seq<nat>, places: seq<nat>, gone: seq<nat>, pushed: seq<Screen>, pushedNight: Night)
      requires Valid() && Steady() && !stopped && !interruptible
      requires KeptAs(rack, slots, screens, night, pushed, pushedNight, keep, places) && Parted(slots, keep, gone)
      modifies `rack, `stopped, `signals, `slots, `unavailable, `screens, `night, `distinct
      ensures Valid() && !stopped && Returned() && SameMarks(old(rack), rack) && screens == pushed
              && night == pushedNight && slots == keep && unavailable == []
      ensures Drawing(rack, slots, screens, night) && NoneHeld(rack) && |keep| == |places|
              && Places(rack, keep) == places
      ensures rack.inHand == Used(gone) && rack.adrift.None? && rack.inFlight.None?
      ensures distinct == (old(distinct) && DistinctDevices(pushed))
      ensures forall b | b in keep :: SameWorker(old(rack), rack, b)
      ensures Gone(rack, slots, gone) && rack.backends == old(rack).backends
    {
      hide Sound, DistinctDevices, Worked, Passed, Roster, Drawing, Apart, Grew, Beside, KeptAs, Parted, Dismissed,
        Untouched, NoneHeld, SameWorker, Repoint, Used, Places, Gone;
      GoneAreListed(rack, slots, screens, keep, gone);
      Retire(gone);
      ghost var m := rack;
      Adopted(old(rack), m, slots, screens, night, pushed, pushedNight, keep, places, gone);
      GoneAreReady(old(rack), m, slots, screens, night, keep, places, gone);
      KeptGoOn(old(rack), m, slots, screens, night, pushed, pushedNight, keep, places, gone);
      rack := Repoint(rack, keep, places).(inHand := Used(gone));
      slots, screens, night, unavailable := keep, pushed, pushedNight, [];
      distinct := distinct && DistinctDevices(pushed);
    }

    /** The part of an apply that touches the glass: retire, take everyone off the bus, blank and
        open, give the bus back, and only then start. */
    method Reconfigure(keep: seq<nat>, places: seq<nat>, added: seq<nat>, gone: seq<nat>, pushed: seq<Screen>,
                       pushedNight: Night, wedged: nat -> bool, opening: nat -> bool, starting: nat -> bool)
      returns (ghost held: seq<nat>, ghost unguarded: set<Bus>, ghost opens: seq<Event>, ghost starts: seq<Event>)
      requires Valid() && Steady() && !stopped && !interruptible && Within(added, |pushed|)
      requires KeptAs(rack, slots, screens, night, pushed, pushedNight, keep, places) && Parted(slots, keep, gone)
      requires forall i, j | 0 <= i < j < |added| :: added[i] < added[j]
      requires forall k | 0 <= k < |added| :: added[k] !in places
      modifies `rack, `stopped, `signals, `slots, `unavailable, `screens, `night, `distinct, `trace, `mishaps
      ensures Valid() && Steady() && !stopped && Returned() && SameMarks(old(rack), rack) && mishaps == old(mishaps)
      ensures screens == pushed && night == pushedNight
      ensures distinct == (old(distinct) && DistinctDevices(pushed))
      ensures Accounted(rack, slots, unavailable, multiset(places) + multiset(added)) && InOrder(rack, slots)
      ensures forall b | b in slots :: b in rack.slots && rack.slots[b].worker.Some?
      ensures forall b | b in keep && StillRuns(old(rack), b) :: b in slots && SameWorker(old(rack), rack, b)
      ensures forall b | b in gone :: b in rack.slots && rack.slots[b].shutDown
      ensures trace == old(trace) + Marks(held, true) + opens + Marks(held, false) + starts
      ensures forall e | e in starts :: e.Launched? || e.Unstarted?
      ensures Offered(old(rack), keep, wedged, held, unguarded)
      ensures opens == Tries(added, pushed, opening, unguarded)
      ensures forall k | 0 <= k < |added| ::
                Runs(rack, slots, added[k]) <==>
                Try(added[k], pushed, opening, unguarded).Opened? && starting(added[k])
    {
      hide Sound, DistinctDevices, Worked, Passed, Roster, Drawing, Apart, Grew, Beside, Holding, AllQuiet, Accounted,
        Unmoved, KeptAs, Parted, Dismissed, Untouched, NoneHeld, Guarded, At, InOrder, StillRuns, SameWorker, Used,
        Places, Gone, Quiet, Offered, Try, Tries, Runs, Bare, Starting;
      TakeUp(keep, places, gone, pushed, pushedNight);
      ghost var taken := rack;
      held, unguarded, opens := OffTheBus(places, added, gone, wedged, opening);
      OfferedBefore(old(rack), taken, keep, wedged, held, unguarded);
      ghost var drawn, listed := rack, slots;
      starts := StartTheRest(starting, multiset(places) + multiset(added));
      KeptToTheEnd(old(rack), taken, drawn, rack, keep, listed, slots);
      StartedIfOpened(drawn, rack, listed, slots, added, starting);
      GoneStayShut(drawn, rack, gone);
    }

    /** Everything done with the kept workers held off: blank what is retired, open what is new. */
    method OffTheBus(places: seq<nat>, added: seq<nat>, gone: seq<nat>, wedged: nat -> bool, opening: nat -> bool)
      returns (held: seq<nat>, unguarded: set<Bus>, ghost opens: seq<Event>)
      requires Valid() && !stopped && !interruptible && unavailable == [] && Within(added, |screens|)
      requires Drawing(rack, slots, screens, night) && NoneHeld(rack) && Places(rack, slots) == places
      requires rack.inHand == Used(gone) && rack.adrift.None? && rack.inFlight.None? && Gone(rack, slots, gone)
      requires forall i, j | 0 <= i < j < |added| :: added[i] < added[j]
      requires forall k | 0 <= k < |added| :: added[k] !in places
      modifies `rack, `stopped, `signals, `slots, `unavailable, `trace
      ensures Valid() && Idle(rack) && NoneHeld(rack) && !stopped && Returned() && SameMarks(old(rack), rack)
      ensures Drawing(rack, slots, screens, night)
      ensures Accounted(rack, slots, unavailable, multiset(places) + multiset(added)) && old(slots) <= slots
      ensures SlotsKept(old(rack), rack, old(slots))
      ensures forall b | b in gone :: b in rack.slots && rack.slots[b].shutDown
      ensures trace == old(trace) + Marks(held, true) + opens + Marks(held, false)
      ensures Offered(old(rack), old(slots), wedged, held, unguarded)
      ensures opens == Tries(added, screens, opening, unguarded) && Bare(rack, slots, added)
      ensures forall k | 0 <= k < |added| ::
                Runs(rack, slots, added[k]) <==> Try(added[k], screens, opening, unguarded).Opened?
    {
      hide Sound, DistinctDevices, Worked, Passed, Roster, Drawing, Apart, Grew, Beside, Holding, AllQuiet, Accounted,
        Unmoved, NoneHeld, Guarded, At, Used, Places, Gone, Quiet, SlotsKept, Offered, Try, Tries, Runs, Bare;
      SlotsAreThere(rack, slots, screens);
      held, unguarded := HoldAll(wedged);
      ghost var guarded := rack;
      GuardKeepsQuiet(rack, slots, unguarded, screens, night);
      GoneStillReady(old(rack), rack, slots, gone);
      BlankRetired(gone);
      ghost var blanked := rack;
      ApartKeepsGuard(guarded, rack, Used(gone), held, unguarded);
      AccountedFor(old(rack), guarded, blanked, slots, places, gone, added);
      OpenAdded(added, opening, unguarded, held, multiset(places));
      opens := Tries(added, screens, opening, unguarded);
      ghost var bare := rack;
      UnmovedMarks(blanked, rack);
      ResumeAll(held);
      AccountOfSlots(bare, rack, slots, unavailable, multiset(places) + multiset(added));
      RunsOfSlots(bare, rack, slots, added);
      SlotsAllKept(old(rack), guarded, blanked, bare, rack, old(slots), gone);
    }

    /** Start what has no worker, then put the list in the push's order. */
    method StartTheRest(starting: nat -> bool, ghost places: multiset<nat>) returns (ghost starts: seq<Event>)
      requires Valid() && Steady() && !stopped && !interruptible && Accounted(rack, slots, unavailable, places)
      modifies `rack, `stopped, `signals, `slots, `unavailable, `trace, `mishaps
      ensures Valid() && Steady() && !stopped && Returned() && SameMarks(old(rack), rack) && mishaps == old(mishaps)
      ensures Accounted(rack, slots, unavailable, places) && InOrder(rack, slots)
      ensures forall b | b in slots :: b in rack.slots && rack.slots[b].worker.Some?
      ensures forall b :: b in slots <==> b in old(slots) && Starting(old(rack), b, starting)
      ensures forall b | b in old(slots) && old(rack).slots[b].worker.Some? ::
                b in slots && b in rack.slots && rack.slots[b] == old(rack).slots[b]
      ensures Grew(old(rack), rack)
      ensures trace == old(trace) + starts && forall e | e in starts :: e.Launched? || e.Unstarted?
    {
      hide Sound, DistinctDevices, Roster, Drawing, Grew, Accounted, NoneHeld, InOrder, Places, Starting;
      StartAdded(starting, places);
      starts := trace[|old(trace)|..];
      assert trace == old(trace) + starts;
      Arrange(places);
    }

    /** `_diff`, in the rack's own terms: the slots to keep and the pushed screen each stands for,
        the screens that have none, and the slots to retire. */
    method Plan(pushed: seq<Screen>, pushedNight: Night)
      returns (keep: seq<nat>, places: seq<nat>, added: seq<nat>, gone: seq<nat>)
      requires Valid()
      ensures KeptAs(rack, slots, screens, night, pushed, pushedNight, keep, places) && Parted(slots, keep, gone)
      ensures Within(added, |pushed|) && forall i, j | 0 <= i < j < |added| :: added[i] < added[j]
      ensures forall k | 0 <= k < |added| :: added[k] !in places
      ensures multiset(places) + multiset(added) == multiset(Indices(|pushed|))
      ensures |keep| + |gone| == |slots| && |keep| + |added| == |pushed|
      ensures Listed(rack, slots, screens)
      ensures |keep| == |multiset(Keys(Running(rack, slots, screens), night)) * multiset(Keys(pushed, pushedNight))|
    {
      hide Sound, DistinctDevices, Roster, KeptAs, Parted, Running, Keys, Pairs;
      SlotsAreThere(rack, slots, screens);
      var kept, found, retired := Diff(Running(rack, slots, screens), pushed, night, pushedNight);
      RunningLength(rack, slots, screens);
      PairsAreKept(rack, slots, screens, night, pushed, pushedNight, kept);
      KeptOrRetired(slots, kept, retired);
      PartsAddUp(kept, found, retired, |slots|, |pushed|);
      NeverAdded(kept, found);
      keep, places, added, gone := IdsOf(slots, SlotsOf(kept)), PlacesOf(kept), found, IdsOf(slots, retired);
    }

    /** `apply`: refused once a stop has begun; otherwise the rack ends up running exactly the
        pushed configuration. As many workers keep drawing, undisturbed, as any matching could
        keep; unless the push changed nothing a worker reads, every pushed screen is either
        running, with a started worker and in the push's order, or recorded as unavailable, and
        every slot not kept is down. On the way every kept worker that is not wedged is held off
        before the first open and given back once, and no worker starts before the last open. A
        screen without a kept slot is opened unless a kept worker on its bus is wedged, and it runs
        exactly if it was opened and its panel and its worker came up. */
    method Apply(pushed: seq<Screen>, pushedNight: Night, wedged: nat -> bool, opening: nat -> bool,
                 starting: nat -> bool)
      returns (result: Result, ghost keep: seq<nat>, added: seq<nat>, ghost held: seq<nat>, ghost unguarded: set<Bus>,
               ghost opens: seq<Event>, ghost starts: seq<Event>)
      requires Valid() && Steady() && interruptible
      modifies this
      ensures Valid() && Steady() && interruptible && stopped == old(stopped) && signals <= old(signals)
      ensures SameMarks(old(rack), rack) && mishaps == old(mishaps)
      ensures result.Refused? <==> stopped
      ensures result.Refused? ==>
                rack == old(rack) && slots == old(slots) && screens == old(screens) && distinct == old(distinct)
      ensures !result.Refused? ==>
                screens == pushed && night == pushedNight && distinct == (old(distinct) && DistinctDevices(pushed))
      ensures Listed(old(rack), old(slots), old(screens))
      ensures !result.Refused? ==>
                |keep| == |multiset(Keys(Running(old(rack), old(slots), old(screens)), old(night)))
                           * multiset(Keys(pushed, pushedNight))|
      ensures !result.Refused? ==> (result.Unchanged? <==> |keep| == |old(slots)| == |pushed|)
      ensures !result.Refused? ==> |added| + |keep| == |pushed| && Within(added, |pushed|) && Distinct(added)
      ensures forall b | b in keep && StillRuns(old(rack), b) :: b in slots && SameWorker(old(rack), rack, b)
      ensures result.Unchanged? ==>
                slots == old(slots) && trace == old(trace) && rack == old(rack).(slots := rack.slots)
      ensures result.Moved? ==>
                && Accounted(rack, slots, unavailable, multiset(Indices(|screens|))) && InOrder(rack, slots)
                && (forall b | b in slots :: b in rack.slots && rack.slots[b].worker.Some?)
                && (forall b | b in old(slots) && b !in keep :: b in rack.slots && rack.slots[b].shutDown)
      ensures result.Moved? ==>
                && trace == old(trace) + Marks(held, true) + opens + Marks(held, false) + starts
                && Offered(old(rack), keep, wedged, held, unguarded)
                && opens == Tries(added, pushed, opening, unguarded)
                && (forall e | e in starts :: e.Launched? || e.Unstarted?)
                && (forall k | 0 <= k < |added| ::
                      Runs(rack, slots, added[k]) <==>
                      Try(added[k], pushed, opening, unguarded).Opened? && starting(added[k]))
    {
      hide Sound, DistinctDevices, Worked, Passed, Roster, Drawing, Apart, Grew, Beside, Accounted, Unmoved, KeptAs,
        Parted, NoneHeld, At, InOrder, SameWorker, Used, Places, Quiet, Running, Keys, Pairs, Repoint, Offered, Try,
        Tries, Runs;
      held, unguarded, opens, starts, keep, added := [], {}, [], [], [], [];
      SlotsAreThere(rack, slots, screens);
      if stopped {
        result := Refused;
        return;
      }
      var ids, places, found, gone := Plan(pushed, pushedNight);
      keep, added := ids, found;
      interruptible := false;
      if added == [] && gone == [] {
        result := Unchanged;
        Unmoving(rack, slots, screens, night, pushed, pushedNight, ids, places, gone);
        rack := Repoint(rack, ids, places);
        screens, night := pushed, pushedNight;
        distinct := distinct && DistinctDevices(pushed);
      } else {
        result := Moved;
        held, unguarded, opens, starts :=
          Reconfigure(ids, places, added, gone, pushed, pushedNight, wedged, opening, starting);
        NotKeptIsGone(old(slots), ids, gone);
      }
      interruptible := true;
    }

    // -------------------------------------------------------------- one candidate panel

    /** `claimed_devices`: the devices the configuration drives, open or not, each under the first
        screen that names it. */
    method ClaimedDevices() returns (claimed: map<Device, nat>)
      ensures forall d :: d in claimed <==>
                exists i :: 0 <= i < |screens| && Claims(screens[i], d)
      ensures forall d | d in claimed ::
                exists i :: 0 <= i < |screens| && Claims(screens[i], d) && claimed[d] == screens[i].config.name
                  && forall j | 0 <= j < i :: !Claims(screens[j], d)
    {
      claimed := map[];
      for k := 0 to |screens|
        invariant forall d :: d in claimed <==> exists i :: 0 <= i < k && Claims(screens[i], d)
        invariant forall d | d in claimed ::
          exists i :: 0 <= i < k && Claims(screens[i], d) && claimed[d] == screens[i].config.name
            && forall j | 0 <= j < i :: !Claims(screens[j], d)
      {
        var display := screens[k].config.display;
        if display.kind.Gc9a01? && DeviceOf(display) !in claimed {
          claimed := claimed[DeviceOf(display) := screens[k].config.name];
          assert Claims(screens[k], DeviceOf(display));
        }
      }
    }

    /** `probe`: a device a screen claims is refused before anything is held off, and so is one on
        a bus where a listed worker is wedged; otherwise it lights exactly if the panel opens and
        takes a frame. Whatever happens, the open panels are those that were open. */
    method Probe(device: Device, wedged: nat -> bool, fits: bool, paints: bool)
      returns (answer: Probed, ghost held: seq<nat>, ghost unguarded: set<Bus>, ghost opens: seq<Event>)
      requires Valid() && Steady() && interruptible
      modifies this
      ensures Valid() && Steady() && interruptible && stopped == old(stopped) && distinct == old(distinct)
      ensures signals <= old(signals) && SameMarks(old(rack), rack) && mishaps == old(mishaps)
      ensures slots == old(slots) && screens == old(screens) && night == old(night) && unavailable == old(unavailable)
      ensures rack.slots == old(rack).slots && OpenPanels(rack) == OpenPanels(old(rack))
      ensures answer.Stopping? <==> stopped
      ensures answer.Claimed? <==> !stopped && exists i :: 0 <= i < |screens| && Claims(screens[i], device)
      ensures answer.Stopping? || answer.Claimed? ==> rack == old(rack) && trace == old(trace)
      ensures trace == old(trace) + Marks(held, true) + opens + Marks(held, false)
      ensures !answer.Stopping? && !answer.Claimed? ==>
                && Offered(old(rack), slots, wedged, held, unguarded)
                && answer == (if Bus(Gc9a01, device.bus) in unguarded then Unguarded else if !fits then Failed
                              else if paints then Lit else Dark)
                && opens == if answer.Lit? || answer.Dark? then [Opened(|old(rack).backends|)] else []
      ensures |rack.backends| == |old(rack).backends| + |opens|
    {
      hide Sound, DistinctDevices, Worked, Passed, Roster, Drawing, Grew, Beside, Holding, AllQuiet, NoneHeld, Guarded,
        Quiet, Unused, OpenPanels, Offered;
      held, unguarded, opens := [], {}, [];
      assert Marks([], true) == [] && Marks([], false) == [];
      if stopped {
        answer := Stopping;
        return;
      }
      var claimed := ClaimedDevices();
      if device in claimed {
        answer := Claimed;
        return;
      }
      interruptible := false;
      var list, loose := HoldAll(wedged);
      held, unguarded := list, loose;
      GuardKeepsQuiet(rack, slots, loose, screens, night);
      var display := Display(Gc9a01, device.bus, device.cs);
      NobodyClaims(screens, device);
      SameOpen(old(rack), rack);
      answer := Unguarded;
      if BusOf(display) !in loose {
        BusIsQuiet(rack, loose, BusOf(display));
        opens, answer := Light(display, list, fits, paints);
      }
      ghost var lit := rack;
      ResumeAll(list);
      SameOpen(lit, rack);
      interruptible := true;
    }

    /** Open the candidate, paint it, hold it, and close it whatever the paint did. */
    method Light(display: Display, held: seq<nat>, fits: bool, paints: bool)
      returns (ghost opens: seq<Event>, answer: Probed)
      requires Valid() && Idle(rack) && !stopped && !interruptible && Drawing(rack, slots, screens, night)
               && Holding(rack, held)
      requires Quiet(rack, BusOf(display))
      requires forall i | 0 <= i < |screens| :: !SameDevice(screens[i].config.display, display)
      modifies `rack, `trace
      ensures Valid() && Idle(rack) && Drawing(rack, slots, screens, night) && Holding(rack, held)
      ensures rack.slots == old(rack).slots && OpenPanels(rack) == OpenPanels(old(rack)) && SameMarks(old(rack), rack)
      ensures trace == old(trace) + opens && |rack.backends| == |old(rack).backends| + |opens|
      ensures opens == if fits then [Opened(|old(rack).backends|)] else []
      ensures answer == if !fits then Failed else if paints then Lit else Dark
    {
      hide Sound, DistinctDevices, Worked, Passed, Roster, Drawing, Grew, Beside, Holding, Quiet, Unused, OpenPanels;
      if !fits {
        return [], Failed;
      }
      UnclaimedIsUnused(rack, slots, screens, display);
      OpenSteps(rack, display, slots, screens);
      opens := [Opened(|rack.backends|)];
      trace := trace + opens;
      var b := |rack.backends|;
      rack := OpenDevice(rack, display);
      Breathe();
      answer := if paints then Lit else Dark;
      ProbedSteps(old(rack), display, rack, slots, screens, night, held);
      PaintedIsThere(old(rack), display, rack);
      rack := CloseLoose(rack, b);
    }

    // -------------------------------------------------------------- the whole run

    /** `run_forever`, with pushes and probes between the laps and a signal at any moment. By the
        time the last stop returns, every panel ever opened is asleep and closed, exactly once but
        for the one a failed start shut again; a worker's command reached no panel after that but
        the one a restart came to grief on. A run has one mishap at most, and none that a signal
        did not bring, but for a thread that runs though its start raised. Every panel was opened
        on a quiet bus; and if no configuration named a device twice, no device was ever open
        twice. Laps are run in order until a signal comes or a thread will not start, and the
        configuration is the last one pushed. */
    method RunForever(plan: seq<Doing>, opening: nat -> bool, starting: nat -> bool) returns (ghost did: nat)
      requires Valid() && Steady() && interruptible && !stopped && rack == EMPTY && slots == [] && unavailable == []
      requires mishaps == []
      modifies this
      ensures Valid() && stopped && OpenPanels(rack) == {}
      ensures forall b | 0 <= b < |rack.backends| ::
                rack.backends[b].slept == rack.backends[b].closed == 1 + if Again(b) in mishaps then 1 else 0
      ensures forall b :: b in rack.slipped <==> Caught(b) in mishaps || Astray(b) in mishaps
      ensures |mishaps| <= 1 && signals <= old(signals)
      ensures signals == old(signals) ==> forall m | m in mishaps :: m.Astray?
      ensures forall moves: seq<Move> :: ActAll(rack, moves).late <= rack.slipped
      ensures rack.late <= rack.slipped && rack.quiet && (distinct ==> rack.exclusive)
      ensures did <= |plan| && screens == Configured(plan[..did], old(screens))
      ensures did < |plan| ==>
                || signals < old(signals) || (did > 0 && Fails(plan[did - 1]))
                || exists at: nat :: opening(at) && !starting(at)
    {
      hide Sound, DistinctDevices, Worked, Passed, Roster, Drawing, Grew, Beside, NoneHeld, OpenPanels, Accounted,
        InOrder, Down, Noted;
      NothingNoted(rack);
      var ok, _, _ := Start(opening, starting);
      var next := 0;
      while ok && !stopped && next < |plan|
        invariant Valid() && Resting(rack) && NoneHeld(rack) && interruptible && (ok ==> Steady() && Settled())
        invariant Noted(rack, mishaps) && AtRisk(mishaps, stopped, ok) && (stopped ==> signals < old(signals))
        invariant signals <= old(signals) && next <= |plan|
        invariant screens == Configured(plan[..next], old(screens))
        invariant ok || (next > 0 && Fails(plan[next - 1])) || exists at: nat :: opening(at) && !starting(at)
        decreases |plan| - next
      {
        ConfiguredOnce(plan, next, old(screens));
        next := next + 1;
        ok := Lap(plan[next - 1]);
      }
      did := next;
      ghost var before := rack;
      Stop();
      RestsOn(before, rack);
      LastSlips(before, rack, slots, screens, mishaps);
      DownIs(rack, slots);
      AllDown(rack, slots, screens);
      LateSlipped(rack);
      forall moves: seq<Move> ensures ActAll(rack, moves).late <= rack.slipped {
        NeverLater(rack, moves);
      }
    }

    /** One lap. */
    method Lap(doing: Doing) returns (ok: bool)
      requires Valid() && Steady() && interruptible && !stopped && Noted(rack, mishaps) && mishaps == []
      modifies this
      ensures Valid() && Resting(rack) && NoneHeld(rack) && interruptible && (ok ==> Steady() && Settled())
      ensures Noted(rack, mishaps) && AtRisk(mishaps, stopped, ok)
      ensures signals <= old(signals) && (stopped ==> signals < old(signals))
      ensures screens == (if doing.Push? then doing.pushed else old(screens)) && (!ok ==> Fails(doing))
    {
      hide Sound, DistinctDevices, Worked, Passed, Roster, Drawing, Grew, Beside, NoneHeld, OpenPanels, Accounted,
        InOrder, Down, Noted;
      ok := true;
      ghost var before := rack;
      match doing {
        case Watch(overdue, makes, raises) =>
          ok := Tick(overdue, makes, raises);
          assert !ok ==> exists b | b in slots :: !doing.makes(b) || doing.raises(b);
        case Push(pushed, pushedNight, wedged, opening, starting) =>
          var result, _, _, _, _, _, _ := Apply(pushed, pushedNight, wedged, opening, starting);
          StillNoted(before, rack, mishaps);
        case TryPanel(device, wedged, fits, paints) =>
          var answer, _, _, _ := Probe(device, wedged, fits, paints);
          StillNoted(before, rack, mishaps);
        case Pass =>
          Gap();
          PassedGrows(before, rack, {});
          NoneHeldStays(before, rack);
          RestsOn(before, rack);
          PassedMarks(before, rack);
          StillNoted(before, rack, mishaps);
          if !stopped {
            DrawingGoesOn(before, rack, slots, screens, night);
          }
      }
    }
  }

  /** A rack no signal will ever come to, run to its end: every panel is put to sleep and closed
      exactly once, and unless a restart's thread ran though its start raised, no worker ever
      reaches one afterwards; and if every thread starts, every lap is run. */
  method RunUndisturbed(screens: seq<Screen>, night: Night, plan: seq<Doing>, opening: nat -> bool,
                        starting: nat -> bool)
    returns (s: Supervisor)
    ensures fresh(s) && s.Valid() && OpenPanels(s.rack) == {}
    ensures forall b | 0 <= b < |s.rack.backends| :: s.rack.backends[b].slept == s.rack.backends[b].closed == 1
    ensures s.mishaps == [] || exists b :: s.mishaps == [Astray(b)]
    ensures s.mishaps == [] ==> forall moves: seq<Move> :: ActAll(s.rack, moves).late == {}
    ensures (forall at: nat :: starting(at)) && (forall k | 0 <= k < |plan| :: !Fails(plan[k])) ==>
              s.screens == Configured(plan, screens)
  {
    hide Sound, Roster, Drawing, DistinctDevices, NoneHeld, Noted, OpenPanels, ActAll;
    s := new Supervisor(screens, night, 0);
    ghost var did := s.RunForever(plan, opening, starting);
    assert plan[..|plan|] == plan;
    assert s.mishaps != [] ==> s.mishaps[0] in s.mishaps && s.mishaps == [Astray(s.mishaps[0].slot)];
    assert forall b :: Again(b) !in s.mishaps;
    if s.mishaps == [] {
      assert s.rack.slipped == {};
    }
  }
}
