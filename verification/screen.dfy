/** The worker that draws one panel, and only when something it shows has moved. */
module Rendering {
  import opened Wrappers

  const MAX_DISPLAY_RETRIES := 3

  type Data = nat

  type Frame = nat

  datatype Name = Named(text: string)

  datatype Scene = Scene(name: Name, layout: nat)

  datatype State = Connecting | Healthy | Unhealthy

  datatype Health = Health(state: State, stale: bool)

  /** What one read of the store returns. The data is what was published under the version; the
      health of a source moves without the version moving. */
  datatype Snapshot = Snapshot(version: nat, health: map<nat, Health>)

  /** The rack's system scenes, drawn with no data. */
  datatype System = System(connecting: Scene, stale: Scene, identify: Scene)

  /** Everything a worker is built with. `draw` is the renderer, `applies` a scene's condition,
      and `published` the data under each version; no data at all is 0. */
  datatype Setup = Setup(scenes: seq<Scene>, dependsOn: set<nat>, system: System, floor: real,
                         draw: (Scene, Data) -> Frame, applies: (Scene, Data) -> bool, published: nat -> Data)

  /** No two scenes this panel can show share a name. */
  ghost predicate DistinctNames(s: Setup) {
    var all := [s.system.connecting, s.system.stale, s.system.identify] + s.scenes;
    forall i, j | 0 <= i < j < |all| :: all[i].name != all[j].name
  }

  function FirstApplying(scenes: seq<Scene>, applies: (Scene, Data) -> bool, data: Data): Option<Scene> {
    if scenes == [] then None
    else if applies(scenes[0], data) then Some(scenes[0])
    else FirstApplying(scenes[1..], applies, data)
  }

  /** `_select`: a source that never answered outranks one that has gone quiet, and either
      outranks the screen's own scenes. */
  function Select(s: Setup, snapshot: Snapshot): (Scene, Data) {
    if exists d | d in s.dependsOn :: d !in snapshot.health || snapshot.health[d].state.Connecting?
    then (s.system.connecting, 0)
    else if exists d | d in s.dependsOn :: d in snapshot.health && snapshot.health[d].stale
    then (s.system.stale, 0)
    else
      var data := s.published(snapshot.version);
      match FirstApplying(s.scenes, s.applies, data)
      case None => (s.system.stale, 0)
      case Some(scene) => (scene, data)
  }

  /** The selection is the first scene whose condition passes, and nothing only when none does. */
  lemma {:induction false} FirstThatApplies(scenes: seq<Scene>, applies: (Scene, Data) -> bool, data: Data)
    ensures forall k | 0 <= k < |scenes| && applies(scenes[k], data)
            && (forall j | 0 <= j < k :: !applies(scenes[j], data)) ::
              FirstApplying(scenes, applies, data) == Some(scenes[k])
    ensures FirstApplying(scenes, applies, data).None? <==> forall j | 0 <= j < |scenes| :: !applies(scenes[j], data)
  {
    if scenes != [] && !applies(scenes[0], data) {
      FirstThatApplies(scenes[1..], applies, data);
      forall k | 0 <= k < |scenes| && applies(scenes[k], data) && forall j | 0 <= j < k :: !applies(scenes[j], data)
        ensures FirstApplying(scenes, applies, data) == Some(scenes[k])
      {
        assert scenes[1..][k - 1] == scenes[k];
        assert forall j | 0 <= j < k - 1 :: scenes[1..][j] == scenes[j + 1];
      }
      assert forall j | 0 < j < |scenes| :: scenes[j] == scenes[1..][j - 1];
    }
  }

  predicate Unanswered(health: map<nat, Health>, source: nat) {
    source !in health || health[source].state.Connecting?
  }

  predicate Quiet(health: map<nat, Health>, source: nat) {
    source in health && health[source].stale
  }

  /** What a screen is to show, and under which scene's name: that it is connecting while any of
      its sources has never answered; else that it is stale while any has gone quiet; else its
      first scene whose condition passes; and that it is stale if none does. */
  ghost predicate Calls(s: Setup, snapshot: Snapshot, scene: Scene, data: Data) {
    var health, published := snapshot.health, s.published(snapshot.version);
    if exists d :: d in s.dependsOn && Unanswered(health, d) then scene == s.system.connecting && data == 0
    else if exists d :: d in s.dependsOn && Quiet(health, d) then scene == s.system.stale && data == 0
    else if forall j | 0 <= j < |s.scenes| :: !s.applies(s.scenes[j], published) then
      scene == s.system.stale && data == 0
    else
      && data == published
      && exists k | 0 <= k < |s.scenes| ::
           && scene == s.scenes[k] && s.applies(scene, data) && forall j | 0 <= j < k :: !s.applies(s.scenes[j], data)
  }

  lemma SelectIsCalled(s: Setup, snapshot: Snapshot, scene: Scene, data: Data)
    ensures Calls(s, snapshot, scene, data) <==> Select(s, snapshot) == (scene, data)
  {
    FirstThatApplies(s.scenes, s.applies, s.published(snapshot.version));
    FirstHasAPlace(s.scenes, s.applies, s.published(snapshot.version));
    hide FirstApplying;
  }

  lemma {:induction false} FirstHasAPlace(scenes: seq<Scene>, applies: (Scene, Data) -> bool, data: Data)
    ensures FirstApplying(scenes, applies, data).Some? ==>
              exists k | 0 <= k < |scenes| ::
                && FirstApplying(scenes, applies, data) == Some(scenes[k]) && applies(scenes[k], data)
                && forall j | 0 <= j < k :: !applies(scenes[j], data)
  {
    if scenes != [] {
      if applies(scenes[0], data) {
        assert FirstApplying(scenes, applies, data) == Some(scenes[0]);
      } else {
        var rest := scenes[1..];
        FirstHasAPlace(rest, applies, data);
        if FirstApplying(rest, applies, data).Some? {
          var k :|
            && 0 <= k < |rest| && FirstApplying(rest, applies, data) == Some(rest[k]) && applies(rest[k], data)
            && forall j | 0 <= j < k :: !applies(rest[j], data);
          assert scenes[k + 1] == rest[k];
          assert forall j | 1 <= j < k + 1 :: scenes[j] == rest[j - 1];
        }
      }
    }
  }

  /** The frame of what the screen is to show. */
  ghost predicate Deserves(s: Setup, snapshot: Snapshot, frame: Frame) {
    exists scene, data :: Calls(s, snapshot, scene, data) && frame == s.draw(scene, data)
  }

  lemma WantIsDeserved(s: Setup, snapshot: Snapshot)
    ensures forall frame :: Deserves(s, snapshot, frame) <==> frame == Want(s, snapshot)
  {
    var (scene, data) := Select(s, snapshot);
    SelectIsCalled(s, snapshot, scene, data);
    forall other, more ensures Calls(s, snapshot, other, more) <==> other == scene && more == data {
      SelectIsCalled(s, snapshot, other, more);
    }
    hide Select, Calls;
  }

  /** What a worker that redrew on every lap would have on the glass. */
  function Want(s: Setup, snapshot: Snapshot): Frame {
    var (scene, data) := Select(s, snapshot);
    s.draw(scene, data)
  }

  /** Whether a frame of this name, at this version, is this one. */
  ghost predicate Shows(s: Setup, name: Name, version: int, glass: Frame) {
    forall snapshot: Snapshot | snapshot.version == version && Select(s, snapshot).0.name == name ::
      glass == Want(s, snapshot)
  }

  lemma {:induction false} FirstIsListed(scenes: seq<Scene>, applies: (Scene, Data) -> bool, data: Data)
    ensures FirstApplying(scenes, applies, data).Some? ==> FirstApplying(scenes, applies, data).value in scenes
  {
    if scenes != [] && !applies(scenes[0], data) {
      FirstIsListed(scenes[1..], applies, data);
    }
  }

  /** With distinct names, a selection is known by its name and the version it was made at. */
  lemma SameNameSameFrame(s: Setup, a: Snapshot, b: Snapshot)
    requires DistinctNames(s) && a.version == b.version && Select(s, a).0.name == Select(s, b).0.name
    ensures Want(s, a) == Want(s, b)
  {
    SelectedIsListed(s, a);
    SelectedIsListed(s, b);
    var all := [s.system.connecting, s.system.stale, s.system.identify] + s.scenes;
    var i :| 0 <= i < |all| && all[i] == Select(s, a).0;
    var j :| 0 <= j < |all| && all[j] == Select(s, b).0;
    assert i == j;
    NoDataForSystem(s, a);
    NoDataForSystem(s, b);
  }

  lemma SelectedIsListed(s: Setup, snapshot: Snapshot)
    ensures var all := [s.system.connecting, s.system.stale, s.system.identify] + s.scenes;
            exists i :: 0 <= i < |all| && all[i] == Select(s, snapshot).0
    ensures DistinctNames(s) ==> Select(s, snapshot).0.name != s.system.identify.name
  {
    var all := [s.system.connecting, s.system.stale, s.system.identify] + s.scenes;
    FirstIsListed(s.scenes, s.applies, s.published(snapshot.version));
    var chosen := Select(s, snapshot).0;
    if chosen == s.system.connecting {
      assert all[0] == chosen;
    } else if chosen == s.system.stale {
      assert all[1] == chosen;
    } else {
      var k :| 0 <= k < |s.scenes| && s.scenes[k] == chosen;
      assert all[k + 3] == chosen && all[2] == s.system.identify;
    }
    assert all[0] == s.system.connecting && all[1] == s.system.stale && all[2] == s.system.identify;
  }

  lemma NoDataForSystem(s: Setup, snapshot: Snapshot)
    requires DistinctNames(s)
    ensures var (scene, data) := Select(s, snapshot);
            data == if scene == s.system.connecting || scene == s.system.stale then 0 else s.published(snapshot.version)
  {
    var all := [s.system.connecting, s.system.stale, s.system.identify] + s.scenes;
    var data := s.published(snapshot.version);
    FirstIsListed(s.scenes, s.applies, data);
    var first := FirstApplying(s.scenes, s.applies, data);
    if first.Some? {
      var k :| 0 <= k < |s.scenes| && s.scenes[k] == first.value;
      assert all[k + 3] == first.value && all[0] == s.system.connecting && all[1] == s.system.stale;
    }
  }

  /** How many of the last commands failed in a row. */
  function FailuresInARow(commands: seq<bool>): nat {
    if commands == [] || commands[|commands| - 1] then 0 else FailuresInARow(commands[..|commands| - 1]) + 1
  }

  /** Every command since was taken. */
  predicate Taken(before: seq<bool>, commands: seq<bool>) {
    forall k | |before| <= k < |commands| :: commands[k]
  }

  /** A worker and its panel at one moment. */
  datatype Moment = Moment(glass: Frame, asleep: bool, faulted: bool, commands: seq<bool>, frames: seq<bool>) {
    predicate Owed() {
      frames != [] && !frames[|frames| - 1]
    }
  }

  /** What can happen to a worker: a lap of its loop, or somebody asking for its number. */
  datatype Lap =
    | Turn(snapshot: Snapshot, now: real, night: bool, works: nat -> bool)
    | Number(frame: Frame, now: real, taken: bool)
  {
    predicate Day() {
      Turn? && !night
    }
  }

  /** What one lap makes of the moment before it, whatever the panel refuses. */
  ghost predicate LapDoes(s: Setup, lap: Lap, a: Moment, z: Moment) {
    && a.commands <= z.commands && a.frames <= z.frames
    && (a.faulted ==> z == a)
    && (!a.faulted && lap.Day() && Taken(a.commands, z.commands) ==>
          && !z.asleep && !z.faulted
          && (Deserves(s, lap.snapshot, z.glass) || (a.Owed() && z.commands == a.commands && z.glass == a.glass)))
    && (!a.faulted && lap.Turn? && lap.night ==> z.glass == a.glass && (Taken(a.commands, z.commands) ==> z.asleep))
  }

  class ScreenWorker {
    const setup: Setup
    var faulted: bool
    var asleep: bool
    var failures: nat
    var seenVersion: int
    var selected: Option<Name>
    var lastRender: Option<real>
    var renders: nat
    /** The panel: what its memory holds, and every command it was ever sent, by how it went. */
    var glass: Frame
    ghost var commands: seq<bool>
    /** How each frame it was sent went. */
    ghost var frames: seq<bool>

    /** The last frame was refused. */
    ghost predicate Owed()
      reads `frames
    {
      frames != [] && !frames[|frames| - 1]
    }

    ghost function Now(): Moment
      reads `glass, `asleep, `faulted, `commands, `frames
    {
      Moment(glass, asleep, faulted, commands, frames)
    }

    ghost predicate Valid()
      reads this
    {
      && failures == FailuresInARow(commands) <= MAX_DISPLAY_RETRIES && (faulted <==> failures == MAX_DISPLAY_RETRIES)
      && (DistinctNames(setup) && selected.Some? && selected.value != setup.system.identify.name && !Owed() ==>
            Shows(setup, selected.value, seenVersion, glass))
    }

    constructor (setup: Setup)
      ensures Valid() && this.setup == setup && !faulted && !asleep && commands == [] && frames == [] && selected.None?
      ensures seenVersion == -1 && renders == 0
    {
      this.setup := setup;
      faulted, asleep, failures, seenVersion, selected, lastRender, renders := false, false, 0, -1, None, None, 0;
      glass, commands, frames := 0, [], [];
    }

    /** One command to the panel. The third refusal in a row is the last command it ever gets. */
    method Command(works: bool)
      requires !faulted && failures == FailuresInARow(commands) < MAX_DISPLAY_RETRIES
      modifies `failures, `faulted, `commands
      ensures commands == old(commands) + [works]
      ensures failures == FailuresInARow(commands) <= MAX_DISPLAY_RETRIES
              && (faulted <==> failures == MAX_DISPLAY_RETRIES)
      ensures works ==> !faulted
    {
      commands := commands + [works];
      assert commands[..|commands| - 1] == old(commands);
      if works {
        failures := 0;
      } else {
        failures := failures + 1;
        faulted := failures >= MAX_DISPLAY_RETRIES;
      }
    }

    function ShouldRender(version: nat, name: Name, now: real): bool
      reads this
    {
      || version != seenVersion
      || selected != Some(name)
      || lastRender.None?
      || now - lastRender.value >= setup.floor
      || now - lastRender.value < 0.0
    }

    /** One lap. `works(k)` is whether the panel takes the k-th command of this lap. A faulted
        panel is not touched. In the window the panel goes dark; outside it, if every command of
        the lap was taken, the last frame before it was too, and no two scenes share a name, the
        glass is exactly what a worker that redrew every lap would show. A frame that is owed is
        only delivered when something else asks for a redraw. */
    method Tick(snapshot: Snapshot, now: real, night: bool, works: nat -> bool)
      requires Valid()
      modifies this
      ensures Valid() && old(commands) <= commands && |commands| <= |old(commands)| + 2 && old(frames) <= frames
      ensures forall k | |old(commands)| <= k < |commands| :: commands[k] == works(k - |old(commands)|)
      ensures old(faulted) ==> Now() == old(Now()) && renders == old(renders)
      ensures night ==> glass == old(glass) && frames == old(frames)
      ensures night && !old(faulted) ==>
                && commands == old(commands) + (if old(asleep) then [] else [works(0)])
                && asleep == (old(asleep) || works(0))
      ensures !old(faulted) && !night && old(asleep) ==>
                if works(0) then commands == old(commands) + [true, works(1)] && frames == old(frames) + [works(1)]
                  && !asleep
                else commands == old(commands) + [false] && frames == old(frames) && asleep && glass == old(glass)
      ensures DistinctNames(setup) && !old(faulted) && !night && Taken(old(commands), commands) ==>
                && !asleep && !faulted
                && (glass == Want(setup, snapshot)
                    || (old(Owed()) && commands == old(commands) && glass == old(glass)
                        && !old(ShouldRender(snapshot.version, Select(setup, snapshot).0.name, now))))
      ensures DistinctNames(setup) && !old(faulted) && !old(Owed()) && !night && Taken(old(commands), commands) ==>
                Deserves(setup, snapshot, glass)
      ensures !old(faulted) && !old(Owed()) && Taken(old(commands), commands) ==> !Owed() && !faulted
      ensures !old(faulted) && !night && Taken(old(commands), commands) ==>
                lastRender.Some? && 0.0 <= now - lastRender.value
                  && (now == lastRender.value || now - lastRender.value < setup.floor)
      ensures !old(faulted) && !night && !old(asleep) && commands == old(commands) ==>
                && snapshot.version == old(seenVersion) && old(selected).Some?
                && exists scene, data :: Calls(setup, snapshot, scene, data) && old(selected).value == scene.name
      ensures !old(faulted) && !night && !old(asleep) && commands != old(commands) ==>
                || snapshot.version != old(seenVersion) || old(lastRender).None?
                || now - old(lastRender).value >= setup.floor || now < old(lastRender).value
                || exists scene, data :: Calls(setup, snapshot, scene, data) && old(selected) != Some(scene.name)
      ensures !old(faulted) && !night && !old(asleep) ==>
                if old(ShouldRender(snapshot.version, Select(setup, snapshot).0.name, now)) then
                  && commands == old(commands) + [works(0)] && frames == old(frames) + [works(0)]
                  && seenVersion == snapshot.version && !asleep
                  && (if works(0) then
                        && glass == Want(setup, snapshot) && lastRender == Some(now)
                        && selected == Some(Select(setup, snapshot).0.name)
                      else glass == old(glass) && selected == old(selected) && lastRender == old(lastRender))
                else
                  Now() == old(Now()) && selected == old(selected) && lastRender == old(lastRender)
                  && seenVersion == old(seenVersion)
    {
      hide Select, Want, Shows, DistinctNames, FailuresInARow, Taken, Deserves, Calls;
      OneTaken(commands, works(0), works(1));
      WantIsDeserved(setup, snapshot);
      SelectIsCalled(setup, snapshot, Select(setup, snapshot).0, Select(setup, snapshot).1);
      if faulted {
        return;
      }
      if night {
        if !asleep {
          Command(works(0));
          asleep := works(0);
        }
        return;
      }
      var sent := 0;
      if asleep {
        Command(works(0));
        if !works(0) {
          return;
        }
        asleep := false;
        selected := None;
        sent := 1;
      }
      Known(setup, snapshot);
      var (scene, data) := Select(setup, snapshot);
      if !ShouldRender(snapshot.version, scene.name, now) {
        if !Owed() && DistinctNames(setup) {
          StillShown(setup, snapshot, glass);
        }
        return;
      }
      seenVersion := snapshot.version;
      Show(setup.draw(scene, data), scene.name, now, works(sent));
    }

    /** `_show`: what is on the glass and what the counters say change together, or not at all. */
    method Show(frame: Frame, name: Name, now: real, works: bool)
      requires !faulted && failures == FailuresInARow(commands) < MAX_DISPLAY_RETRIES
      requires DistinctNames(setup) && name != setup.system.identify.name ==> Shows(setup, name, seenVersion, frame)
      modifies this
      ensures Valid() && commands == old(commands) + [works] && seenVersion == old(seenVersion) && asleep == old(asleep)
      ensures frames == old(frames) + [works]
      ensures works ==> glass == frame && selected == Some(name) && renders == old(renders) + 1 && !faulted
      ensures works ==> lastRender == Some(now)
      ensures !works ==> glass == old(glass) && selected == old(selected) && renders == old(renders)
      ensures !works ==> lastRender == old(lastRender)
    {
      Command(works);
      frames := frames + [works];
      if !works {
        return;
      }
      glass := frame;
      selected := Some(name);
      lastRender := Some(now);
      renders := renders + 1;
    }

    /** The panel's number, until the next lap draws its scene again. */
    method Identify(frame: Frame, now: real, works: bool) returns (painted: bool)
      requires Valid()
      modifies this
      ensures Valid() && painted == (!old(faulted) && works)
      ensures old(faulted) ==> Now() == old(Now())
      ensures !old(faulted) ==>
                && commands == old(commands) + [works] && frames == old(frames) + [works] && asleep == old(asleep)
                && (if works then glass == frame && selected == Some(setup.system.identify.name) && !faulted
                    else glass == old(glass) && selected == old(selected))
    {
      if faulted {
        return false;
      }
      var drawn := renders;
      Show(frame, setup.system.identify.name, now, works);
      painted := renders > drawn;
    }

    /** A whole life of laps and identifies, whatever sleeps, wakes and refusals it holds. `seen`
        is every moment between two laps, the first and the last included.

        If no command of the run is refused, the glass is, after every lap outside the night, what
        an always-redrawing worker would show. If some are, a day lap whose own commands are taken
        can leave another frame there only while the last frame sent before it is one that was
        refused, and only by sending nothing. And from the moment three commands in a row have been
        refused, nothing is ever sent or changes again. */
    method Serve(laps: seq<Lap>) returns (ghost seen: seq<Moment>)
      requires Valid()
      modifies this
      ensures Valid() && |seen| == |laps| + 1 && seen[0] == old(Now()) && seen[|laps|] == Now()
      ensures DistinctNames(setup) && !old(faulted) && !old(Owed()) && Taken(old(commands), commands) ==>
                forall i | 0 <= i < |laps| && laps[i].Day() ::
                  Deserves(setup, laps[i].snapshot, seen[i + 1].glass) && !seen[i + 1].asleep
      ensures DistinctNames(setup) ==> forall i | 0 <= i < |laps| :: LapDoes(setup, laps[i], seen[i], seen[i + 1])
      ensures forall i, j | 0 <= i <= j <= |laps| && seen[i].faulted :: seen[j] == seen[i]
      ensures forall i | 0 <= i <= |laps| ::
                seen[i].faulted <==> FailuresInARow(seen[i].commands) == MAX_DISPLAY_RETRIES
    {
      hide Select, Want, Shows, DistinctNames, FailuresInARow, LapDoes, Deserves;
      seen := [Now()];
      for k := 0 to |laps|
        invariant Valid() && |seen| == k + 1 && seen[0] == old(Now()) && seen[k] == Now() && old(commands) <= commands
        invariant !old(faulted) && !old(Owed()) && Taken(old(commands), commands) ==> !faulted && !Owed()
        invariant DistinctNames(setup) && !old(faulted) && !old(Owed()) && Taken(old(commands), commands) ==>
          forall i | 0 <= i < k && laps[i].Day() ::
            Deserves(setup, laps[i].snapshot, seen[i + 1].glass) && !seen[i + 1].asleep
        invariant DistinctNames(setup) ==> forall i | 0 <= i < k :: LapDoes(setup, laps[i], seen[i], seen[i + 1])
        invariant forall i, j | 0 <= i <= j <= k && seen[i].faulted :: seen[j] == seen[i]
        invariant forall i | 0 <= i <= k :: seen[i].faulted <==> FailuresInARow(seen[i].commands) == MAX_DISPLAY_RETRIES
      {
        ghost var before := Now();
        ServeOne(laps[k]);
        TakenBefore(old(commands), before.commands, commands);
        seen := seen + [Now()];
      }
    }

    /** One lap, or one identify. */
    method ServeOne(lap: Lap)
      requires Valid()
      modifies this
      ensures Valid() && old(commands) <= commands
      ensures DistinctNames(setup) ==> LapDoes(setup, lap, old(Now()), Now())
      ensures old(faulted) ==> Now() == old(Now())
      ensures !old(faulted) && !old(Owed()) && Taken(old(commands), commands) ==> !faulted && !Owed()
      ensures DistinctNames(setup) && !old(faulted) && !old(Owed()) && lap.Day() && Taken(old(commands), commands) ==>
                Deserves(setup, lap.snapshot, glass) && !asleep
    {
      hide Select, Want, Shows, DistinctNames, FailuresInARow, Taken, Deserves;
      if lap.Turn? {
        WantIsDeserved(setup, lap.snapshot);
      }
      OneTaken(commands, if lap.Turn? then lap.works(0) else lap.taken, true);
      match lap {
        case Turn(snapshot, now, night, works) => Tick(snapshot, now, night, works);
        case Number(frame, now, taken) => var _ := Identify(frame, now, taken);
      }
    }
  }

  lemma OneTaken(before: seq<bool>, first: bool, second: bool)
    ensures Taken(before, before) && (Taken(before, before + [first]) <==> first)
    ensures Taken(before, before + [first, second]) <==> first && second
    ensures before + [first] + [second] == before + [first, second]
  {
    assert (before + [first])[|before|] == first;
    assert (before + [first, second])[|before|] == first && (before + [first, second])[|before| + 1] == second;
  }

  lemma TakenBefore(a: seq<bool>, m: seq<bool>, z: seq<bool>)
    requires a <= m <= z
    ensures Taken(a, z) <==> Taken(a, m) && Taken(m, z)
  {
    assert forall k | 0 <= k < |m| :: m[k] == z[k];
  }

  lemma Known(s: Setup, snapshot: Snapshot)
    ensures DistinctNames(s) ==> Shows(s, Select(s, snapshot).0.name, snapshot.version, Want(s, snapshot))
    ensures DistinctNames(s) ==> Select(s, snapshot).0.name != s.system.identify.name
    ensures Want(s, snapshot) == s.draw(Select(s, snapshot).0, Select(s, snapshot).1)
  {
    SelectedIsListed(s, snapshot);
    if DistinctNames(s) {
      AlreadyShown(s, snapshot);
    }
  }

  lemma AlreadyShown(s: Setup, snapshot: Snapshot)
    requires DistinctNames(s)
    ensures Shows(s, Select(s, snapshot).0.name, snapshot.version, Want(s, snapshot))
  {
    forall other: Snapshot | other.version == snapshot.version && Select(s, other).0.name == Select(s, snapshot).0.name
      ensures Want(s, snapshot) == Want(s, other)
    {
      SameNameSameFrame(s, snapshot, other);
    }
  }

  lemma StillShown(s: Setup, snapshot: Snapshot, glass: Frame)
    requires Shows(s, Select(s, snapshot).0.name, snapshot.version, glass)
    ensures glass == Want(s, snapshot)
  {
  }

  /** A panel that refuses one frame and then works again still shows the older version: the
      version was noted before the frame was refused, and nothing else asks for a redraw. */
  method ARefusedFrameIsNotRetried(setup: Setup, now: real, later: real) returns (worker: ScreenWorker)
    requires now <= later < now + setup.floor
    requires setup.dependsOn == {} && setup.floor > 0.0 && |setup.scenes| == 1
    requires forall d :: setup.applies(setup.scenes[0], d)
    requires setup.draw(setup.scenes[0], setup.published(0)) != setup.draw(setup.scenes[0], setup.published(1))
    ensures fresh(worker) && worker.Valid() && worker.setup == setup && !worker.faulted && !worker.asleep
    ensures worker.commands == [true, false] && worker.glass != Want(setup, Snapshot(1, map[]))
    ensures forall t | now <= t < now + setup.floor :: !worker.ShouldRender(1, setup.scenes[0].name, t)
  {
    assert setup.scenes[1..] == [];
    worker := new ScreenWorker(setup);
    worker.Tick(Snapshot(0, map[]), now, false, _ => true);
    worker.Tick(Snapshot(1, map[]), now, false, _ => false);
    worker.Tick(Snapshot(1, map[]), later, false, _ => true);
  }
}
