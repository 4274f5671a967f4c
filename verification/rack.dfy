/** The objects a rack's supervisor holds: opened panels, the leases workers draw through, the
    worker threads themselves, and the slots that tie them together. A slot never changes its
    backend, so the slot of backend `b` is `slots[b]`. */
module Racks {
  import opened Wrappers

  /** Only a GC9A01 has an SPI device; any other backend shares one notional bus by its name. */
  datatype Kind = Gc9a01 | Named(name: nat)

  datatype Display = Display(kind: Kind, bus: nat, cs: nat)

  datatype Bus = Bus(kind: Kind, number: nat)

  function BusOf(display: Display): Bus {
    if display.kind.Gc9a01? then Bus(Gc9a01, display.bus) else Bus(display.kind, 0)
  }

  predicate SameDevice(a: Display, b: Display) {
    a.kind.Gc9a01? && b.kind.Gc9a01? && a.bus == b.bus && a.cs == b.cs
  }

  /** Two GC9A01 panels share a bus exactly when they name the same one, whatever their chip
      selects; any two panels of one unknown kind share theirs, and no two kinds share one. */
  lemma SharesBus(a: Display, b: Display)
    ensures a.kind.Gc9a01? && b.kind.Gc9a01? ==> (BusOf(a) == BusOf(b) <==> a.bus == b.bus)
    ensures a.kind.Named? || b.kind.Named? ==> (BusOf(a) == BusOf(b) <==> a.kind == b.kind)
    ensures SameDevice(a, b) ==> BusOf(a) == BusOf(b)
    ensures SameDevice(a, b) <==> a.kind == b.kind == Gc9a01 && (a.bus, a.cs) == (b.bus, b.cs)
  {
  }

  type Night = nat

  /** `rest` stands for every other field of a screen's configuration. */
  datatype Config = Config(name: nat, id: Option<nat>, display: Display, sleepOverride: Option<Night>, rest: nat)

  /** A resolved screen: its configuration, its template's scenes, the expanded parameters and
      the integrations it waits for. */
  datatype Screen = Screen(config: Config, scenes: nat, params: nat, dependsOn: set<nat>)

  /** Everything a worker reads of its screen, taken when it is built and never read again. */
  datatype Key = Key(screen: Screen, night: Night)

  function EffectiveNight(screen: Screen, night: Night): Night {
    if screen.config.sleepOverride.Some? then screen.config.sleepOverride.value else night
  }

  function KeyOf(screen: Screen, night: Night): Key {
    Key(screen, EffectiveNight(screen, night))
  }

  /** A worker may be kept for a pushed screen exactly when the screen is the same in every field,
      and so is the rack's night window unless the screen has its own. */
  lemma SameKeys(a: Screen, b: Screen, running: Night, pushed: Night)
    ensures KeyOf(a, running) == KeyOf(b, pushed) <==>
            a == b && (a.config.sleepOverride.None? ==> running == pushed)
    ensures KeyOf(a, running).night ==
            match a.config.sleepOverride
            case Some(own) => own
            case None => running
  {
  }

  datatype Backend = Backend(display: Display, slept: nat, closed: nat)

  datatype Lease = Lease(backend: nat, live: bool)

  /** A started thread: the slot whose stop event it watches and the lease it draws through.
      `ticking` is holding its own tick lock, `held` is the supervisor holding it. */
  datatype Worker = Worker(slot: nat, lease: nat, key: Key, ticking: bool, held: bool)

  /** `at` is which of the supervisor's screens the slot points at. */
  datatype Slot = Slot(at: nat, lease: nat, worker: Option<nat>, restarts: nat, shutDown: bool, stop: bool)

  /** `late` gathers the backends a worker's command reached after they were put to sleep. The
      fields after it only keep account: slots some caller is in the middle of shutting down, a
      backend opened and not yet recorded, a running worker's lease its slot does not name yet,
      the backends shut down under such a lease, those shut down twice, and whether every open so
      far found its bus quiet and its device free. */
  datatype Rack = Rack(backends: seq<Backend>, leases: seq<Lease>, workers: seq<Worker>,
                       slots: map<nat, Slot>, storeClosed: bool, late: set<nat>,
                       inHand: set<nat>, adrift: Option<nat>, inFlight: Option<nat>,
                       slipped: set<nat>, twice: set<nat>, quiet: bool, exclusive: bool)

  const EMPTY := Rack([], [], [], map[], false, {}, {}, None, None, {}, {}, true, true)

  predicate Live(r: Rack, w: nat)
    requires w < |r.workers| && r.workers[w].lease < |r.leases|
  {
    r.leases[r.workers[w].lease].live
  }

  // ---------------------------------------------------------------- what must hold

  ghost predicate Wired(r: Rack) {
    && (forall l | 0 <= l < |r.leases| :: r.leases[l].backend < |r.backends|)
    && (forall w | 0 <= w < |r.workers| :: r.workers[w].lease < |r.leases| && r.workers[w].slot in r.slots
          && r.leases[r.workers[w].lease].backend == r.workers[w].slot)
    && (forall b | b in r.slots ::
          && b < |r.backends| && r.slots[b].lease < |r.leases| && r.leases[r.slots[b].lease].backend == b
          && (r.slots[b].worker.Some? ==>
                r.slots[b].worker.value < |r.workers| && r.workers[r.slots[b].worker.value].slot == b))
    && (r.inFlight.Some? ==> r.inFlight.value < |r.leases| && r.leases[r.inFlight.value].backend in r.slots)
    && (r.adrift.Some? ==> r.adrift.value < |r.backends| && r.adrift.value !in r.slots)
    && r.inHand <= r.slots.Keys && r.twice <= r.slots.Keys
  }

  /** A worker draws only through the lease its slot names, or through the one in flight. */
  ghost predicate Leased(r: Rack)
    requires Wired(r)
  {
    forall w | 0 <= w < |r.workers| && Live(r, w) ::
      r.workers[w].lease == r.slots[r.workers[w].slot].lease || r.inFlight == Some(r.workers[w].lease)
  }

  /** A panel that has been put to sleep is out of every worker's reach, but for the slips. */
  ghost predicate Unreached(r: Rack)
    requires Wired(r)
  {
    && (forall w | 0 <= w < |r.workers| && r.workers[w].ticking && Live(r, w)
          && r.backends[r.workers[w].slot].slept > 0 ::
          r.workers[w].slot in r.slipped)
    && (forall b | b in r.slots && r.backends[b].slept > 0 :: r.slots[b].shutDown)
    && (forall w | 0 <= w < |r.workers| && Live(r, w) && r.slots[r.workers[w].slot].shutDown ::
      r.slots[r.workers[w].slot].stop)
    && r.late <= r.slipped
  }

  function Downs(r: Rack, b: nat): nat
    requires b in r.slots
  {
    (if r.slots[b].shutDown then 1 else 0) + if b in r.twice then 1 else 0
  }

  /** Every backend ever opened is slept and closed once when its slot is claimed, and once more
      only if it is in `twice`. */
  ghost predicate Counted(r: Rack)
    requires Wired(r)
  {
    && (forall b | b in r.slots && b !in r.inHand :: r.backends[b].slept == r.backends[b].closed == Downs(r, b))
    && (forall b | 0 <= b < |r.backends| && b !in r.slots ::
          r.backends[b].slept == r.backends[b].closed == if r.adrift == Some(b) then 0 else 1)
  }

  ghost predicate Sound(r: Rack) {
    Wired(r) && Leased(r) && Unreached(r) && Counted(r)
  }

  /** No running worker can reach this bus: whoever still holds a lease on it is held off. */
  predicate Quiet(r: Rack, bus: Bus) {
    forall w | 0 <= w < |r.workers| && r.workers[w].lease < |r.leases| && Live(r, w) && r.workers[w].slot < |r.backends|
        && BusOf(r.backends[r.workers[w].slot].display) == bus ::
      r.workers[w].held
  }

  predicate Unused(r: Rack, display: Display) {
    forall b | 0 <= b < |r.backends| && r.backends[b].closed == 0 :: !SameDevice(r.backends[b].display, display)
  }

  /** The panel a running worker may draw on through a lease its slot does not name yet. */
  function Flying(r: Rack): set<nat> {
    if r.inFlight.Some? && r.inFlight.value < |r.leases| then {r.leases[r.inFlight.value].backend} else {}
  }

  // ---------------------------------------------------------------- primitive steps

  function WithSlot(r: Rack, b: nat, slot: Slot): Rack {
    r.(slots := r.slots[b := slot])
  }

  /** `display_factory`: the device is open from here. */
  function OpenDevice(r: Rack, display: Display): Rack {
    r.(backends := r.backends + [Backend(display, 0, 0)], adrift := Some(|r.backends|),
       quiet := r.quiet && Quiet(r, BusOf(display)), exclusive := r.exclusive && Unused(r, display))
  }

  /** An open is held against the rack for good, unless everybody who could draw on its bus is held
      off, and unless no panel on its SPI device is still open. */
  lemma OpensAreJudged(r: Rack, display: Display)
    requires Wired(r)
    ensures OpenDevice(r, display).quiet <==>
            && r.quiet
            && forall w | 0 <= w < |r.workers| && r.leases[r.workers[w].lease].live
                   && BusOf(r.backends[r.workers[w].slot].display) == BusOf(display) ::
                 r.workers[w].held
    ensures OpenDevice(r, display).exclusive <==>
            && r.exclusive
            && forall b | 0 <= b < |r.backends| && SameDevice(r.backends[b].display, display) ::
                 r.backends[b].closed > 0
  {
  }

  /** The slot and its first lease, for the backend in hand. */
  function Record(r: Rack, b: nat, at: nat): Rack {
    r.(leases := r.leases + [Lease(b, true)], adrift := None,
       slots := r.slots[b := Slot(at, |r.leases|, None, 0, false, false)])
  }

  function Revoke(r: Rack, l: nat): Rack
    requires l < |r.leases|
  {
    r.(leases := r.leases[l := r.leases[l].(live := false)])
  }

  function SetStop(r: Rack, b: nat): Rack
    requires b in r.slots
  {
    WithSlot(r, b, r.slots[b].(stop := true))
  }

  /** Claim a slot for shutting down: from here it is in the claimer's hand. */
  function Claim(r: Rack, b: nat): Rack
    requires b in r.slots
  {
    WithSlot(r, b, r.slots[b].(shutDown := true)).(inHand := r.inHand + {b})
  }

  function Sleep(r: Rack, b: nat): Rack
    requires b < |r.backends|
  {
    r.(backends := r.backends[b := r.backends[b].(slept := r.backends[b].slept + 1)],
       slipped := r.slipped + if b in Flying(r) then {b} else {})
  }

  function Close(r: Rack, b: nat): Rack
    requires b < |r.backends|
  {
    r.(backends := r.backends[b := r.backends[b].(closed := r.backends[b].closed + 1)])
  }

  /** A worker thread runs on a lease. In a restart the slot does not name the lease yet. */
  function Launch(r: Rack, b: nat, lease: nat, key: Key, restart: bool): Rack {
    r.(workers := r.workers + [Worker(b, lease, key, false, false)],
       inFlight := if restart then Some(lease) else r.inFlight)
  }

  // ---------------------------------------------------------------- worker threads

  /** What a worker may do at any moment: begin a tick, command its panel, end the tick, and,
      once told to leave, end its lease. */
  datatype Move = Begin(w: nat) | Command(w: nat) | End(w: nat) | Leave(w: nat)

  predicate Told(r: Rack, w: nat)
    requires w < |r.workers|
  {
    r.storeClosed || (r.workers[w].slot in r.slots && r.slots[r.workers[w].slot].stop)
  }

  function Act(r: Rack, m: Move): Rack {
    if m.w >= |r.workers| || r.workers[m.w].lease >= |r.leases| then r
    else
      var worker := r.workers[m.w];
      match m
      case Begin(w) =>
        if worker.ticking || worker.held || Told(r, w) then r
        else Ticking(r, w, true)
      case Command(w) =>
        if worker.ticking && Live(r, w) && r.workers[w].slot < |r.backends| && r.backends[r.workers[w].slot].slept > 0
        then r.(late := r.late + {r.workers[w].slot})
        else r
      case End(w) => Ticking(r, w, false)
      case Leave(w) => if worker.ticking || !Told(r, w) then r else Revoke(r, worker.lease)
  }

  /** What workers cannot change, whatever they do. */
  ghost predicate Worked(a: Rack, b: Rack) {
    && b == a.(leases := b.leases, workers := b.workers, late := b.late) && a.late <= b.late
    && |a.leases| == |b.leases| && |a.workers| == |b.workers|
    && (forall l | 0 <= l < |a.leases| ::
          b.leases[l].backend == a.leases[l].backend && (b.leases[l].live ==> a.leases[l].live))
    && (forall l | 0 <= l < |a.leases| && a.leases[l].live && !a.storeClosed && a.leases[l].backend in a.slots
          && !a.slots[a.leases[l].backend].stop :: b.leases[l].live)
    && (forall w | 0 <= w < |a.workers| :: b.workers[w] == a.workers[w].(ticking := b.workers[w].ticking))
    && (forall w | 0 <= w < |a.workers| && a.workers[w].held && !a.workers[w].ticking :: !b.workers[w].ticking)
  }

  function Ticking(r: Rack, w: nat, ticking: bool): Rack
    requires w < |r.workers|
  {
    r.(workers := r.workers[w := r.workers[w].(ticking := ticking)])
  }

  lemma TickingKeepsWired(r: Rack, w: nat, ticking: bool)
    requires Wired(r) && Leased(r) && Counted(r) && w < |r.workers|
    ensures Wired(Ticking(r, w, ticking)) && Leased(Ticking(r, w, ticking)) && Counted(Ticking(r, w, ticking))
  {
  }

  lemma TickingKeepsSound(r: Rack, w: nat, ticking: bool)
    requires Sound(r) && w < |r.workers| && (ticking ==> !Told(r, w))
    ensures Sound(Ticking(r, w, ticking))
  {
    TickingKeepsWired(r, w, ticking);
    hide Leased, Counted;
  }

  lemma CommandKeepsSound(r: Rack, w: nat)
    requires Sound(r)
    ensures Sound(Act(r, Command(w)))
  {
  }

  lemma TickingWorks(r: Rack, w: nat, ticking: bool)
    requires w < |r.workers| && !(ticking && r.workers[w].held)
    ensures Worked(r, Ticking(r, w, ticking))
  {
  }

  lemma LeavingWorks(r: Rack, w: nat)
    requires w < |r.workers| && r.workers[w].lease < |r.leases| && Told(r, w)
    requires r.leases[r.workers[w].lease].backend == r.workers[w].slot
    ensures Worked(r, Revoke(r, r.workers[w].lease))
  {
  }

  lemma ActWorks(r: Rack, m: Move)
    requires Wired(r)
    ensures Worked(r, Act(r, m))
  {
    if m.w < |r.workers| {
      match m {
        case Begin(w) => if !r.workers[w].held { TickingWorks(r, w, true); }
        case Command(w) =>
        case End(w) => TickingWorks(r, w, false);
        case Leave(w) => if Told(r, w) { LeavingWorks(r, w); }
      }
    }
    SameWorks(r, m);
    hide Worked;
  }

  lemma SameWorks(r: Rack, m: Move)
    ensures Worked(r, r)
    ensures m.Command? ==> Worked(r, Act(r, m))
  {
  }

  lemma ActKeepsSound(r: Rack, m: Move)
    requires Sound(r)
    ensures Sound(Act(r, m)) && Worked(r, Act(r, m))
  {
    ActWorks(r, m);
    if m.w < |r.workers| {
      match m {
        case Begin(w) => if !Told(r, w) { TickingKeepsSound(r, w, true); }
        case Command(w) => CommandKeepsSound(r, w);
        case End(w) => TickingKeepsSound(r, w, false);
        case Leave(w) => RevokeKeepsSound(r, r.workers[w].lease);
      }
    }
    hide Leased, Unreached, Counted, Worked;
  }

  lemma WorkedOn(a: Rack, b: Rack, c: Rack)
    requires Worked(a, b) && Worked(b, c)
    ensures Worked(a, c)
  {
  }

  // ---------------------------------------------------------------- each step keeps the rest

  lemma OpenKeepsSound(r: Rack, display: Display)
    requires Sound(r) && r.adrift.None?
    ensures Sound(OpenDevice(r, display))
  {
  }

  lemma RecordKeepsWired(r: Rack, b: nat, at: nat)
    requires Wired(r) && Leased(r) && Counted(r) && r.adrift == Some(b)
    ensures Wired(Record(r, b, at)) && Leased(Record(r, b, at)) && Counted(Record(r, b, at))
  {
  }

  lemma RecordKeepsSound(r: Rack, b: nat, at: nat)
    requires Sound(r) && r.adrift == Some(b)
    ensures Sound(Record(r, b, at))
  {
    RecordKeepsWired(r, b, at);
    assert r.backends[b].slept == 0;
    hide Leased, Counted;
  }

  lemma RevokeKeepsWired(r: Rack, l: nat)
    requires Wired(r) && Leased(r) && Counted(r) && l < |r.leases|
    ensures Wired(Revoke(r, l)) && Leased(Revoke(r, l)) && Counted(Revoke(r, l))
  {
  }

  lemma RevokeKeepsSound(r: Rack, l: nat)
    requires Sound(r) && l < |r.leases|
    ensures Sound(Revoke(r, l))
  {
    RevokeKeepsWired(r, l);
    hide Leased, Counted;
  }

  lemma SetStopKeepsWired(r: Rack, b: nat)
    requires Wired(r) && Leased(r) && Counted(r) && b in r.slots
    ensures Wired(SetStop(r, b)) && Leased(SetStop(r, b)) && Counted(SetStop(r, b))
  {
  }

  lemma SetStopKeepsSound(r: Rack, b: nat)
    requires Sound(r) && b in r.slots
    ensures Sound(SetStop(r, b))
  {
    SetStopKeepsWired(r, b);
    hide Leased, Counted;
  }

  /** A panel may be shut down once its worker has been told to leave, or has no way to it. */
  ghost predicate Released(r: Rack, b: nat)
    requires b in r.slots
  {
    r.slots[b].stop || forall w | 0 <= w < |r.workers| && r.workers[w].lease < |r.leases| && r.workers[w].slot == b ::
      !Live(r, w)
  }

  lemma ClaimKeepsWired(r: Rack, b: nat)
    requires Wired(r) && Leased(r) && b in r.slots
    ensures Wired(Claim(r, b)) && Leased(Claim(r, b))
  {
  }

  lemma ClaimKeepsUnreached(r: Rack, b: nat)
    requires Wired(r) && b in r.slots && Wired(Claim(r, b)) && Unreached(r) && Released(r, b)
    ensures Unreached(Claim(r, b))
  {
  }

  lemma ClaimKeepsSound(r: Rack, b: nat)
    requires Sound(r) && b in r.slots && Released(r, b)
    ensures Sound(Claim(r, b))
  {
    ClaimKeepsWired(r, b);
    ClaimKeepsUnreached(r, b);
    hide Leased, Unreached, Released;
  }

  /** Putting a claimed panel to sleep once its slot's lease is revoked leaves no worker able to
      reach it, unless a restarted worker already runs on a lease the slot does not name. */
  lemma SleepKeepsSound(r: Rack, b: nat)
    requires Sound(r) && b in r.slots && b in r.inHand && r.slots[b].shutDown
    requires !r.leases[r.slots[b].lease].live
    ensures Sound(Sleep(r, b))
  {
  }

  lemma CloseKeepsSound(r: Rack, b: nat)
    requires Sound(r) && b in r.slots && b in r.inHand
    ensures Sound(Close(r, b))
  {
  }

  lemma LaunchKeepsWired(r: Rack, b: nat, l: nat, key: Key, restart: bool)
    requires Wired(r) && Leased(r) && Counted(r) && l < |r.leases| && r.leases[l].backend == b && b in r.slots
    requires if restart then r.inFlight.None? else r.slots[b].lease == l
    ensures var after := Launch(r, b, l, key, restart); Wired(after) && Leased(after) && Counted(after)
  {
  }

  lemma LaunchKeepsSound(r: Rack, b: nat, l: nat, key: Key, restart: bool)
    requires Sound(r) && l < |r.leases| && r.leases[l].backend == b && b in r.slots
    requires if restart then r.inFlight.None? else r.slots[b].lease == l
    requires r.slots[b].shutDown && r.leases[l].live ==> r.slots[b].stop
    ensures Sound(Launch(r, b, l, key, restart))
  {
    LaunchKeepsWired(r, b, l, key, restart);
    hide Leased, Counted;
  }

  /** A restart's second lease on a panel that is already open. */
  function NewLease(r: Rack, b: nat): Rack {
    r.(leases := r.leases + [Lease(b, true)])
  }

  /** The slot takes up the lease in flight. */
  function Point(r: Rack, b: nat, l: nat): Rack
    requires b in r.slots
  {
    WithSlot(r, b, r.slots[b].(lease := l)).(inFlight := None)
  }

  function SetWorker(r: Rack, b: nat, w: nat): Rack
    requires b in r.slots
  {
    WithSlot(r, b, r.slots[b].(worker := Some(w)))
  }

  /** Shutting down is over: the slot leaves the claimer's hand. */
  function LetGo(r: Rack, b: nat, again: bool): Rack {
    r.(inHand := r.inHand - {b}, twice := r.twice + if again then {b} else {})
  }

  lemma NewLeaseKeepsSound(r: Rack, b: nat)
    requires Sound(r) && b in r.slots
    ensures Sound(NewLease(r, b))
  {
  }

  lemma PointKeepsSound(r: Rack, b: nat, l: nat)
    requires Sound(r) && b in r.slots && r.inFlight == Some(l) && r.leases[l].backend == b
    requires !r.leases[r.slots[b].lease].live
    ensures Sound(Point(r, b, l))
  {
    PointKeepsWired(r, b, l);
    hide Leased, Counted;
  }

  lemma PointKeepsWired(r: Rack, b: nat, l: nat)
    requires Wired(r) && Leased(r) && Counted(r) && b in r.slots && r.inFlight == Some(l) && r.leases[l].backend == b
    requires !r.leases[r.slots[b].lease].live
    ensures Wired(Point(r, b, l)) && Leased(Point(r, b, l)) && Counted(Point(r, b, l))
  {
  }

  /** A slot may change what it stands for, who draws on it and how often it was restarted. */
  lemma TweakKeepsWired(r: Rack, b: nat, slot: Slot)
    requires Wired(r) && Leased(r) && Counted(r) && b in r.slots
    requires slot == r.slots[b].(at := slot.at, worker := slot.worker, restarts := slot.restarts)
    requires slot.worker.Some? ==> slot.worker.value < |r.workers| && r.workers[slot.worker.value].slot == b
    ensures var z := WithSlot(r, b, slot); Wired(z) && Leased(z) && Counted(z)
  {
  }

  lemma TweakKeepsSound(r: Rack, b: nat, slot: Slot)
    requires Sound(r) && b in r.slots
    requires slot == r.slots[b].(at := slot.at, worker := slot.worker, restarts := slot.restarts)
    requires slot.worker.Some? ==> slot.worker.value < |r.workers| && r.workers[slot.worker.value].slot == b
    ensures Sound(WithSlot(r, b, slot))
  {
    TweakKeepsWired(r, b, slot);
    TweakKeepsUnreached(r, b, slot);
    hide Wired, Leased, Unreached, Counted;
  }

  lemma TweakKeepsUnreached(r: Rack, b: nat, slot: Slot)
    requires Wired(r) && Unreached(r) && b in r.slots && Wired(WithSlot(r, b, slot))
    requires slot == r.slots[b].(at := slot.at, worker := slot.worker, restarts := slot.restarts)
    ensures Unreached(WithSlot(r, b, slot))
  {
  }

  lemma SetWorkerKeepsSound(r: Rack, b: nat, w: nat)
    requires Sound(r) && b in r.slots && w < |r.workers| && r.workers[w].slot == b
    ensures Sound(SetWorker(r, b, w))
  {
    hide Sound;
    TweakKeepsSound(r, b, r.slots[b].(worker := Some(w)));
  }

  lemma LetGoKeepsSound(r: Rack, b: nat, again: bool)
    requires Sound(r) && b in r.slots && (again ==> b !in r.twice)
    requires r.backends[b].slept == r.backends[b].closed == Downs(r, b) + if again then 1 else 0
    ensures Sound(LetGo(r, b, again))
  {
  }

  lemma StoreKeepsSound(r: Rack)
    requires Sound(r)
    ensures Sound(r.(storeClosed := true))
  {
  }

  // ---------------------------------------------------------------- what a signal may change

  /** What a caller finds after a moment in which workers ran and `stop` may have landed: its
      own backends, and everything but stops, shutdowns and leases, as it left them. */
  ghost predicate Passed(a: Rack, b: Rack, except: set<nat>) {
    && |a.backends| == |b.backends| && |a.leases| == |b.leases| && |a.workers| == |b.workers|
    && a.slots.Keys == b.slots.Keys
    && (forall i | 0 <= i < |a.backends| ::
          && b.backends[i].display == a.backends[i].display
          && b.backends[i].slept >= a.backends[i].slept && b.backends[i].closed >= a.backends[i].closed
          && ((i in a.inHand || a.adrift == Some(i)) && i !in except ==> b.backends[i] == a.backends[i]))
    && (forall l | 0 <= l < |a.leases| ::
          b.leases[l].backend == a.leases[l].backend && (b.leases[l].live ==> a.leases[l].live))
    && (forall w | 0 <= w < |a.workers| :: b.workers[w] == a.workers[w].(ticking := b.workers[w].ticking))
    && (forall s | s in a.slots ::
          && b.slots[s] == a.slots[s].(stop := b.slots[s].stop, shutDown := b.slots[s].shutDown)
          && (a.slots[s].stop ==> b.slots[s].stop) && (a.slots[s].shutDown ==> b.slots[s].shutDown))
    && b == b.(inHand := a.inHand, adrift := a.adrift, inFlight := a.inFlight, twice := a.twice,
               quiet := a.quiet, exclusive := a.exclusive)
    && (a.storeClosed ==> b.storeClosed) && b.slipped == a.slipped + Slips(a, b) && a.late <= b.late
  }

  /** What was put to sleep meanwhile under a lease in flight. */
  function Slips(a: Rack, b: Rack): set<nat> {
    set s | s in Flying(a) && s < |a.backends| && s < |b.backends| && a.backends[s].slept < b.backends[s].slept
  }

  lemma PassedOn(a: Rack, b: Rack, c: Rack, except: set<nat>)
    requires Passed(a, b, except) && Passed(b, c, except)
    ensures Passed(a, c, except)
  {
  }

  lemma WorkedPasses(a: Rack, b: Rack)
    requires Worked(a, b)
    ensures Passed(a, b, {})
  {
  }

  // ---------------------------------------------------------------- the supervisor's list

  /** The list of slots against the objects: no slot twice, each on its own screen's display, and
      nothing open that no list reaches. */
  ghost predicate Roster(r: Rack, slots: seq<nat>, screens: seq<Screen>) {
    && (forall i, j | 0 <= i < j < |slots| :: slots[i] != slots[j])
    && (forall b | b in slots ::
          && b in r.slots && b < |r.backends| && r.slots[b].at < |screens|
          && r.backends[b].display == screens[r.slots[b].at].config.display
          && if b in r.inHand then r.slots[b].shutDown
             else b !in r.twice && (r.slots[b].shutDown ==> r.slots[b].stop))
    && (forall b, c | b in slots && c in slots && b != c :: r.slots[b].at != r.slots[c].at)
    && (forall b | b in r.slots && !r.slots[b].shutDown :: b in slots || b in r.inHand)
  }

  /** The configuration names no SPI device twice. */
  ghost predicate DistinctDevices(screens: seq<Screen>) {
    forall i, j | 0 <= i < j < |screens| :: !SameDevice(screens[i].config.display, screens[j].config.display)
  }

  /** A screen that has no slot finds its device free. */
  lemma FreshDeviceIsUnused(r: Rack, slots: seq<nat>, screens: seq<Screen>, at: nat)
    requires Sound(r) && Roster(r, slots, screens) && DistinctDevices(screens) && at < |screens|
    requires r.inHand == {} && r.adrift.None? && forall b | b in slots :: r.slots[b].at != at
    ensures Unused(r, screens[at].config.display)
  {
    forall b | 0 <= b < |r.backends| && r.backends[b].closed == 0
      ensures !SameDevice(r.backends[b].display, screens[at].config.display)
    {
      assert b in r.slots && !r.slots[b].shutDown;
    }
  }

  /** Nobody is in the middle of opening, restarting or shutting down anything. */
  predicate Idle(r: Rack) {
    r.inHand == {} && r.adrift.None? && r.inFlight.None?
  }

  /** A slot that is up: its lease is live, nobody else can draw on its panel, and the worker it
      has, if it has started one, was built with what its screen asks for now. */
  ghost predicate Drawn(r: Rack, b: nat, screens: seq<Screen>, night: Night) {
    && b in r.slots && !r.slots[b].shutDown && !r.slots[b].stop && r.slots[b].at < |screens|
    && r.slots[b].lease < |r.leases| && r.leases[r.slots[b].lease] == Lease(b, true)
    && match r.slots[b].worker
       case None => forall w | 0 <= w < |r.workers| :: r.workers[w].slot != b
       case Some(own) =>
         && own < |r.workers| && r.workers[own].slot == b && r.workers[own].lease == r.slots[b].lease
         && r.workers[own].key == KeyOf(screens[r.slots[b].at], night)
         && forall w | 0 <= w < |r.workers| && r.workers[w].slot == b && r.workers[w].lease < |r.leases|
                && Live(r, w) ::
              w == own
  }

  /** A rack that is up: every slot is, and no other worker can draw at all. */
  ghost predicate Drawing(r: Rack, slots: seq<nat>, screens: seq<Screen>, night: Night) {
    && !r.storeClosed
    && (forall b | b in slots :: Drawn(r, b, screens, night))
    && (forall w | 0 <= w < |r.workers| && r.workers[w].lease < |r.leases| && Live(r, w) :: r.workers[w].slot in slots)
  }

  /** What happens to one slot leaves every other as it was. */
  ghost predicate Beside(a: Rack, z: Rack, b: nat) {
    && a.storeClosed == z.storeClosed && a.slots.Keys == z.slots.Keys
    && |a.backends| == |z.backends| && |a.leases| <= |z.leases| && |a.workers| <= |z.workers|
    && (forall i | 0 <= i < |a.backends| ::
          z.backends[i].display == a.backends[i].display && (i != b ==> z.backends[i] == a.backends[i]))
    && (forall s | s in a.slots && s != b :: z.slots[s] == a.slots[s])
    && (forall l | 0 <= l < |a.leases| ::
          z.leases[l].backend == a.leases[l].backend && (z.leases[l].live ==> a.leases[l].live))
    && (forall l | 0 <= l < |a.leases| && a.leases[l].live && a.leases[l].backend != b && !a.storeClosed
          && a.leases[l].backend in a.slots && !a.slots[a.leases[l].backend].stop :: z.leases[l].live)
    && (forall w | 0 <= w < |a.workers| :: z.workers[w] == a.workers[w].(ticking := z.workers[w].ticking))
    && (forall w | |a.workers| <= w < |z.workers| :: z.workers[w].slot == b)
  }

  lemma BesideOn(a: Rack, m: Rack, z: Rack, b: nat)
    requires Beside(a, m, b) && Beside(m, z, b)
    ensures Beside(a, z, b)
  {
  }

  lemma WorkedBeside(a: Rack, z: Rack, b: nat)
    requires Worked(a, z)
    ensures Beside(a, z, b)
  {
  }

  lemma DrawnBeside(a: Rack, z: Rack, b: nat, s: nat, screens: seq<Screen>, night: Night)
    requires Drawn(a, s, screens, night) && Beside(a, z, b) && s != b && !a.storeClosed
    requires forall w | 0 <= w < |a.workers| :: a.workers[w].lease < |a.leases|
    ensures Drawn(z, s, screens, night)
  {
  }

  /** The rack goes on drawing when one slot changes, if that slot comes out up, or leaves the
      list with nobody able to draw on it. */
  lemma DrawingBeside(a: Rack, z: Rack, b: nat, slots: seq<nat>, now: seq<nat>, screens: seq<Screen>, night: Night)
    requires Drawing(a, slots, screens, night) && Beside(a, z, b)
    requires forall w | 0 <= w < |a.workers| :: a.workers[w].lease < |a.leases|
    requires forall s | s != b :: s in now <==> s in slots
    requires if b in now then Drawn(z, b, screens, night)
             else forall w | 0 <= w < |z.workers| && z.workers[w].slot == b && z.workers[w].lease < |z.leases| ::
               !Live(z, w)
    ensures Drawing(z, now, screens, night)
  {
    forall s | s in now ensures Drawn(z, s, screens, night) {
      if s != b {
        DrawnBeside(a, z, b, s, screens, night);
      }
    }
    hide Drawn;
    assert forall w | |a.workers| <= w < |z.workers| :: z.workers[w].slot == b;
  }

  lemma DrawingGoesOn(a: Rack, b: Rack, slots: seq<nat>, screens: seq<Screen>, night: Night)
    requires Drawing(a, slots, screens, night) && Worked(a, b)
    ensures Drawing(b, slots, screens, night)
  {
    forall s | s in slots ensures Drawn(b, s, screens, night) {
      DrawnGoesOn(a, b, s, screens, night);
    }
    hide Drawn;
  }

  lemma DrawnGoesOn(a: Rack, b: Rack, s: nat, screens: seq<Screen>, night: Night)
    requires Drawn(a, s, screens, night) && Worked(a, b) && !a.storeClosed
    ensures Drawn(b, s, screens, night)
  {
  }

  /** A slot whose panel has just been opened joins it too, with no worker yet. */
  lemma DrawingOpens(a: Rack, b: nat, at: nat, slots: seq<nat>, screens: seq<Screen>, night: Night)
    requires Drawing(a, slots, screens, night) && at < |screens| && b !in a.slots
    requires forall w | 0 <= w < |a.workers| :: a.workers[w].slot in a.slots && a.workers[w].lease < |a.leases|
    ensures Drawing(Record(a, b, at), slots + [b], screens, night)
  {
  }

  /** What `Valid` allows to grow while panels are opened and workers started: everything that
      was there is still there, and what a bus is kept quiet by. */
  ghost predicate Grew(a: Rack, b: Rack) {
    && |a.backends| <= |b.backends| && |a.leases| <= |b.leases| && |a.workers| <= |b.workers|
    && (forall i | 0 <= i < |a.backends| :: b.backends[i].display == a.backends[i].display)
    && (forall l | 0 <= l < |a.leases| ::
          b.leases[l].backend == a.leases[l].backend && (b.leases[l].live ==> a.leases[l].live))
    && (forall w | 0 <= w < |a.workers| :: b.workers[w] == a.workers[w].(ticking := b.workers[w].ticking))
    && (forall w | |a.workers| <= w < |b.workers| :: !b.workers[w].held)
    && (forall s | s in a.slots ::
          && s in b.slots && b.slots[s].at == a.slots[s].at
          && (a.slots[s].stop ==> b.slots[s].stop) && (a.slots[s].shutDown ==> b.slots[s].shutDown))
    && a.slipped <= b.slipped && a.twice <= b.twice && a.late <= b.late
  }

  lemma GrewOn(a: Rack, b: Rack, c: Rack)
    requires Grew(a, b) && Grew(b, c)
    ensures Grew(a, c)
  {
  }

  lemma PassedGrows(a: Rack, b: Rack, except: set<nat>)
    requires Passed(a, b, except)
    ensures Grew(a, b)
  {
  }

  /** Every step a slot goes through is beside the others. */
  lemma SlotIsBeside(r: Rack, b: nat, slot: Slot)
    requires b in r.slots
    ensures Beside(r, WithSlot(r, b, slot), b)
  {
  }

  lemma AccountIsBeside(r: Rack, z: Rack, b: nat)
    requires z == r.(inHand := z.inHand, inFlight := z.inFlight, twice := z.twice)
    ensures Beside(r, z, b)
  {
  }

  lemma SlotStepsAreBeside(r: Rack, b: nat)
    requires b in r.slots
    ensures Beside(r, Claim(r, b), b)
    ensures forall l :: Beside(r, Point(r, b, l), b)
    ensures forall w :: Beside(r, SetWorker(r, b, w), b)
  {
    var claimed := WithSlot(r, b, r.slots[b].(shutDown := true));
    SlotIsBeside(r, b, claimed.slots[b]);
    AccountIsBeside(claimed, Claim(r, b), b);
    BesideOn(r, claimed, Claim(r, b), b);
    hide Beside;
    forall l ensures Beside(r, Point(r, b, l), b) {
      var pointed := WithSlot(r, b, r.slots[b].(lease := l));
      SlotIsBeside(r, b, r.slots[b].(lease := l));
      AccountIsBeside(pointed, Point(r, b, l), b);
      BesideOn(r, pointed, Point(r, b, l), b);
    }
    forall w ensures Beside(r, SetWorker(r, b, w), b) {
      SlotIsBeside(r, b, r.slots[b].(worker := Some(w)));
    }
  }

  lemma PanelStepsAreBeside(r: Rack, b: nat)
    requires b < |r.backends|
    ensures Beside(r, Sleep(r, b), b) && Beside(r, Close(r, b), b) && Beside(r, r, b)
  {
  }

  lemma GrowthIsBeside(r: Rack, b: nat, l: nat, key: Key, restart: bool)
    ensures Beside(r, Launch(r, b, l, key, restart), b)
  {
  }

  lemma NewLeaseIsBeside(r: Rack, b: nat)
    ensures Beside(r, NewLease(r, b), b)
  {
  }

  lemma RevokeIsBeside(r: Rack, l: nat, b: nat)
    requires l < |r.leases| && r.leases[l].backend == b
    ensures Beside(r, Revoke(r, l), b)
  {
  }

  // ---------------------------------------------------------------- several slots at once

  /** What happens to some slots leaves every other as it was, and starts nobody. */
  ghost predicate Apart(a: Rack, z: Rack, those: set<nat>) {
    && a.storeClosed == z.storeClosed && a.slots.Keys == z.slots.Keys
    && |a.backends| == |z.backends| && |a.leases| == |z.leases| && |a.workers| == |z.workers|
    && (forall i | 0 <= i < |a.backends| ::
          z.backends[i].display == a.backends[i].display && (i !in those ==> z.backends[i] == a.backends[i]))
    && (forall s | s in a.slots && s !in those :: z.slots[s] == a.slots[s])
    && (forall s | s in a.slots ::
          && z.slots[s] == a.slots[s].(stop := z.slots[s].stop, shutDown := z.slots[s].shutDown)
          && (a.slots[s].stop ==> z.slots[s].stop) && (a.slots[s].shutDown ==> z.slots[s].shutDown))
    && (forall l | 0 <= l < |a.leases| ::
          z.leases[l].backend == a.leases[l].backend && (z.leases[l].live ==> a.leases[l].live))
    && (forall l | 0 <= l < |a.leases| && a.leases[l].live && a.leases[l].backend !in those && !a.storeClosed
          && a.leases[l].backend in a.slots && !a.slots[a.leases[l].backend].stop :: z.leases[l].live)
    && (forall w | 0 <= w < |a.workers| :: z.workers[w] == a.workers[w].(ticking := z.workers[w].ticking))
  }

  lemma ApartOn(a: Rack, m: Rack, z: Rack, those: set<nat>)
    requires Apart(a, m, those) && Apart(m, z, those)
    ensures Apart(a, z, those)
  {
  }

  lemma WorkedApart(a: Rack, z: Rack, those: set<nat>)
    requires Worked(a, z)
    ensures Apart(a, z, those) && Apart(a, a, those)
  {
  }

  lemma SlotStepsAreApart(r: Rack, b: nat, those: set<nat>)
    requires b in r.slots && b in those
    ensures Apart(r, SetStop(r, b), those) && Apart(r, Claim(r, b), those)
  {
  }

  lemma RevokeIsApart(r: Rack, l: nat, those: set<nat>)
    requires l < |r.leases| && r.leases[l].backend in those
    ensures Apart(r, Revoke(r, l), those)
  {
  }

  /** A panel shut down is apart from the rest, its slot's other fields as they were. */
  lemma BesideIsApart(a: Rack, z: Rack, b: nat, those: set<nat>)
    requires Beside(a, z, b) && Passed(a, z, {b}) && b in those
    ensures Apart(a, z, those)
  {
  }

  lemma AccountIsApart(r: Rack, z: Rack, those: set<nat>)
    requires z == r.(inHand := z.inHand, twice := z.twice)
    ensures Apart(r, z, those)
  {
  }

  lemma DrawingApart(a: Rack, z: Rack, those: set<nat>, slots: seq<nat>, screens: seq<Screen>, night: Night)
    requires Drawing(a, slots, screens, night) && Apart(a, z, those)
    requires forall s | s in slots :: s !in those
    requires forall w | 0 <= w < |a.workers| :: a.workers[w].lease < |a.leases|
    ensures Drawing(z, slots, screens, night)
  {
    forall s | s in slots ensures Drawn(z, s, screens, night) {
      DrawnApart(a, z, those, s, screens, night);
    }
    hide Drawn;
  }

  lemma DrawnApart(a: Rack, z: Rack, those: set<nat>, s: nat, screens: seq<Screen>, night: Night)
    requires Drawn(a, s, screens, night) && Apart(a, z, those) && s !in those && !a.storeClosed
    requires forall w | 0 <= w < |a.workers| :: a.workers[w].lease < |a.leases|
    ensures Drawn(z, s, screens, night)
  {
  }

  lemma QuietApart(a: Rack, z: Rack, those: set<nat>, bus: Bus)
    requires Apart(a, z, those) && Quiet(a, bus)
    ensures Quiet(z, bus)
  {
  }

  lemma QuietGrows(a: Rack, z: Rack, bus: Bus)
    requires Grew(a, z) && |a.workers| == |z.workers| && Quiet(a, bus) && Wired(a)
    ensures Quiet(z, bus)
  {
  }

  // ---------------------------------------------------------------- the bus guard

  function Hold(r: Rack, w: nat, held: bool): Rack
    requires w < |r.workers|
  {
    r.(workers := r.workers[w := r.workers[w].(held := held)])
  }

  lemma HoldKeepsSound(r: Rack, w: nat, held: bool)
    requires Sound(r) && w < |r.workers|
    ensures Sound(Hold(r, w, held))
  {
    HoldKeepsWired(r, w, held);
    hide Leased, Counted;
  }

  lemma HoldKeepsWired(r: Rack, w: nat, held: bool)
    requires Wired(r) && Leased(r) && Counted(r) && w < |r.workers|
    ensures Wired(Hold(r, w, held)) && Leased(Hold(r, w, held)) && Counted(Hold(r, w, held))
  {
  }

  lemma HoldKeepsDrawing(r: Rack, w: nat, held: bool, slots: seq<nat>, screens: seq<Screen>, night: Night)
    requires w < |r.workers|
    ensures Drawing(r, slots, screens, night) ==> Drawing(Hold(r, w, held), slots, screens, night)
    ensures Roster(r, slots, screens) ==> Roster(Hold(r, w, held), slots, screens)
  {
  }

  /** Exactly these workers are held off, each listed once. */
  ghost predicate Holding(r: Rack, held: seq<nat>) {
    && (forall i, j | 0 <= i < j < |held| :: held[i] != held[j])
    && (forall w | 0 <= w < |r.workers| :: r.workers[w].held <==> w in held)
    && (forall w | w in held :: w < |r.workers|)
  }

  /** Every worker of the first `n` slots is held, or its bus is known to be unguarded. */
  ghost predicate Guarded(r: Rack, slots: seq<nat>, n: nat, unguarded: set<Bus>)
    requires n <= |slots|
  {
    forall i | 0 <= i < n :: slots[i] in r.slots && slots[i] < |r.backends| &&
      match r.slots[slots[i]].worker
      case None => true
      case Some(w) => (w < |r.workers| && r.workers[w].held) || BusOf(r.backends[slots[i]].display) in unguarded
  }

  /** With every kept worker offered its pause, a bus that is not unguarded is quiet. */
  lemma GuardedIsQuiet(r: Rack, slots: seq<nat>, unguarded: set<Bus>, bus: Bus, screens: seq<Screen>, night: Night)
    requires Drawing(r, slots, screens, night) && Guarded(r, slots, |slots|, unguarded) && bus !in unguarded
    ensures Quiet(r, bus)
  {
    forall w | 0 <= w < |r.workers| && r.workers[w].lease < |r.leases| && Live(r, w) && r.workers[w].slot < |r.backends|
        && BusOf(r.backends[r.workers[w].slot].display) == bus
      ensures r.workers[w].held
    {
      var b := r.workers[w].slot;
      assert Drawn(r, b, screens, night);
      var i :| 0 <= i < |slots| && slots[i] == b;
      assert r.slots[b].worker == Some(w);
    }
  }
}
