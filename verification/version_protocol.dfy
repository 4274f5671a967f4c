/** The configuration version protocol: server rows edited and numbered in one transaction,
    pushes assembled at any moment and delivered in any order, and one rack that applies,
    refuses, caches, loses power, boots and changes servers.

    The question is when the server may *skip* a push: it does so whenever the version a
    rack claims equals the version on its row. */
module VersionProtocol {
  import opened Wrappers
  import opened Link

  /** One daemon row of some server and everything assembled for it so far. `reading` holds
      the numbers that have been fixed and whose tables have not been read yet. */
  datatype Row = Row(tables: Config, version: nat, assembled: set<Push>, reading: set<nat>)

  /** The connection of the running process. `Pairing` is a socket on which the token has been
      spent and `Paired` has not arrived. */
  datatype Wire = Down | Pairing | Up

  datatype World = World(rows: map<nat, Row>, daemon: Option<Daemon>, wire: Wire,
                         linkFile: Settings, cache: Option<Push>)

  /** `Edit` writes a row and advances its number in one transaction, and assembles a push
      unless no daemon could run the result. `ReadTables` is the second half of a hello. */
  datatype Step =
    | Edit(row: nat, tables: Config, servable: bool)
    | ReadTables(row: nat, version: nat)
    | Hello
    | PairedArrives(forgot: bool, saved: bool)
    | Deliver(push: Push, luck: Luck)
    | SigTerm
    | LinkDrops
    | PowerCut
    | Boot(usable: bool, localZone: string)
    | Connect(newRow: nat, unlinked: bool, written: bool)
    | Join(joined: nat, unlinked: bool, written: bool)

  ghost predicate Enabled(w: World, step: Step) {
    match step
    case Edit(r, _, _) => r in w.rows
    case ReadTables(r, v) => r in w.rows && v in w.rows[r].reading
    case Hello => w.daemon.Some? && w.wire == Down && !w.daemon.value.leaving
                  && w.daemon.value.settings.row in w.rows
    case PairedArrives(_, _) => w.daemon.Some? && w.wire == Pairing
    case Deliver(p, _) => w.daemon.Some? && w.wire == Up && w.daemon.value.settings.row in w.rows
                          && p in w.rows[w.daemon.value.settings.row].assembled
    case SigTerm => w.daemon.Some?
    case LinkDrops => w.daemon.Some?
    case PowerCut => w.daemon.Some?
    case Boot(_, _) => w.daemon.None?
    case Connect(r, unlinked, written) => r in w.rows && (written ==> unlinked)
    case Join(r, unlinked, written) => w.daemon.None? && r in w.rows && (written ==> unlinked)
  }

  /** Puts a daemon back, with the files it may have rewritten. */
  function With(w: World, d: Daemon, wire: Wire): World {
    w.(daemon := Some(d), wire := wire, linkFile := d.linkFile, cache := d.cache)
  }

  /** A number fixed for a row whose tables are read later: the server's half of a hello. */
  function FixNumber(w: World, r: nat): World
    requires r in w.rows
  {
    w.(rows := w.rows[r := w.rows[r].(reading := w.rows[r].reading + {w.rows[r].version})])
  }

  /** The hello on which the server answers nothing because the numbers agree. A connect that
      spends a token is never answered that way. */
  ghost predicate Skips(w: World, step: Step) {
    && step.Hello? && Enabled(w, step)
    && var d := w.daemon.value;
       d.settings.keyed && d.configVersion == Some(w.rows[d.settings.row].version)
  }

  function Next(w: World, step: Step): World
    requires Enabled(w, step)
  {
    match step
    case Edit(r, tables, servable) =>
      var version := w.rows[r].version + 1;
      var pushes := if servable then {Push(version, tables)} else {};
      w.(rows := w.rows[r := w.rows[r].(tables := tables, version := version,
                             assembled := w.rows[r].assembled + pushes)])
    case ReadTables(r, v) =>
      w.(rows := w.rows[r := w.rows[r].(reading := w.rows[r].reading - {v},
                             assembled := w.rows[r].assembled + {Push(v, w.rows[r].tables)})])
    case Hello =>
      var d := w.daemon.value;
      if !d.settings.keyed then FixNumber(w.(wire := Pairing), d.settings.row)
      else if d.configVersion == Some(w.rows[d.settings.row].version) then w.(wire := Up)
      else FixNumber(w.(wire := Up), d.settings.row)
    case PairedArrives(forgot, saved) => With(w, HandlePaired(w.daemon.value, forgot, saved), Up)
    case Deliver(push, luck) =>
      var d := HandlePush(w.daemon.value, push, luck).0;
      With(w, d, if d.leaving then Down else Up)
    case SigTerm => w.(daemon := Some(w.daemon.value.(stopping := true)))
    case LinkDrops => w.(wire := Down)
    case PowerCut => w.(daemon := None, wire := Down)
    case Boot(usable, zone) => w.(daemon := Some(Booted(w.linkFile, w.cache, usable, zone)), wire := Down)
    case Connect(r, unlinked, written) => Files(w, Settings(r, false), unlinked, written)
    case Join(r, unlinked, written) => Files(w, Settings(r, true), unlinked, written)
  }

  /** `connect` and `join_a_server` both unlink the cache first and write the pairing second.
      A running process keeps the settings it booted with, and sees the file it writes to. */
  function Files(w: World, settings: Settings, unlinked: bool, written: bool): World {
    var link := if written then settings else w.linkFile;
    var cache := if unlinked then None else w.cache;
    w.(linkFile := link, cache := cache,
       daemon := if w.daemon.Some? then Some(w.daemon.value.(linkFile := link, cache := cache))
                 else None)
  }

  /** A push that may still be read back as a claim: no newer than its row, and the row's own
      tables if it is exactly as new. */
  predicate Current(row: Row, push: Push) {
    push.version <= row.version && (push.version == row.version ==> push.snapshot == row.tables)
  }

  ghost predicate RowOk(row: Row) {
    && (forall p | p in row.assembled :: Current(row, p))
    && (forall v | v in row.reading :: v <= row.version)
  }

  /** What holds between any two steps of a run. */
  ghost predicate Inv(w: World) {
    && (forall r | r in w.rows :: RowOk(w.rows[r]))
    && (w.linkFile.keyed && w.cache.Some? && w.linkFile.row in w.rows ==>
          Current(w.rows[w.linkFile.row], w.cache.value))
    && (w.daemon.None? ==> w.wire == Down)
    && (w.daemon.Some? ==> DaemonOk(w, w.daemon.value))
  }

  ghost predicate DaemonOk(w: World, d: Daemon) {
    && d.linkFile == w.linkFile && d.cache == w.cache
    && (w.linkFile.keyed ==> w.linkFile.row == d.settings.row)
    && (w.wire == Up ==> d.settings.keyed && !d.leaving)
    && (w.wire == Pairing ==> !d.settings.keyed && !d.leaving)
    && Honest(d)
    && (d.settings.keyed && !d.leaving && d.settings.row in w.rows ==>
          (d.configVersion.Some? && d.glass.Some? ==>
             Current(w.rows[d.settings.row], d.glass.value)))
  }

  /** The rack shows exactly what its row's tables hold now. */
  predicate ShowsTables(w: World) {
    && w.daemon.Some? && w.daemon.value.settings.row in w.rows
    && w.daemon.value.glass.Some?
    && w.daemon.value.glass.value.snapshot == w.rows[w.daemon.value.settings.row].tables
  }

  /** A keyed rack that is not on its way out and claims the row's number shows the row's
      tables: skipping a push to it loses nothing. */
  ghost predicate SkipSafe(w: World) {
    w.daemon.Some? && !w.daemon.value.leaving && w.daemon.value.settings.keyed
    && w.daemon.value.settings.row in w.rows
    && w.daemon.value.configVersion == Some(w.rows[w.daemon.value.settings.row].version)
    ==> ShowsTables(w)
  }

  /** Whether a cache left behind could ever be mistaken for this row's own. */
  predicate Harmless(w: World) {
    w.cache.None? || w.daemon.None? || w.daemon.value.settings.row !in w.rows
    || Current(w.rows[w.daemon.value.settings.row], w.cache.value)
  }

  /** A pairing that leaves no foreign cache: the unlink took, or there was nothing to unlink,
      or what is there cannot collide, or the key was not saved and the next boot has none. */
  ghost predicate Clean(w: World, step: Step) {
    step.PairedArrives? ==> step.forgot || !step.saved || Harmless(w)
  }

  ghost predicate Legal(w: World, steps: seq<Step>)
    decreases |steps|
  {
    steps == [] || (Enabled(w, steps[0]) && Legal(Next(w, steps[0]), steps[1..]))
  }

  ghost predicate AllClean(w: World, steps: seq<Step>)
    requires Legal(w, steps)
    decreases |steps|
  {
    steps == [] || (Clean(w, steps[0]) && AllClean(Next(w, steps[0]), steps[1..]))
  }

  function Run(w: World, steps: seq<Step>): World
    requires Legal(w, steps)
    decreases |steps|
  {
    if steps == [] then w else Run(Next(w, steps[0]), steps[1..])
  }

  /** Any rows with nothing assembled yet, and a rack that is off and was never pushed to. */
  ghost predicate Initial(w: World) {
    && (forall r | r in w.rows :: w.rows[r].assembled == {} && w.rows[r].reading == {})
    && w.daemon.None? && w.wire == Down && w.cache.None?
  }

  // ---------------------------------------------------------------- one step

  lemma EditKeepsCurrent(w: World, step: Step)
    requires Inv(w) && Enabled(w, step) && (step.Edit? || step.ReadTables?)
    ensures Inv(Next(w, step))
  {
  }

  lemma HelloKeeps(w: World)
    requires Inv(w) && Enabled(w, Hello)
    ensures Inv(Next(w, Hello))
  {
  }

  lemma PairingKeeps(w: World, step: Step)
    requires Inv(w) && Enabled(w, step) && step.PairedArrives? && Clean(w, step)
    ensures Inv(Next(w, step))
  {
  }

  lemma DeliveryKeeps(w: World, step: Step)
    requires Inv(w) && Enabled(w, step) && step.Deliver?
    ensures Inv(Next(w, step))
  {
    var d := w.daemon.value;
    assert Current(w.rows[d.settings.row], step.push);
  }

  lemma StepKeeps(w: World, step: Step)
    requires Inv(w) && Enabled(w, step) && Clean(w, step)
    ensures Inv(Next(w, step))
  {
    match step
    case Edit(_, _, _) => EditKeepsCurrent(w, step);
    case ReadTables(_, _) => EditKeepsCurrent(w, step);
    case Hello => HelloKeeps(w);
    case PairedArrives(_, _) => PairingKeeps(w, step);
    case Deliver(_, _) => DeliveryKeeps(w, step);
    case _ =>
  }

  // ---------------------------------------------------------------- whole runs

  lemma {:induction false} RunKeeps(w: World, steps: seq<Step>)
    requires Inv(w) && Legal(w, steps) && AllClean(w, steps)
    ensures Inv(Run(w, steps))
    decreases |steps|
  {
    if steps != [] {
      StepKeeps(w, steps[0]);
      RunKeeps(Next(w, steps[0]), steps[1..]);
    }
  }

  /** Numbers are fixed before the tables they will go out with are read. */
  ghost predicate MintedFirst(w: World) {
    forall r, v | r in w.rows && v in w.rows[r].reading :: v <= w.rows[r].version
  }

  lemma StepMintsFirst(w: World, step: Step)
    requires MintedFirst(w) && Enabled(w, step)
    ensures MintedFirst(Next(w, step)) && w.rows.Keys == Next(w, step).rows.Keys
  {
  }

  /** What a step assembles, it assembles from the tables as they are before it or after it, and
      under a number no newer than theirs. */
  lemma StepAssembles(w: World, step: Step, r: nat, push: Push)
    requires MintedFirst(w) && Enabled(w, step) && r in w.rows
    requires push in Next(w, step).rows[r].assembled && push !in w.rows[r].assembled
    ensures push.snapshot == Next(w, step).rows[r].tables && push.version <= Next(w, step).rows[r].version
  {
  }

  /** Mint first, read after: in any run whatever, clean or not, an assembled push shows its row's
      tables as they stood at some moment of the run, and by then the row had reached its number.
      No push is older than the number it carries. */
  lemma {:induction false} NoPushIsOlderThanItsNumber(w: World, steps: seq<Step>, r: nat, push: Push) returns (k: nat)
    requires MintedFirst(w) && Legal(w, steps) && r in w.rows && push !in w.rows[r].assembled
    requires r in Run(w, steps).rows && push in Run(w, steps).rows[r].assembled
    ensures k <= |steps| && Legal(w, steps[..k]) && r in Run(w, steps[..k]).rows
    ensures var stood := Run(w, steps[..k]).rows[r]; push.snapshot == stood.tables && push.version <= stood.version
    decreases |steps|
  {
    hide Enabled, Next;
    if steps == [] {
      assert false;
    } else {
      var after := Next(w, steps[0]);
      StepMintsFirst(w, steps[0]);
      if push in after.rows[r].assembled {
        StepAssembles(w, steps[0], r, push);
        k := 1;
        assert steps[..1][0] == steps[0] && steps[..1][1..] == [];
      } else {
        k := NoPushIsOlderThanItsNumber(after, steps[1..], r, push);
        k := k + 1;
        assert steps[..k][0] == steps[0] && steps[..k][1..] == steps[1..][..k - 1];
      }
    }
  }

  /** Over every run with clean pairings: a claim that matches the row is a rack that shows
      the row, and the hello that skips a push skips nothing the rack lacks. */
  lemma {:induction false} SkippingIsSafe(w: World, steps: seq<Step>)
    requires Initial(w) && Legal(w, steps) && AllClean(w, steps)
    ensures SkipSafe(Run(w, steps))
    ensures Skips(Run(w, steps), Hello) ==> ShowsTables(Run(w, steps))
  {
    RunKeeps(w, steps);
  }

  /** The reply a step sends, and the daemon that sends it. */
  function Said(w: World, step: Step): Reply
    requires Enabled(w, step)
  {
    if step.Deliver? then HandlePush(w.daemon.value, step.push, step.luck).1
    else if step.Hello? then Reack(w.daemon.value)
    else Silent
  }

  /** Over every run, clean or not, an ack of a version leaves with that version on the glass
      or in the file the next boot reads. */
  lemma {:induction false} EveryAckIsBacked(w: World, steps: seq<Step>, step: Step)
    requires Initial(w) && Legal(w, steps) && Enabled(Run(w, steps), step)
    ensures var at := Run(w, steps);
            Said(at, step).Ack? ==> Backed(Next(at, step).daemon.value, Said(at, step).version)
  {
    RunStaysHonest(w, steps);
    var at := Run(w, steps);
    if step.Deliver? {
      AcksAreBacked(at.daemon.value, step.push, step.luck);
    }
  }

  /** What survives even a pairing that leaves a foreign cache. */
  ghost predicate HonestWorld(w: World) {
    w.daemon.Some? ==> Honest(w.daemon.value) && (w.daemon.value.leaving ==> w.wire == Down)
  }

  lemma {:induction false} RunStaysHonest(w: World, steps: seq<Step>)
    requires HonestWorld(w) && Legal(w, steps)
    ensures HonestWorld(Run(w, steps))
    decreases |steps|
  {
    if steps != [] {
      RunStaysHonest(Next(w, steps[0]), steps[1..]);
    }
  }

  // ---------------------------------------------------------------- what a push is for

  /** An acked push that reached the cache survives the power: the next boot that can use the file
      shows it, in its own zone, and claims its number. */
  lemma AckedPushSurvivesPowerCut(w: World, push: Push, luck: Luck, zone: string)
    requires Enabled(w, Deliver(push, luck)) && w.daemon.value.configVersion != Some(push.version)
    requires luck.written && Said(w, Deliver(push, luck)) == Ack(push.version)
    ensures var steps := [Deliver(push, luck), PowerCut, Boot(true, zone)];
            && Legal(w, steps)
            && var d := Run(w, steps).daemon;
               && d.Some? && d.value.glass == Some(push) && d.value.configVersion == Some(push.version)
               && d.value.zone == push.snapshot.timezone && d.value.settings == w.daemon.value.linkFile
  {
    var deliver, cut, boot := Deliver(push, luck), PowerCut, Boot(true, zone);
    ThreeSteps(w, deliver, cut, boot);
  }

  lemma OneStep(w: World, a: Step)
    requires Enabled(w, a)
    ensures Legal(w, [a]) && Run(w, [a]) == Next(w, a)
  {
    hide Enabled, Next;
    assert [a][1..] == [];
    assert Legal(Next(w, a), []);
  }

  lemma ThreeSteps(w: World, a: Step, b: Step, c: Step)
    requires Enabled(w, a) && Enabled(Next(w, a), b) && Enabled(Next(Next(w, a), b), c)
    ensures Legal(w, [a, b, c]) && Run(w, [a, b, c]) == Next(Next(Next(w, a), b), c)
  {
    hide Enabled, Next;
    TwoSteps(w, a, b);
    OneStep(Next(Next(w, a), b), c);
    RunSplits(w, [a, b], [c]);
    assert [a, b] + [c] == [a, b, c];
  }

  lemma TwoSteps(w: World, a: Step, b: Step)
    requires Enabled(w, a) && Enabled(Next(w, a), b)
    ensures Legal(w, [a, b]) && Run(w, [a, b]) == Next(Next(w, a), b)
  {
    hide Enabled, Next;
    OneStep(w, a);
    OneStep(Next(w, a), b);
    RunSplits(w, [a], [b]);
    assert [a] + [b] == [a, b];
  }

  /** Once a SIGTERM has come, a push with a new number is met with silence: it changes neither the
      glass nor the cache nor the claim, and the link is let go. */
  lemma ASigtermStopsTheLink(w: World, push: Push, luck: Luck)
    requires Enabled(w, Deliver(push, luck)) && w.daemon.value.configVersion != Some(push.version)
    ensures var steps := [SigTerm, Deliver(push, luck)];
            && Legal(w, steps) && Said(Next(w, SigTerm), Deliver(push, luck)) == Silent
            && var z := Run(w, steps);
               && z.wire == Down && z.daemon.Some? && z.cache == w.daemon.value.cache
               && z.daemon.value == w.daemon.value.(stopping := true, leaving := true)
  {
    TwoSteps(w, SigTerm, Deliver(push, luck));
  }

  /** A dropped link costs nothing but itself, and the rack says hello again. */
  lemma ADroppedLinkComesBack(w: World)
    requires w.daemon.Some? && !w.daemon.value.leaving && w.daemon.value.settings.row in w.rows
    ensures Legal(w, [LinkDrops, Hello]) && Next(w, LinkDrops) == w.(wire := Down)
  {
    TwoSteps(w, LinkDrops, Hello);
  }

  /** An operator may connect the rack to another server under a running daemon, which goes on as
      it was but for the file: the next process starts over with the new row. */
  lemma ConnectingUnderARunningRack(w: World, r: nat, zone: string)
    requires r in w.rows && w.daemon.Some?
    ensures var steps := [Connect(r, true, true), PowerCut, Boot(true, zone)];
            && Legal(w, steps)
            && Next(w, steps[0]).daemon == Some(w.daemon.value.(linkFile := Settings(r, false), cache := None))
            && var d := Run(w, steps).daemon;
               && d.Some? && d.value.settings == Settings(r, false) && d.value.configVersion.None?
               && d.value.glass.None? && d.value.zone == zone
  {
    ThreeSteps(w, Connect(r, true, true), PowerCut, Boot(true, zone));
  }

  /** A world in which a push would be served in place and kept. */
  predicate Ready(d: Daemon, tables: Config) {
    d.settings.keyed && !d.stopping && !d.leaving && tables.timezone == d.zone
  }

  const GOOD := Luck(true, true, false, true)

  /** A hello from a rack whose claim is not its row's number is followed, once the tables are
      read, by a push that puts them on the glass and its number in the claim. */
  lemma HelloBringsTheTables(w: World)
    requires Enabled(w, Hello) && !Skips(w, Hello)
    requires Ready(w.daemon.value, w.rows[w.daemon.value.settings.row].tables)
    ensures var r := w.daemon.value.settings.row;
            var row := w.rows[r];
            var steps := [Hello, ReadTables(r, row.version), Deliver(Push(row.version, row.tables), GOOD)];
            && Legal(w, steps) && ShowsTables(Run(w, steps))
            && Run(w, steps).daemon.value.configVersion == Some(row.version)
            && Run(w, steps).cache == Some(Push(row.version, row.tables))
  {
    var r := w.daemon.value.settings.row;
    var row := w.rows[r];
    ThreeSteps(w, Hello, ReadTables(r, row.version), Deliver(Push(row.version, row.tables), GOOD));
  }

  /** A servable edit reaches the glass of a rack on its link. */
  lemma AnEditReachesTheGlass(w: World, tables: Config)
    requires w.daemon.Some? && w.wire == Up && w.daemon.value.settings.row in w.rows
    requires Ready(w.daemon.value, tables)
    requires w.daemon.value.configVersion != Some(w.rows[w.daemon.value.settings.row].version + 1)
    ensures var r := w.daemon.value.settings.row;
            var v := w.rows[r].version + 1;
            var steps := [Edit(r, tables, true), Deliver(Push(v, tables), GOOD)];
            && Legal(w, steps) && ShowsTables(Run(w, steps)) && r in Run(w, steps).rows
            && Run(w, steps).rows[r].tables == tables
            && Run(w, steps).daemon.value.configVersion == Some(v) && Run(w, steps).rows[r].version == v
  {
    var r := w.daemon.value.settings.row;
    var edit, deliver := Edit(r, tables, true), Deliver(Push(w.rows[r].version + 1, tables), GOOD);
    TwoSteps(w, edit, deliver);
  }

  /** A rack that spends its token is always pushed to: once it is paired, the tables of its row
      come up, whatever it claimed before. */
  lemma PairingBringsTheTables(w: World)
    requires Enabled(w, Hello) && !w.daemon.value.settings.keyed && !w.daemon.value.stopping
    requires w.rows[w.daemon.value.settings.row].tables.timezone == w.daemon.value.zone
    ensures var r := w.daemon.value.settings.row;
            var row := w.rows[r];
            var paired := Next(w, Hello);
            && Enabled(paired, PairedArrives(true, true))
            && var steps := [PairedArrives(true, true), ReadTables(r, row.version),
                             Deliver(Push(row.version, row.tables), GOOD)];
               && Legal(paired, steps) && ShowsTables(Run(paired, steps))
               && Run(paired, steps).daemon.value.settings == Settings(r, true)
               && Run(paired, steps).linkFile == Settings(r, true)
  {
    var r := w.daemon.value.settings.row;
    var row := w.rows[r];
    ThreeSteps(Next(w, Hello), PairedArrives(true, true), ReadTables(r, row.version),
               Deliver(Push(row.version, row.tables), GOOD));
  }

  /** After `connect` to another server, the next boot answers to its row, unpaired, and claims
      nothing; after a join it answers to it with the key. */
  lemma ReconnectingStartsOver(w: World, r: nat, joined: bool, zone: string)
    requires r in w.rows && w.daemon.None?
    ensures var change := if joined then Join(r, true, true) else Connect(r, true, true);
            && Legal(w, [change, Boot(true, zone)])
            && var d := Run(w, [change, Boot(true, zone)]).daemon;
               && d.Some? && d.value.settings == Settings(r, joined) && d.value.configVersion.None?
               && d.value.glass.None?
  {
    var change := if joined then Join(r, true, true) else Connect(r, true, true);
    TwoSteps(w, change, Boot(true, zone));
  }

  // ---------------------------------------------------------------- the exact condition

  lemma {:induction false} RunSplits(w: World, first: seq<Step>, second: seq<Step>)
    requires Legal(w, first) && Legal(Run(w, first), second)
    ensures Legal(w, first + second) && Run(w, first + second) == Run(Run(w, first), second)
    decreases |first|
  {
    if first == [] {
      assert first + second == second;
    } else {
      RunSplits(Next(w, first[0]), first[1..], second);
      assert (first + second)[1..] == first[1..] + second;
    }
  }

  /** A row can be edited up to any later number, ending with any tables. */
  lemma {:induction false} EditUpTo(w: World, r: nat, version: nat, tables: Config) returns (edits: seq<Step>)
    requires r in w.rows && w.rows[r].version < version
    ensures Legal(w, edits) && forall i | 0 <= i < |edits| :: edits[i].Edit?
    ensures var after := Run(w, edits);
            && after.rows.Keys == w.rows.Keys
            && after.rows[r].version == version && after.rows[r].tables == tables
            && after == w.(rows := after.rows)
    decreases version - w.rows[r].version
  {
    var step := Edit(r, tables, true);
    var next := Next(w, step);
    if w.rows[r].version + 1 == version {
      edits := [step];
      assert Legal(next, edits[1..]);
    } else {
      var rest := EditUpTo(next, r, version, tables);
      edits := [step] + rest;
      assert edits[1..] == rest;
    }
  }

  /** Whether every clean continuation of a world is safe. */
  ghost predicate SafeForGood(w: World) {
    forall steps: seq<Step> :: Legal(w, steps) && AllClean(w, steps) ==> SkipSafe(Run(w, steps))
  }

  lemma {:induction false} EditsAreClean(w: World, steps: seq<Step>)
    requires Legal(w, steps) && forall i | 0 <= i < |steps| :: !steps[i].PairedArrives?
    ensures AllClean(w, steps)
    decreases |steps|
  {
    if steps != [] {
      EditsAreClean(Next(w, steps[0]), steps[1..]);
    }
  }

  /** The run that goes wrong: power is lost right after the pairing, the new server's counter
      reaches the number in the old server's cache, and the rack boots from that cache. */
  lemma ForeignCacheIsBelieved(w: World) returns (steps: seq<Step>)
    requires w.daemon.Some? && w.linkFile.keyed && w.linkFile.row in w.rows && w.cache.Some?
    requires !Current(w.rows[w.linkFile.row], w.cache.value)
    ensures Legal(w, steps) && AllClean(w, steps)
    ensures Skips(Run(w, steps), Hello) && !ShowsTables(Run(w, steps)) && !SkipSafe(Run(w, steps))
  {
    var r, stale := w.linkFile.row, w.cache.value;
    var off := Next(w, PowerCut);
    var edits: seq<Step> := [];
    if off.rows[r].version < stale.version {
      var other := if stale.snapshot.screens == "" then Config("", "x") else Config("", "");
      edits := EditUpTo(off, r, stale.version, other);
    }
    var edited := Run(off, edits);
    assert edited.rows[r].version == stale.version && edited.rows[r].tables != stale.snapshot;
    var boot := [Boot(true, "")];
    assert boot[1..] == [] && Legal(Next(edited, boot[0]), boot[1..]);
    RunSplits(off, edits, boot);
    var rest := edits + boot;
    steps := [PowerCut] + rest;
    assert steps[1..] == rest;
    EditsAreClean(w, steps);
    var last := Run(w, steps);
    assert last == Next(edited, boot[0]);
  }

  /** A pairing is safe for the rest of time exactly when it is clean. */
  lemma PairingIsSafeExactlyWhenClean(w: World, forgot: bool, saved: bool)
    requires Inv(w) && Enabled(w, PairedArrives(forgot, saved))
    ensures SafeForGood(Next(w, PairedArrives(forgot, saved)))
            <==> Clean(w, PairedArrives(forgot, saved))
  {
    var step := PairedArrives(forgot, saved);
    var after := Next(w, step);
    if Clean(w, step) {
      PairingKeeps(w, step);
      forall steps: seq<Step> | Legal(after, steps) && AllClean(after, steps)
        ensures SkipSafe(Run(after, steps))
      {
        RunKeeps(after, steps);
      }
    } else {
      var steps := ForeignCacheIsBelieved(after);
      assert !SkipSafe(Run(after, steps));
    }
  }
}
