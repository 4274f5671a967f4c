/** The daemon's half of the configuration version protocol: what one rack keeps in
    memory and on disk, and what each message from the server does to it. */
module Link {
  import opened Wrappers

  /** A snapshot. The time zone is the one field the handler looks at before applying. */
  datatype Config = Config(timezone: string, screens: string)

  datatype Push = Push(version: nat, snapshot: Config)

  /** `LinkSettings`: which daemon row this rack answers to, and whether the credential it
      holds for it is the key (`keyed`) or still the one-time token. */
  datatype Settings = Settings(row: nat, keyed: bool)

  datatype Reply = Ack(version: nat) | Nack(version: nat) | Silent

  /** What calling `on_snapshot` comes to. */
  datatype Applied = Shown | Reclock | Refused

  /** What the world decides while one push is handled: whether the host resolves the pushed
      zone, whether the supervisor can serve the snapshot, whether a SIGTERM lands before the
      stop event is read again, and whether the cache write lands. */
  datatype Luck = Luck(resolves: bool, servable: bool, sigterm: bool, written: bool)

  /** One running daemon process together with the two files that outlive it.

      `glass` is the push the supervisor last adopted; None is a rack running its local file
      or no screens. `leaving` is the link thread having seen the stop event. */
  datatype Daemon = Daemon(
    settings: Settings, configVersion: Option<nat>, glass: Option<Push>, zone: string,
    stopping: bool, leaving: bool, linkFile: Settings, cache: Option<Push>)

  /** `_snapshot_handler`: a zone that differs is refused or answered with a restart, and only
      a push for the zone the rack was clocked in is applied in place. */
  function OnSnapshot(zone: string, snapshot: Config, luck: Luck): Applied {
    if snapshot.timezone != zone then (if luck.resolves then Reclock else Refused)
    else if luck.servable then Shown else Refused
  }

  /** Everything one `ConfigPush` does to a daemon, and the answer it is given. */
  function HandlePush(d: Daemon, push: Push, luck: Luck): (Daemon, Reply) {
    if d.configVersion == Some(push.version) then (Settled(d), Ack(push.version))
    else if d.stopping then (Settled(d), Silent)
    else
      match OnSnapshot(d.zone, push.snapshot, luck)
      case Refused => (Settled(d.(stopping := luck.sigterm)), Nack(push.version))
      case outcome =>
        var after := if outcome == Shown then d.(glass := Some(push), stopping := luck.sigterm)
                     else d.(stopping := true);
        if after.stopping && !luck.written then (Settled(after), Nack(push.version))
        else (Settled(after.(configVersion := Some(push.version),
                             cache := if luck.written then Some(push) else d.cache)),
              Ack(push.version))
  }

  /** `_serve` reads the stop event after every message, and leaves if it is set. */
  function Settled(d: Daemon): Daemon {
    d.(leaving := d.leaving || d.stopping)
  }

  /** What `Paired` does. `forgot` is whether the cache could be unlinked, `saved` whether the
      pairing could be written. A rack that already holds a key ignores the message. */
  function HandlePaired(d: Daemon, forgot: bool, saved: bool): Daemon {
    if d.settings.keyed then d
    else
      var settings := d.settings.(keyed := true);
      d.(settings := settings, configVersion := None,
         cache := if forgot then None else d.cache,
         linkFile := if saved then settings else d.linkFile)
  }

  /** `_reack`: the version this rack runs, unless it runs none or holds no key yet. */
  function Reack(d: Daemon): Reply {
    if d.configVersion.Some? && d.settings.keyed then Ack(d.configVersion.value) else Silent
  }

  /** An ack of `v` is backed by the panels or by the file the next boot reads. */
  ghost predicate Backed(d: Daemon, v: nat) {
    || (d.glass.Some? && d.glass.value.version == v)
    || (d.cache.Some? && d.cache.value.version == v)
  }

  /** A daemon whose link thread is still serving shows the push whose number it claims. */
  ghost predicate Honest(d: Daemon) {
    !d.leaving && d.configVersion.Some? ==>
      d.glass.Some? && d.glass.value.version == d.configVersion.value
  }

  lemma AcksAreBacked(d: Daemon, push: Push, luck: Luck)
    requires Honest(d) && !d.leaving
    ensures var (after, reply) := HandlePush(d, push, luck);
            && Honest(after)
            && (reply.Ack? ==> Backed(after, reply.version))
            && (reply.Ack? ==> after.configVersion == Some(reply.version))
            && (!reply.Ack? ==> after.configVersion == d.configVersion && after.cache == d.cache)
  {
  }

  /** The link's own state, updated message by message.

      The files are fields here, and each fallible outside action arrives as a parameter. */
  class LinkClient {
    var settings: Settings
    var configVersion: Option<nat>
    var glass: Option<Push>
    var zone: string
    var stopping: bool
    var leaving: bool
    var linkFile: Settings
    var cache: Option<Push>

    function View(): Daemon
      reads this
    {
      Daemon(settings, configVersion, glass, zone, stopping, leaving, linkFile, cache)
    }

    /** A process as `_boot` and `_link` start it, from the two files it finds. */
    constructor (linkFile: Settings, cache: Option<Push>, usable: bool, localZone: string)
      ensures View() == Booted(linkFile, cache, usable, localZone)
      ensures settings == linkFile && this.linkFile == linkFile && this.cache == cache && !stopping && !leaving
      ensures cache.Some? && usable ==>
                glass == cache && configVersion == Some(cache.value.version) && zone == cache.value.snapshot.timezone
      ensures cache.None? || !usable ==> glass.None? && configVersion.None? && zone == localZone
    {
      this.settings, this.linkFile, this.cache := linkFile, linkFile, cache;
      stopping, leaving := false, false;
      if cache.Some? && usable {
        configVersion := Some(cache.value.version);
        glass := cache;
        zone := cache.value.snapshot.timezone;
      } else {
        configVersion, glass, zone := None, None, localZone;
      }
    }

    /** Runs `on_snapshot`: the supervisor adopts the push, is stopped, or refuses. */
    method Apply(push: Push, luck: Luck) returns (outcome: Applied)
      modifies this`glass, this`stopping
      ensures outcome == OnSnapshot(zone, push.snapshot, luck)
      ensures outcome.Reclock? <==> push.snapshot.timezone != zone && luck.resolves
      ensures outcome.Shown? <==> push.snapshot.timezone == zone && luck.servable
      ensures glass == if outcome == Shown then Some(push) else old(glass)
      ensures stopping == (old(stopping) || outcome == Reclock || luck.sigterm)
    {
      if push.snapshot.timezone != zone {
        if !luck.resolves {
          stopping := stopping || luck.sigterm;
          return Refused;
        }
        stopping := true;
        return Reclock;
      }
      stopping := stopping || luck.sigterm;
      if !luck.servable {
        return Refused;
      }
      glass := Some(push);
      return Shown;
    }

    method WriteCache(push: Push, luck: Luck) returns (written: bool)
      modifies this`cache
      ensures written == luck.written
      ensures cache == if written then Some(push) else old(cache)
    {
      written := luck.written;
      if written {
        cache := Some(push);
      }
    }

    /** `_config`: always answers, and acks only what it can back. A version this rack already
        claims is acked with no work. A new one meets silence exactly when the rack was stopping;
        it goes up in place when its zone is the rack's and it can be served, or sends the rack
        into a restart when the host resolves its zone; it is acked then, unless the rack is on its
        way out and the cache, its only way to the next boot, would not take it; and whatever went
        up or sent the rack away is in the cache if the cache would take it. */
    method Config(push: Push, luck: Luck) returns (reply: Reply)
      modifies this
      ensures (View(), reply) == HandlePush(old(View()), push, luck)
      ensures settings == old(settings) && zone == old(zone) && linkFile == old(linkFile)
      ensures leaving <==> old(leaving) || stopping
      ensures old(configVersion) == Some(push.version) ==>
                && reply == Ack(push.version) && glass == old(glass) && cache == old(cache)
                && configVersion == old(configVersion) && stopping == old(stopping)
      ensures old(configVersion) != Some(push.version) && old(stopping) ==>
                && reply == Silent && glass == old(glass) && cache == old(cache)
                && configVersion == old(configVersion) && stopping
      ensures old(configVersion) != Some(push.version) && !old(stopping) ==>
                var inPlace := push.snapshot.timezone == old(zone) && luck.servable;
                var away := push.snapshot.timezone != old(zone) && luck.resolves;
                && (stopping <==> away || luck.sigterm)
                && glass == (if inPlace then Some(push) else old(glass))
                && cache == (if (inPlace || away) && luck.written then Some(push) else old(cache))
                && reply == (if (inPlace || away) && (luck.written || !stopping) then Ack(push.version)
                             else Nack(push.version))
                && configVersion == (if reply.Ack? then Some(push.version) else old(configVersion))
    {
      if configVersion == Some(push.version) {
        leaving := leaving || stopping;
        return Ack(push.version);
      }
      if stopping {
        leaving := true;
        return Silent;
      }
      var outcome := Apply(push, luck);
      if outcome == Refused {
        leaving := leaving || stopping;
        return Nack(push.version);
      }
      if stopping {
        leaving := true;
        var written := WriteCache(push, luck);
        if !written {
          return Nack(push.version);
        }
        configVersion := Some(push.version);
        return Ack(push.version);
      }
      configVersion := Some(push.version);
      var _ := WriteCache(push, luck);
      return Ack(push.version);
    }

    /** `_paired`: the key replaces the token, and the previous server's claim is forgotten. */
    method Paired(forgot: bool, saved: bool)
      modifies this
      ensures View() == HandlePaired(old(View()), forgot, saved)
      ensures old(settings).keyed ==> View() == old(View())
      ensures !old(settings).keyed ==>
                && settings == Settings(old(settings).row, true) && configVersion.None?
                && cache == (if forgot then None else old(cache))
                && linkFile == (if saved then settings else old(linkFile))
                && glass == old(glass) && zone == old(zone) && stopping == old(stopping) && leaving == old(leaving)
    {
      if settings.keyed {
        return;
      }
      settings := settings.(keyed := true);
      configVersion := None;
      if forgot {
        cache := None;
      }
      if saved {
        linkFile := settings;
      }
    }
  }

  function Booted(linkFile: Settings, cache: Option<Push>, usable: bool, localZone: string): Daemon {
    var from := if usable then cache else None;
    Daemon(linkFile,
           if from.Some? then Some(from.value.version) else None,
           from,
           if from.Some? then from.value.snapshot.timezone else localZone,
           false, false, linkFile, cache)
  }
}
