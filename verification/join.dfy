/** The rack's half of joining: file a claim, poll it, refile it, and write the key down once. */
module Joining {
  import opened Wrappers
  import opened Tables
  import opened Connections
  import opened Claims
  import opened ClaimCalls
  import opened RateLimiting
  import Pairing

  const POLL_INTERVAL_S := 5.0
  const BACKOFF_FIRST_S := 5.0
  const BACKOFF_FACTOR := 2.0
  const BACKOFF_CAP_S := 300.0
  const POLL_WINDOW_S := 60.0
  const POLL_MAX_ATTEMPTS := 60

  type Duration = d: real | d >= 0.0

  /** What becomes of one request: never carried, served with the answer lost, answered by
      whatever else is on that port, or served and heard. */
  datatype Fate = Lost | Unheard | Foreign(status: nat) | Answered

  /** One lap of the world: how many servers a browse finds, what the rack and the server would
      draw, what other connections commit meanwhile, who else polls just before this rack does,
      and how the request fares. */
  datatype Exchange = Exchange(servers: nat, secret: SecretKey, draw: nat, gap: nat -> seq<Statement>,
                               crowd: seq<Address>, serverTime: real, fate: Fate, there: Duration, back: Duration)

  datatype Body = NotJson | Ticket(claim: nat) | StillPending | Handover(blob: Blob) | Detail

  datatype Response = Silence | Response(status: nat, body: Body)

  datatype Cause = ManyServers | Undecryptable | Unwritable

  /** `StillTrying` is the loop that has not come back yet. */
  datatype Result = Paired | GaveUp(cause: Cause) | StillTrying

  /** One accepted filing: which exchange, the id it was given, where in the journal a row under
      that id stood pending, and where its write was done. */
  datatype Filing = Filing(exchange: nat, claim: nat, since: nat, wrote: nat)

  /** What starts a wait for approval: an accepted claim. */
  predicate Accepted(response: Response) {
    response.Response? && response.status == 202 && response.body.Ticket?
  }

  predicate Handed(response: Response) {
    response.Response? && response.status == 200 && response.body.Handover?
  }

  /** What ends a wait for approval: a 404, or the sealed key. */
  predicate Ends(response: Response) {
    (response.Response? && response.status == 404) || Handed(response)
  }

  /** What the rack did with one exchange, and what came back of it. */
  datatype Did = Looked | Sent(response: Response) | Polled(response: Response)

  /** Between an accepted claim and the answer that ends the wait for it. */
  predicate Polling(log: seq<Did>) {
    log != [] &&
    match log[|log| - 1]
    case Looked => false
    case Sent(response) => Accepted(response)
    case Polled(response) => !Ends(response)
  }

  /** What a rack does with each exchange in turn: while it waits it polls; otherwise it looks for
      a server, files with the one it finds, and goes no further where it finds several. The poll
      route's limiter turns none of its polls away. */
  ghost predicate Proper(script: seq<Exchange>, log: seq<Did>) {
    |log| <= |script| && forall k | 0 <= k < |log| :: InTurn(script[k], log[..k], log[k])
  }

  /** Not an answer of the limiter's. */
  predicate Unhindered(response: Response) {
    response.Response? && response.status != 429
  }

  predicate InTurn(x: Exchange, before: seq<Did>, did: Did) {
    if Polling(before) then did.Polled? && (x.fate.Answered? ==> Unhindered(did.response))
    else x.servers <= 1 && if x.servers == 0 then did.Looked? else did.Sent?
  }

  lemma ProperMore(script: seq<Exchange>, log: seq<Did>, did: Did)
    requires Proper(script, log) && |log| < |script| && InTurn(script[|log|], log, did)
    ensures Proper(script, log + [did])
  {
    forall k | 0 <= k < |log| + 1 ensures InTurn(script[k], (log + [did])[..k], (log + [did])[k]) {
      assert (log + [did])[..k] == log[..k];
      assert k == |log| ==> log[..k] == log;
    }
  }

  predicate HandedBy(did: Did) {
    did.Polled? && Handed(did.response)
  }

  predicate LastHanded(log: seq<Did>) {
    log != [] && HandedBy(log[|log| - 1])
  }

  /** How a wait came to its end: one poll after another that ended nothing, and then, unless the
      world ran out, one that did. */
  predicate EndedWith(before: seq<Did>, log: seq<Did>, sealed: Option<Blob>, ranOut: bool) {
    && before <= log && (forall k | |before| <= k < |log| :: log[k].Polled?)
    && (forall k | |before| <= k < |log| - 1 :: !Ends(log[k].response))
    && if log == before || !Ends(log[|log| - 1].response) then sealed.None? && ranOut
       else if Handed(log[|log| - 1].response) then sealed == Some(log[|log| - 1].response.body.blob)
       else sealed.None?
  }

  /** What the poll route answers for what it finds. */
  function PollReply(status: Status): Response {
    match status
    case Gone => Response(404, Detail)
    case Waiting => Response(200, StillPending)
    case Approved(blob) => Response(200, Handover(blob))
  }

  const TOO_MANY_POLLS := Response(429, Detail)

  lemma RowsAnswer(status: Status)
    ensures Unhindered(PollReply(status))
  {
  }

  function FilingReply(outcome: Outcome): Response {
    match outcome
    case Filed(claim) => Response(202, Ticket(claim))
    case Refused => Response(429, Detail)
    case Broken => Response(500, NotJson)
  }

  /** A rack's polls, each within the server's budget at the moment it lands. */
  lemma PollsFitTheBudget(polls: seq<real>)
    requires Spaced(polls, POLL_INTERVAL_S)
    ensures forall k | 0 <= k < |polls| :: |Recent(polls[..k], polls[k], POLL_WINDOW_S)| < POLL_MAX_ATTEMPTS
  {
    PollGaps(POLL_MAX_ATTEMPTS);
    forall k | 0 <= k < |polls|
      ensures |Recent(polls[..k], polls[k], POLL_WINDOW_S)| < POLL_MAX_ATTEMPTS
    {
      SpacedCallersAreNeverRefused(polls[..k], POLL_INTERVAL_S, polls[k], POLL_WINDOW_S, POLL_MAX_ATTEMPTS);
    }
  }

  /** The key of a grant identifies the daemon row that grant minted, and goes on doing so until
      a rotation, a deletion or a later approval of the same rack takes it away. */
  lemma GrantedKeyIdentifiesItsRow(start: Store, journal: seq<Statement>, at: nat, claim: nat,
                                   fingerprint: Fingerprint, blob: Blob)
    requires Sound(start) && Granted(start, journal, at, claim, fingerprint, blob)
    ensures var rowId := journal[at].rowId;
            Pairing.KeyOn(Run(start, journal), rowId, blob.key)
            <==> !Pairing.Revoked(Run(start, journal[..at + 1]), journal[at + 1..], rowId)
  {
    hide Commit, Sound, Pairing.Revokes, Pairing.KeyOn;
    Pairing.KeyLastsExactlyUntilRevoked(start, journal, at, |journal|);
    assert journal[..|journal|] == journal;
    assert journal[at + 1..|journal|] == journal[at + 1..];
  }

  lemma {:induction false} PollGaps(n: nat)
    ensures Gaps(POLL_INTERVAL_S, n) == POLL_INTERVAL_S * (n as real)
  {
    if n > 0 {
      PollGaps(n - 1);
    }
  }

  /** The next poll finds room, on a limiter that holds exactly this caller's polls. */
  lemma PollHasRoom(polls: seq<real>, now: real)
    requires Spaced(polls, POLL_INTERVAL_S) && (polls != [] ==> now - polls[|polls| - 1] >= POLL_INTERVAL_S)
    ensures |Recent(polls, now, POLL_WINDOW_S)| < POLL_MAX_ATTEMPTS
  {
    PollGaps(POLL_MAX_ATTEMPTS);
    SpacedCallersAreNeverRefused(polls, POLL_INTERVAL_S, now, POLL_WINDOW_S, POLL_MAX_ATTEMPTS);
  }

  lemma SpacedOn(polls: seq<real>, now: real)
    requires Spaced(polls, POLL_INTERVAL_S) && (polls != [] ==> now - polls[|polls| - 1] >= POLL_INTERVAL_S)
    ensures Spaced(polls + [now], POLL_INTERVAL_S)
  {
  }

  lemma OneMoreLap(start: seq<Did>, before: seq<Did>, log: seq<Did>)
    requires start <= before <= log && !LastHanded(before)
    requires forall k | |start| <= k < |before| - 1 :: !HandedBy(before[k])
    requires forall k | |before| <= k < |log| - 1 :: !HandedBy(log[k])
    ensures forall k | |start| <= k < |log| - 1 :: !HandedBy(log[k])
  {
    hide HandedBy;
    forall k | |start| <= k < |log| - 1 ensures !HandedBy(log[k]) {
      if k < |before| {
        assert log[k] == before[k];
      }
    }
  }

  lemma WaitHandsOverLast(before: seq<Did>, log: seq<Did>, sealed: Option<Blob>, ranOut: bool)
    requires EndedWith(before, log, sealed, ranOut) && before != [] && before[|before| - 1].Sent? && Polling(before)
    ensures sealed.Some? <==> LastHanded(log)
    ensures sealed.Some? ==> log[|log| - 1].response.body.blob == sealed.value
    ensures sealed.None? && !ranOut ==> !Polling(log)
    ensures forall k | |before| - 1 <= k < |log| - 1 :: !HandedBy(log[k])
  {
    assert log[|before| - 1] == before[|before| - 1];
  }

  lemma KeyedIs(s: Store, claim: nat, publicKey: PublicKey)
    requires Keyed(s, claim, publicKey) && claim in s.tables.claims
    ensures s.tables.claims[claim].publicKey == publicKey
  {
  }

  lemma OthersRecord(history: seq<Event>, other: Address, now: real, address: Address)
    requires other != address
    ensures SinceClear(history + [Attempt(other, now)], address) == SinceClear(history, address)
  {
    assert (history + [Attempt(other, now)])[..|history|] == history;
    assert SinceClear(history, address) + [] == SinceClear(history, address);
  }

  lemma OwnRecord(history: seq<Event>, address: Address, now: real)
    ensures SinceClear(history + [Attempt(address, now)], address) == SinceClear(history, address) + [now]
  {
    assert (history + [Attempt(address, now)])[..|history|] == history;
  }

  /** The next nap: twice as long, up to five minutes. */
  function Twice(seconds: real): real {
    if 2.0 * seconds > 300.0 then 300.0 else 2.0 * seconds
  }

  /** An answer worth going on at full speed for: an accepted claim, or a claim found there. */
  predicate Encouraging(did: Did) {
    match did
    case Looked => false
    case Sent(response) => Accepted(response)
    case Polled(response) => response.Response? && response.status == 200 && !response.body.NotJson?
  }

  /** The next nap after all this: five seconds after an encouraging answer, and after anything else
      twice the nap it was worth. */
  function Patience(log: seq<Did>): real {
    if log == [] || Encouraging(log[|log| - 1]) then 5.0 else Twice(Patience(log[..|log| - 1]))
  }

  lemma MorePatience(log: seq<Did>, did: Did)
    ensures Patience(log + [did]) == if Encouraging(did) then 5.0 else Twice(Patience(log))
  {
    assert (log + [did])[..|log|] == log;
  }

  class Backoff {
    var seconds: real

    ghost predicate Valid()
      reads this
    {
      BACKOFF_FIRST_S <= seconds <= BACKOFF_CAP_S
    }

    constructor ()
      ensures Valid() && seconds == 5.0
    {
      seconds := BACKOFF_FIRST_S;
    }

    /** How long the sleeper is to sleep; the next nap is twice as long, up to the cap. */
    method Nap() returns (slept: real)
      requires Valid()
      modifies this
      ensures Valid() && slept == old(seconds) >= POLL_INTERVAL_S
      ensures seconds == Twice(slept)
    {
      slept := seconds;
      seconds := if seconds * BACKOFF_FACTOR < BACKOFF_CAP_S then seconds * BACKOFF_FACTOR else BACKOFF_CAP_S;
    }

    method Reset()
      modifies this
      ensures Valid() && seconds == 5.0
    {
      seconds := BACKOFF_FIRST_S;
    }
  }

  class Rack {
    const identity: Request
    const script: seq<Exchange>
    const db: Database
    const backoff: Backoff
    /** The poll route's limiter, and the address it knows this rack by. */
    const limiter: Limiter
    const address: Address
    var next: nat
    var now: real
    var polls: seq<real>
    var link: Option<Credential>
    var cached: bool
    ghost var asked: seq<nat>
    ghost var filings: seq<Filing>
    /** What was done with each exchange. */
    ghost var log: seq<Did>

    /** The last accepted filing was answered with a claim of this rack, pending when it was. */
    ghost predicate Filed(claim: nat)
      reads `filings, db
    {
      && filings != []
      && var f := filings[|filings| - 1];
         && f.claim == claim && f.exchange < |script| && f.since <= f.wrote <= |db.journal|
         && Keyed(Run(db.start, db.journal[..f.wrote]), claim, PublicHalf(script[f.exchange].secret))
         && IsWaiting(Run(db.start, db.journal[..f.since]).tables.claims, claim, identity.fingerprint)
    }

    /** The limiter holds exactly this rack's polls under its address. */
    ghost predicate Budgeted()
      reads `now, `polls, limiter
    {
      && limiter.Valid() && limiter.maxAttempts == POLL_MAX_ATTEMPTS && limiter.window == POLL_WINDOW_S
      && limiter.clock <= now && SinceClear(limiter.history, address) == polls
    }

    ghost predicate Valid()
      reads this, db, backoff, limiter
    {
      && db.Valid() && backoff.Valid() && Budgeted() && Proper(script, log) && |log| <= next <= |script|
      && |asked| == |polls|
      && Spaced(polls, POLL_INTERVAL_S) && (polls != [] ==> polls[|polls| - 1] <= now)
    }

    /** Long enough since the last poll for the next one to go out at once. */
    ghost predicate Rested()
      reads this
    {
      polls != [] ==> now - polls[|polls| - 1] >= POLL_INTERVAL_S
    }

    constructor (identity: Request, script: seq<Exchange>, db: Database, limiter: Limiter, address: Address,
                 cached: bool)
      requires db.Valid() && limiter.Valid() && limiter.clock <= 0.0 && SinceClear(limiter.history, address) == []
      requires limiter.maxAttempts == POLL_MAX_ATTEMPTS && limiter.window == POLL_WINDOW_S
      ensures Valid() && Rested() && link == None && fresh(backoff) && this.db == db && polls == []
      ensures log == [] && next == 0 && backoff.seconds == Patience(log)
      ensures this.limiter == limiter && this.address == address && this.identity == identity && this.script == script
              && this.cached == cached
    {
      this.identity, this.script, this.db, this.cached := identity, script, db, cached;
      this.limiter, this.address := limiter, address;
      this.backoff := new Backoff();
      this.next, this.now, this.polls, this.link := 0, 0.0, [], None;
      this.asked, this.filings, this.log := [], [], [];
    }

    method Sleep(seconds: Duration)
      requires Valid()
      modifies this`now
      ensures Valid() && now == old(now) + seconds
    {
      now := now + seconds;
    }

    method Nap()
      requires Valid()
      modifies this`now, backoff
      ensures Valid() && Rested() && now == old(now) + old(backoff.seconds)
      ensures backoff.seconds == Twice(old(backoff.seconds))
    {
      var slept := backoff.Nap();
      Sleep(slept);
    }

    /** `POST`, the route behind it included. */
    method Post(x: Exchange) returns (response: Response, ghost since: nat, ghost wrote: nat)
      requires Valid()
      modifies this`now, db
      ensures Valid() && now == old(now) + x.there + x.back && old(db.journal) <= db.journal
      ensures response.Response? && response.body.Ticket? ==>
                && |old(db.journal)| <= since <= wrote <= |db.journal|
                && Keyed(Run(db.start, db.journal[..wrote]), response.body.claim, PublicHalf(x.secret))
                && IsWaiting(Run(db.start, db.journal[..since]).tables.claims, response.body.claim,
                             identity.fingerprint)
      ensures x.fate.Lost? || x.fate.Foreign? ==> db.journal == old(db.journal)
      ensures x.fate.Lost? || x.fate.Unheard? ==> response == Silence
      ensures x.fate.Foreign? ==> response == Response(x.fate.status, NotJson)
      ensures x.fate.Answered? && Alone(x.gap) && x.draw !in old(db.store.filed) ==>
                response == FilingReply(Claims.File(old(db.store), identity.(publicKey := PublicHalf(x.secret)),
                                                    x.serverTime, x.draw).1)
    {
      hide Sound, Commit, Run, IsWaiting, Keyed, Spaced, Budgeted;
      since, wrote := 0, 0;
      Sleep(x.there + x.back);
      match x.fate {
        case Lost => response := Silence;
        case Foreign(status) => response := Response(status, NotJson);
        case _ =>
          var outcome;
          outcome, since, wrote := FileClaim(
            db, identity.(publicKey := PublicHalf(x.secret)), x.serverTime, x.draw, x.gap);
          response := FilingReply(outcome);
          if x.fate.Unheard? {
            response := Silence;
          }
      }
    }

    /** `_file`: the claim id, or nothing after a wait. */
    method File() returns (claim: Option<nat>)
      requires Valid() && Rested() && next > 0 && |log| == next - 1 && !Polling(log) && script[next - 1].servers == 1
      requires backoff.seconds == Patience(log)
      modifies this`now, this`filings, this`log, db, backoff
      ensures Valid() && Rested() && old(db.journal) <= db.journal
      ensures |log| == next && log[..next - 1] == old(log) && log[next - 1].Sent? && backoff.seconds == Patience(log)
      ensures claim == if Accepted(log[next - 1].response) then Some(log[next - 1].response.body.claim) else None
      ensures claim.Some? ==>
                && Filed(claim.value) && filings[|filings| - 1].exchange == next - 1
                && filings[|filings| - 1].since >= |old(db.journal)|
    {
      hide Sound, Commit, Run, IsWaiting, Keyed, Spaced, Budgeted, Proper, Limiter.Valid, Database.Valid,
        Patience, Twice, InTurn, Polling;
      var response;
      ghost var since, wrote;
      response, since, wrote := Post(script[next - 1]);
      ProperMore(script, log, Sent(response));
      MorePatience(log, Sent(response));
      log := log + [Sent(response)];
      if response.Silence? || response.status != 202 || !response.body.Ticket? {
        Nap();
        return None;
      }
      filings := filings + [Filing(next - 1, response.body.claim, since, wrote)];
      backoff.Reset();
      claim := Some(response.body.claim);
    }

    /** The others who poll the same server, from addresses of their own. */
    method Crowd(crowd: seq<Address>)
      requires Valid()
      modifies limiter
      ensures Valid()
    {
      hide Sound, Commit, Run, Spaced, Recent;
      for k := 0 to |crowd|
        invariant Valid()
      {
        if crowd[k] != address {
          var full := limiter.TooMany(crowd[k], now);
          if !full {
            ghost var before := limiter.history;
            limiter.Record(crowd[k], now);
            OthersRecord(before, crowd[k], now, address);
          }
        }
      }
    }

    /** A poll arrives: the limiter is asked, and unless it turns the poll away counts it. */
    method Ask(claim: nat, there: Duration, crowd: seq<Address>) returns (full: bool)
      requires Valid() && Rested()
      modifies this`now, this`polls, this`asked, limiter
      ensures Valid() && now == old(now) + there && polls == old(polls) + [now] && asked == old(asked) + [claim]
      ensures !full
    {
      hide Sound, Commit, Run, Recent, Spaced, Limiter.Valid, Database.Valid;
      now := now + there;
      Crowd(crowd);
      PollHasRoom(polls, now);
      SpacedOn(polls, now);
      full := limiter.TooMany(address, now);
      if !full {
        ghost var before := limiter.history;
        limiter.Record(address, now);
        OwnRecord(before, address, now);
      }
      polls, asked := polls + [now], asked + [claim];
    }

    /** The route: the limiter, and then the row. */
    method Poll(claim: nat, x: Exchange) returns (response: Response)
      requires Valid() && Rested() && Filed(claim)
      modifies this`now, this`polls, this`asked, db, limiter
      ensures Valid() && now == old(now) + x.there + x.back && old(db.journal) <= db.journal && Filed(claim)
      ensures asked != [] && asked[|asked| - 1] == claim
      ensures response == PollReply(StatusOf(db.store.tables, claim))
      ensures response.Response? && response.body.Handover? ==>
                && claim in db.store.tables.claims && db.store.tables.claims[claim].grant.Some?
                && response.body.blob == db.store.tables.claims[claim].grant.value.blob
    {
      hide Sound, Commit, Run, IsWaiting, Granted, Spaced, Keyed, Budgeted, Proper, Limiter.Valid, Database.Valid,
        Sweeping, GrantEnded, Collectable, Expire, Alone;
      var full := Ask(claim, x.there, x.crowd);
      Sleep(x.back);
      ghost var before := db.journal;
      if full {
        response := TOO_MANY_POLLS;
      } else {
        var status := PollClaim(db, claim, x.serverTime, x.gap);
        ghost var f := filings[|filings| - 1];
        assert db.journal[..f.since] == before[..f.since] && db.journal[..f.wrote] == before[..f.wrote];
        response := PollReply(status);
      }
    }

    /** One poll and the route behind it. A poll that arrives is written down by when. */
    method Route(claim: nat, x: Exchange) returns (response: Response)
      requires Valid() && Rested() && Filed(claim)
      modifies this`now, this`polls, this`asked, db, limiter
      ensures Valid() && now == old(now) + x.there + x.back && old(db.journal) <= db.journal && Filed(claim)
      ensures x.fate.Lost? || x.fate.Foreign? ==> db.journal == old(db.journal)
      ensures x.fate.Lost? || x.fate.Unheard? ==> response == Silence
      ensures x.fate.Foreign? ==> response == Response(x.fate.status, NotJson)
      ensures x.fate.Answered? ==> response == PollReply(StatusOf(db.store.tables, claim))
      ensures response.Response? && response.body.Handover? ==>
                && asked != [] && asked[|asked| - 1] == claim
                && claim in db.store.tables.claims && db.store.tables.claims[claim].grant.Some?
                && response.body.blob == db.store.tables.claims[claim].grant.value.blob
    {
      hide Sound, Commit, Run, IsWaiting, Granted, Spaced, Keyed, Budgeted, Limiter.Valid, Database.Valid,
        Rack.Filed, Proper;
      match x.fate {
        case Lost =>
          Sleep(x.there + x.back);
          response := Silence;
        case Foreign(status) =>
          Sleep(x.there + x.back);
          response := Response(status, NotJson);
        case _ =>
          response := Poll(claim, x);
          if x.fate.Unheard? {
            response := Silence;
          }
      }
    }

    /** One poll, and what came back. */
    method Get(claim: nat, x: Exchange) returns (response: Response)
      requires Valid() && Rested() && Filed(claim) && Polling(log) && |log| < next && x == script[|log|]
      modifies this`now, this`polls, this`asked, this`log, db, limiter
      ensures Valid() && now == old(now) + x.there + x.back && old(db.journal) <= db.journal && Filed(claim)
      ensures log == old(log) + [Polled(response)]
      ensures x.fate.Lost? || x.fate.Foreign? ==> db.journal == old(db.journal)
      ensures x.fate.Lost? || x.fate.Unheard? ==> response == Silence
      ensures x.fate.Foreign? ==> response == Response(x.fate.status, NotJson)
      ensures x.fate.Answered? ==> response == PollReply(StatusOf(db.store.tables, claim))
      ensures response.Response? && response.body.Handover? ==>
                && asked != [] && asked[|asked| - 1] == claim
                && claim in db.store.tables.claims && db.store.tables.claims[claim].grant.Some?
                && response.body.blob == db.store.tables.claims[claim].grant.value.blob
    {
      hide Sound, Commit, Run, IsWaiting, Granted, Spaced, Keyed, Budgeted, Proper, Limiter.Valid, Database.Valid,
        StatusOf, PollReply;
      response := Route(claim, x);
      RowsAnswer(StatusOf(db.store.tables, claim));
      ProperMore(script, log, Polled(response));
      log := log + [Polled(response)];
    }

    /** `_wait_for_approval`: the sealed key, or nothing on a 404 alone. */
    method WaitForApproval(claim: nat) returns (sealed: Option<Blob>)
      requires Valid() && Rested() && Filed(claim) && Polling(log) && |log| == next && backoff.seconds == Patience(log)
      modifies this`now, this`next, this`polls, this`asked, this`log, db, backoff, limiter
      ensures Valid() && next >= old(next) && old(db.journal) <= db.journal && Filed(claim)
      ensures EndedWith(old(log), log, sealed, next == |script|) && old(log) <= log && |log| == next
      ensures sealed.Some? || Polling(log) ==> backoff.seconds == Patience(log)
      ensures sealed.None? && !Polling(log) ==> Twice(backoff.seconds) == Patience(log)
      ensures sealed.Some? ==>
                && asked != [] && asked[|asked| - 1] == claim
                && claim in db.store.tables.claims && db.store.tables.claims[claim].grant.Some?
                && sealed.value == db.store.tables.claims[claim].grant.value.blob
    {
      hide Sound, Commit, Run, IsWaiting, Granted, Spaced, Keyed, Budgeted, Proper, Limiter.Valid, Database.Valid,
        StatusOf, PollReply, InTurn, Rack.Filed, Patience, Twice;
      while next < |script|
        invariant Valid() && Rested() && next >= old(next) && old(db.journal) <= db.journal && Filed(claim)
        invariant old(log) <= log && |log| == next && Polling(log) && backoff.seconds == Patience(log)
        invariant forall k | |old(log)| <= k < |log| :: log[k].Polled? && !Ends(log[k].response)
      {
        next := next + 1;
        ghost var before := log;
        var response := Get(claim, script[next - 1]);
        MorePatience(before, Polled(response));
        if response.Silence? {
          Nap();
        } else if response.status == 404 {
          return None;
        } else if response.status != 200 || response.body.NotJson? {
          Nap();
        } else {
          backoff.Reset();
          if response.body.Handover? {
            return Some(response.body.blob);
          }
          Sleep(POLL_INTERVAL_S);
        }
      }
      return None;
    }

    /** What this rack wrote down is the key of one approval: of a claim under its own
        fingerprint, made after its last filing began, on a row that then carried the public half
        of that very filing's secret; and the row it polled is the one that filing was answered
        with. The hash of the key is on the daemon row that approval minted. */
    ghost predicate Delivered(key: Credential, at: nat)
      reads `filings, `asked, db
    {
      && filings != [] && asked != []
      && var f := filings[|filings| - 1];
         && f.exchange < |script| && asked[|asked| - 1] == f.claim && f.since <= at
         && Granted(db.start, db.journal, at, f.claim, identity.fingerprint,
                    Sealed(key, PublicHalf(script[f.exchange].secret)))
    }

    /** Why a sealed key would not open: the approval was of this rack's claim, but sealed to some
        other key than the filing's own, because it landed before the filing's write or because
        another filing found the row in between. */
    ghost predicate Missealed(at: nat)
      reads `filings, `asked, db
    {
      && filings != [] && asked != []
      && var f := filings[|filings| - 1];
         && f.exchange < |script| && asked[|asked| - 1] == f.claim && f.since <= at < |db.journal|
         && db.journal[at].Approve? && f.claim in Run(db.start, db.journal[..at]).tables.claims
         && var to := Run(db.start, db.journal[..at]).tables.claims[f.claim].publicKey;
            && to != PublicHalf(script[f.exchange].secret)
            && Granted(db.start, db.journal, at, f.claim, identity.fingerprint, Sealed(db.journal[at].key, to))
            && (at < f.wrote || exists k :: f.wrote <= k < at && Rekeys(db.journal[k], f.claim))
    }

    /** The key that was handed over last opens with the secret of the filing it answers. */
    ghost predicate Opens()
      reads this
    {
      && LastHanded(log) && filings != [] && filings[|filings| - 1].exchange < |script|
      && Open(log[|log| - 1].response.body.blob, script[filings[|filings| - 1].exchange].secret).Some?
    }

    /** How a lap or a whole run ends, from what was heard last and what could be written. */
    ghost predicate EndsAs(result: Result, unlinks: bool, writes: bool)
      reads this
    {
      match result
      case StillTrying => |log| == next && !LastHanded(log)
      case Paired => LastHanded(log) && Opens() && unlinks && writes
      case GaveUp(Undecryptable) => LastHanded(log) && !Opens()
      case GaveUp(Unwritable) => LastHanded(log) && Opens() && !(unlinks && writes)
      case GaveUp(ManyServers) =>
        0 < next == |log| + 1 <= |script| && !Polling(log) && !LastHanded(log) && script[next - 1].servers > 1
    }

    /** `join_a_server`, until it returns or the world runs out. Each exchange is a look, a filing or
        a poll in its turn. The first key that is handed over ends it: paired, beside a removed
        cache, exactly when the key opens with the filing's secret and both files can be written,
        and otherwise giving up over whichever failed, with nothing written; several servers end it
        too, and nothing else does. What it pairs with is a delivered key, and however it goes, the
        poll route's limiter turns none of its polls away. */
    method Join(unlinks: bool, writes: bool) returns (result: Result, ghost at: nat)
      requires Valid() && Rested() && link == None && |log| == next && !Polling(log) && !LastHanded(log)
      requires backoff.seconds == Patience(log)
      modifies this, db, backoff, limiter
      ensures Valid() && old(db.journal) <= db.journal
      ensures EndsAs(result, unlinks, writes) && (result.StillTrying? ==> next == |script|)
      ensures old(log) <= log && forall k | |old(log)| <= k < |log| - 1 :: !HandedBy(log[k])
      ensures result.Paired? <==> link.Some?
      ensures result == GaveUp(Undecryptable) ==> Missealed(at)
      ensures result.Paired? ==> Delivered(link.value, at) && !cached
      ensures result.StillTrying? && !Polling(log) ==> backoff.seconds == Patience(log)
      ensures forall k | 0 <= k < |polls| :: |Recent(polls[..k], polls[k], POLL_WINDOW_S)| < POLL_MAX_ATTEMPTS
    {
      hide Sound, Commit, Run, IsWaiting, Granted, Recent, Spaced, Keyed, Rekeys, EndedWith, Budgeted, Limiter.Valid,
        Database.Valid, Missealed, Delivered, Proper, Opens, Polling, LastHanded;
      at := 0;
      result := StillTrying;
      while next < |script| && result.StillTrying?
        invariant Valid() && old(db.journal) <= db.journal && (result.StillTrying? ==> Rested())
        invariant EndsAs(result, unlinks, writes) && (result.StillTrying? && next < |script| ==> !Polling(log))
        invariant result.StillTrying? && !Polling(log) ==> backoff.seconds == Patience(log)
        invariant old(log) <= log
        invariant forall k | |old(log)| <= k < |log| - 1 :: !HandedBy(log[k])
        invariant result.Paired? <==> link.Some?
        invariant result.Paired? ==> Delivered(link.value, at) && !cached
        invariant result == GaveUp(Undecryptable) ==> Missealed(at)
        decreases |script| - next, result.StillTrying?
      {
        ghost var before := log;
        result, at := Lap(unlinks, writes);
        OneMoreLap(old(log), before, log);
      }
      PollsFitTheBudget(polls);
    }

    /** One time round: look for a server, file, wait, take what comes. */
    method Lap(unlinks: bool, writes: bool) returns (result: Result, ghost at: nat)
      requires Valid() && Rested() && link == None && |log| == next < |script| && !Polling(log) && !LastHanded(log)
      requires backoff.seconds == Patience(log)
      modifies this, db, backoff, limiter
      ensures Valid() && old(db.journal) <= db.journal && next > old(next) && (result.StillTrying? ==> Rested())
      ensures EndsAs(result, unlinks, writes) && (result.StillTrying? && next < |script| ==> !Polling(log))
      ensures result.StillTrying? && !Polling(log) ==> backoff.seconds == Patience(log)
      ensures old(log) <= log && forall k | |old(log)| <= k < |log| - 1 :: !HandedBy(log[k])
      ensures result.Paired? <==> link.Some?
      ensures result.Paired? ==> Delivered(link.value, at) && !cached
      ensures result == GaveUp(Undecryptable) ==> Missealed(at)
    {
      hide Sound, Commit, Run, IsWaiting, Granted, Recent, Spaced, Keyed, Rekeys, Budgeted, Limiter.Valid,
        Database.Valid, Missealed, Delivered, Proper;
      result, at := StillTrying, 0;
      next := next + 1;
      var x := script[next - 1];
      if x.servers > 1 {
        return GaveUp(ManyServers), 0;
      }
      if x.servers == 0 {
        ProperMore(script, log, Looked);
        MorePatience(log, Looked);
        log := log + [Looked];
        Nap();
        return;
      }
      var claim := File();
      if claim.Some? {
        result, at := Await(claim.value, x.secret, unlinks, writes);
      }
    }

    /** The wait for one filing, and what is made of what it brings. */
    method Await(claim: nat, secret: SecretKey, unlinks: bool, writes: bool) returns (result: Result, ghost at: nat)
      requires Valid() && Rested() && link == None && Filed(claim) && Polling(log) && |log| == next
      requires backoff.seconds == Patience(log)
      requires log != [] && log[|log| - 1].Sent? && script[filings[|filings| - 1].exchange].secret == secret
      modifies this, db, backoff, limiter
      ensures Valid() && old(db.journal) <= db.journal && next >= old(next) && (result.StillTrying? ==> Rested())
      ensures EndsAs(result, unlinks, writes) && (result.StillTrying? && next < |script| ==> !Polling(log))
      ensures result.StillTrying? && !Polling(log) ==> backoff.seconds == Patience(log)
      ensures old(log) <= log && forall k | |old(log)| - 1 <= k < |log| - 1 :: !HandedBy(log[k])
      ensures result.Paired? <==> link.Some?
      ensures result.Paired? ==> Delivered(link.value, at) && !cached
      ensures result == GaveUp(Undecryptable) ==> Missealed(at)
    {
      hide Sound, Commit, Run, IsWaiting, Granted, Recent, Spaced, Keyed, Rekeys, Budgeted, Limiter.Valid,
        Database.Valid, Missealed, Delivered, Proper, Polling, HandedBy, EndedWith;
      result, at := StillTrying, 0;
      var sealed := WaitForApproval(claim);
      WaitHandsOverLast(old(log), log, sealed, next == |script|);
      if sealed.None? {
        Nap();
      } else {
        result, at := Handle(sealed.value, secret, unlinks, writes);
      }
    }

    /** The handover: open it, forget the other server's snapshot, write the pairing. */
    method Handle(sealed: Blob, secret: SecretKey, unlinks: bool, writes: bool) returns (result: Result, ghost at: nat)
      requires Valid() && link == None && filings != [] && asked != []
      requires var f := filings[|filings| - 1];
               && Filed(f.claim) && asked[|asked| - 1] == f.claim && script[f.exchange].secret == secret
               && f.claim in db.store.tables.claims && db.store.tables.claims[f.claim].grant.Some?
               && sealed == db.store.tables.claims[f.claim].grant.value.blob
      modifies this`link, this`cached
      ensures Valid() && (result.Paired? <==> link.Some?)
      ensures !result.StillTrying? && result != GaveUp(ManyServers)
      ensures result.Paired? ==> Delivered(link.value, at) && !cached
      ensures result == GaveUp(Unwritable) <==> Open(sealed, secret).Some? && !(unlinks && writes)
      ensures result == GaveUp(Undecryptable) <==> Open(sealed, secret).None?
      ensures result == GaveUp(Undecryptable) ==> Missealed(at)
    {
      hide Sound, Commit, Run, Spaced, Keyed, Rekeys, Budgeted;
      ghost var f := filings[|filings| - 1];
      at := GrantHasItsApproval(db.start, db.journal, f.since, f.claim, identity.fingerprint);
      var key := Open(sealed, secret);
      if key.None? {
        if f.wrote <= at && !exists k :: f.wrote <= k < at && Rekeys(db.journal[k], f.claim) {
          KeyUntil(db.start, db.journal, f.wrote, at, f.claim, PublicHalf(secret));
          KeyedIs(Run(db.start, db.journal[..at]), f.claim, PublicHalf(secret));
        }
        return GaveUp(Undecryptable), at;
      }
      if !unlinks {
        return GaveUp(Unwritable), at;
      }
      cached := false;
      if !writes {
        return GaveUp(Unwritable), at;
      }
      link := key;
      result := Paired;
    }
  }

  /** The whole of it, from any sound tables and an idle limiter: what the rack ends up holding is
      the key of its daemon row exactly until something revokes it. */
  method JoinFromScratch(initial: Store, identity: Request, script: seq<Exchange>, address: Address,
                         cached: bool, unlinks: bool, writes: bool)
    returns (rack: Rack, result: Result, ghost at: nat)
    requires Sound(initial)
    ensures fresh(rack) && rack.db.start == initial && rack.identity == identity && rack.Valid()
    ensures result.Paired? <==> rack.link.Some?
    ensures result == GaveUp(Undecryptable) ==> rack.Missealed(at)
    ensures result.Paired? ==>
              && rack.Delivered(rack.link.value, at) && !rack.cached && at < |rack.db.journal|
              && (Pairing.KeyOn(Run(initial, rack.db.journal), rack.db.journal[at].rowId, rack.link.value)
                  <==> !Pairing.Revoked(Run(initial, rack.db.journal[..at + 1]), rack.db.journal[at + 1..],
                                        rack.db.journal[at].rowId))
  {
    hide Sound, Commit, Run, IsWaiting, Recent, Spaced, Keyed, Rekeys, Pairing.KeyOn, Pairing.Revoked;
    var db := new Database(initial);
    var limiter := new Limiter(POLL_MAX_ATTEMPTS, POLL_WINDOW_S);
    rack := new Rack(identity, script, db, limiter, address, cached);
    result, at := rack.Join(unlinks, writes);
    if result.Paired? {
      ghost var f := rack.filings[|rack.filings| - 1];
      GrantedKeyIdentifiesItsRow(initial, db.journal, at, f.claim, identity.fingerprint,
                                 Sealed(rack.link.value, PublicHalf(script[f.exchange].secret)));
    }
  }
}
