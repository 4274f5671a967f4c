/** `claims.py` as it runs: every call is a string of statements on one connection, and `gap(k)`
    is whatever other connections commit just before its k-th statement. */
module ClaimCalls {
  import opened Wrappers
  import opened Tables
  import opened Connections
  import opened Claims

  // ---------------------------------------------------------------- what a claim id stands for

  /** An id is drawn once, so the row under it is this rack's or is gone. */
  predicate Bears(s: Store, claim: nat, fingerprint: Fingerprint) {
    claim in s.filed && (claim in s.tables.claims ==> s.tables.claims[claim].fingerprint == fingerprint)
  }

  predicate IsWaiting(claims: map<nat, Claim>, id: nat, fingerprint: Fingerprint) {
    id in claims && claims[id].grant.None? && claims[id].fingerprint == fingerprint
  }

  lemma BearsStays(s: Store, st: Statement, claim: nat, fingerprint: Fingerprint)
    requires Bears(s, claim, fingerprint)
    ensures Bears(Commit(s, st).0, claim, fingerprint)
  {
  }

  lemma {:induction false} BearsForGood(s: Store, run: seq<Statement>, claim: nat, fingerprint: Fingerprint)
    requires Bears(s, claim, fingerprint)
    ensures Bears(Run(s, run), claim, fingerprint)
    decreases |run|
  {
    hide Commit, Bears;
    if run != [] {
      BearsStays(s, run[0], claim, fingerprint);
      BearsForGood(Commit(s, run[0]).0, run[1..], claim, fingerprint);
    }
  }

  /** Where a grant comes from: this approval won, on a row of this fingerprint, and left the
      key's hash on the daemon row it minted and the key sealed to the row's public key. */
  ghost predicate Granted(start: Store, journal: seq<Statement>, at: nat, claim: nat,
                          fingerprint: Fingerprint, blob: Blob) {
    && at < |journal| && journal[at].Approve? && journal[at].claim == claim && Won(start, journal, at)
    && var before, after := Run(start, journal[..at]).tables, Run(start, journal[..at + 1]).tables;
       && claim in before.claims && before.claims[claim].fingerprint == fingerprint
       && blob == Sealed(journal[at].key, before.claims[claim].publicKey)
       && journal[at].rowId in after.daemons
       && after.daemons[journal[at].rowId].keyHash == Some(Hash(journal[at].key))
       && after.daemons[journal[at].rowId].claimFingerprint == Some(fingerprint)
  }

  lemma GrantedExtends(start: Store, journal: seq<Statement>, more: seq<Statement>, at: nat,
                       claim: nat, fingerprint: Fingerprint, blob: Blob)
    requires Granted(start, journal, at, claim, fingerprint, blob)
    ensures Granted(start, journal + more, at, claim, fingerprint, blob)
  {
    assert (journal + more)[..at] == journal[..at];
    assert (journal + more)[..at + 1] == journal[..at + 1];
  }

  /** One statement can turn a pending row into a granted one only by being its approval. */
  lemma OnlyApproveGrants(s: Store, st: Statement, claim: nat)
    requires Pending(s.tables, claim) && claim in Commit(s, st).0.tables.claims && claim in s.filed
    requires Commit(s, st).0.tables.claims[claim].grant.Some?
    ensures st.Approve? && st.claim == claim && Commit(s, st).1 == Hit
    ensures Commit(s, st).0.tables.claims[claim].grant.value.blob == Sealed(st.key, s.tables.claims[claim].publicKey)
  {
  }

  lemma GrantStays(s: Store, st: Statement, claim: nat)
    requires claim in s.filed && claim in Commit(s, st).0.tables.claims
    ensures claim in s.tables.claims
    ensures s.tables.claims[claim].grant.Some? ==>
              Commit(s, st).0.tables.claims[claim].grant == s.tables.claims[claim].grant
  {
  }

  /** A row's grant, once made, is what it is as long as the row is there; and a row that is gone
      does not come back. */
  lemma {:induction false} GrantForGood(s: Store, run: seq<Statement>, claim: nat)
    requires claim in s.filed && claim in Run(s, run).tables.claims
    ensures claim in s.tables.claims
    ensures s.tables.claims[claim].grant.Some? ==>
              Run(s, run).tables.claims[claim].grant == s.tables.claims[claim].grant
    decreases |run|
  {
    if run != [] {
      StaysFiled(s, run[0], claim);
      GrantForGood(Commit(s, run[0]).0, run[1..], claim);
      GrantStays(s, run[0], claim);
      hide Commit;
    }
  }

  lemma {:induction false} FiledForGood(s: Store, run: seq<Statement>, claim: nat)
    requires claim in s.filed
    ensures claim in Run(s, run).filed
    decreases |run|
  {
    if run != [] {
      StaysFiled(s, run[0], claim);
      FiledForGood(Commit(s, run[0]).0, run[1..], claim);
      hide Commit;
    }
  }

  lemma StaysFiled(s: Store, st: Statement, claim: nat)
    requires claim in s.filed
    ensures claim in Commit(s, st).0.filed
  {
  }

  predicate Collectable(s: Store, claim: nat) {
    claim in s.tables.claims && s.tables.claims[claim].grant.Some?
  }

  /** What takes a granted row away: an expiry a whole lifetime after the grant, or the end of the
      daemon row it stands for, deleted, or reclaimed by a later approval of the same rack under
      the same name before it ever connected. */
  predicate EndsGrant(s: Store, st: Statement, claim: nat) {
    Collectable(s, claim) &&
    var grant := s.tables.claims[claim].grant.value;
    match st
    case ExpireGranted(now) => now >= grant.at + CLAIM_LIFETIME_S
    case DropDaemon(d) => d == grant.daemonId
    case Approve(other, _, _, _) =>
      && Commit(s, st).1 == Hit && other in s.tables.claims && grant.daemonId in s.tables.daemons
      && var row := s.tables.daemons[grant.daemonId];
         && row.name == s.tables.claims[other].hostname && !row.connected
         && row.claimFingerprint == Some(s.tables.claims[other].fingerprint)
    case _ => false
  }

  lemma StandsUnlessEnded(s: Store, st: Statement, claim: nat)
    requires Sound(s) && Collectable(s, claim)
    ensures claim in Commit(s, st).0.tables.claims <==> !EndsGrant(s, st, claim)
  {
    assert s.tables.claims[claim].grant.value.daemonId in s.tables.daemons;
  }

  /** Somewhere in the run the grant came to its end. */
  ghost predicate GrantEnded(s: Store, run: seq<Statement>, claim: nat) {
    exists m | 0 <= m < |run| :: EndsGrant(Run(s, run[..m]), run[m], claim)
  }

  lemma EndedLater(s: Store, run: seq<Statement>, claim: nat)
    requires run != [] && !EndsGrant(s, run[0], claim)
    ensures GrantEnded(s, run, claim) <==> GrantEnded(Commit(s, run[0]).0, run[1..], claim)
  {
    hide Commit, EndsGrant;
    var next := Commit(s, run[0]).0;
    forall m: nat | m < |run| - 1 ensures Run(s, run[..m + 1]) == Run(next, run[1..][..m]) {
      assert run[..m + 1][0] == run[0] && run[..m + 1][1..] == run[1..][..m];
    }
    assert run[..0] == [];
    if GrantEnded(s, run, claim) {
      var m :| 0 <= m < |run| && EndsGrant(Run(s, run[..m]), run[m], claim);
      assert EndsGrant(Run(next, run[1..][..m - 1]), run[1..][m - 1], claim);
    }
    if GrantEnded(next, run[1..], claim) {
      var m :| 0 <= m < |run[1..]| && EndsGrant(Run(next, run[1..][..m]), run[1..][m], claim);
      assert EndsGrant(Run(s, run[..m + 1]), run[m + 1], claim);
    }
  }

  /** A grant stands, word for word, exactly until something ends it. */
  lemma {:induction false} GrantStandsUntilEnded(s: Store, run: seq<Statement>, claim: nat)
    requires Sound(s) && Collectable(s, claim)
    ensures claim in Run(s, run).tables.claims <==> !GrantEnded(s, run, claim)
    ensures !GrantEnded(s, run, claim) ==> Run(s, run).tables.claims[claim].grant == s.tables.claims[claim].grant
    decreases |run|
  {
    hide Commit, Sound, EndsGrant;
    SoundIsFiled(s, claim);
    if run == [] {
      return;
    }
    assert run[..0] == [];
    StandsUnlessEnded(s, run[0], claim);
    StaysFiled(s, run[0], claim);
    CommitKeepsSound(s, run[0]);
    var next := Commit(s, run[0]).0;
    if EndsGrant(s, run[0], claim) {
      assert EndsGrant(Run(s, run[..0]), run[0], claim);
      if claim in Run(next, run[1..]).tables.claims {
        GrantForGood(next, run[1..], claim);
        assert false;
      }
    } else {
      GrantStays(s, run[0], claim);
      GrantStandsUntilEnded(next, run[1..], claim);
      EndedLater(s, run, claim);
    }
  }

  /** From the moment an approval wins, its row carries its blob exactly until something ends it. */
  lemma ApprovalStandsUntilEnded(start: Store, journal: seq<Statement>, i: nat, j: nat)
    requires Sound(start) && i < j <= |journal| && journal[i].Approve? && Won(start, journal, i)
    ensures var claim, at, later := journal[i].claim, Run(start, journal[..i]), Run(start, journal[..j]).tables.claims;
            && claim in at.tables.claims
            && (claim in later <==> !GrantEnded(Run(start, journal[..i + 1]), journal[i + 1..j], claim))
            && (claim in later ==>
                  later[claim].grant
                  == Some(Grant(journal[i].now, Sealed(journal[i].key, at.tables.claims[claim].publicKey),
                    journal[i].rowId)))
  {
    hide Commit, Sound, EndsGrant, GrantEnded;
    var at, st := Run(start, journal[..i]), journal[i];
    RunKeepsSound(start, journal[..i]);
    ApproveReclaimsOnlyItsOwn(at, st);
    CommitKeepsSound(at, st);
    var after := Commit(at, st).0;
    assert Collectable(after, st.claim);
    GrantStandsUntilEnded(after, journal[i + 1..j], st.claim);
    RunFrom(start, journal, i, j);
    assert journal[..i + 1] == journal[..i] + [st];
    RunExtends(start, journal[..i], st);
  }

  /** What the sweep alone does to a row: a grant lasts a lifetime from the grant, a filing one from
      when it was first seen. */
  lemma SweepByItsOwnClock(s: Store, now: real, claim: nat)
    requires claim in s.tables.claims
    ensures var row, after := s.tables.claims[claim], Expire(s, now).tables.claims;
            && (claim in after <==>
                now < CLAIM_LIFETIME_S + if row.grant.Some? then row.grant.value.at else row.firstSeen)
            && (claim in after ==> after[claim] == row)
  {
  }

  /** If the row under this id is there, a grant of it is sealed to this key. */
  predicate Keyed(s: Store, claim: nat, publicKey: PublicKey) {
    claim in s.filed && (claim in s.tables.claims ==> s.tables.claims[claim].publicKey == publicKey)
  }

  /** Only a filing that finds the row gives it another key. */
  predicate Rekeys(st: Statement, claim: nat) {
    st.Refresh? && st.claim == claim
  }

  lemma KeyStays(s: Store, st: Statement, claim: nat, publicKey: PublicKey)
    requires Keyed(s, claim, publicKey) && !Rekeys(st, claim)
    ensures Keyed(Commit(s, st).0, claim, publicKey)
  {
  }

  lemma {:induction false} KeyStaysForGood(s: Store, run: seq<Statement>, claim: nat, publicKey: PublicKey)
    requires Keyed(s, claim, publicKey) && forall k | 0 <= k < |run| :: !Rekeys(run[k], claim)
    ensures Keyed(Run(s, run), claim, publicKey)
    decreases |run|
  {
    hide Commit, Keyed, Rekeys;
    if run != [] {
      KeyStays(s, run[0], claim, publicKey);
      KeyStaysForGood(Commit(s, run[0]).0, run[1..], claim, publicKey);
    }
  }

  /** Between two moments the row keeps its key, unless another filing found it. */
  lemma KeyUntil(start: Store, journal: seq<Statement>, since: nat, at: nat, claim: nat, publicKey: PublicKey)
    requires since <= at <= |journal| && Keyed(Run(start, journal[..since]), claim, publicKey)
    requires forall k | since <= k < at :: !Rekeys(journal[k], claim)
    ensures Keyed(Run(start, journal[..at]), claim, publicKey)
  {
    hide Keyed, Rekeys;
    KeyStaysForGood(Run(start, journal[..since]), journal[since..at], claim, publicKey);
    RunSplits(start, journal[..since], journal[since..at]);
    assert journal[..at] == journal[..since] + journal[since..at];
  }

  lemma RefreshKeys(s: Store, st: Statement)
    requires st.Refresh? && st.claim in s.filed
    ensures Keyed(Commit(s, st).0, st.claim, st.publicKey)
  {
  }

  lemma InsertKeys(s: Store, st: Statement)
    requires st.Insert? && Commit(s, st).1 == Hit
    ensures Keyed(Commit(s, st).0, st.claim, st.row.publicKey)
    ensures IsWaiting(Commit(s, st).0.tables.claims, st.claim, st.row.fingerprint)
  {
  }

  /** An approval that lands between a filing's SELECT and its UPDATE is sealed to the key the row
      had before, and the filing's own secret does not open it. */
  lemma ApprovedBeforeTheWrite(s: Store, approve: Statement, refresh: Statement, secret: SecretKey)
    requires Sound(s) && approve.Approve? && Commit(s, approve).1 == Hit
    requires refresh.Refresh? && refresh.claim == approve.claim && refresh.publicKey == PublicHalf(secret)
    requires approve.claim in s.tables.claims && s.tables.claims[approve.claim].publicKey != PublicHalf(secret)
    ensures var claims := Run(s, [approve, refresh]).tables.claims;
            && approve.claim in claims && claims[approve.claim].publicKey == PublicHalf(secret)
            && claims[approve.claim].grant.Some? && Open(claims[approve.claim].grant.value.blob, secret).None?
  {
    ApproveReclaimsOnlyItsOwn(s, approve);
    var after := Commit(s, approve).0;
    assert [approve, refresh][1..] == [refresh] && [refresh][1..] == [];
    assert Run(s, [approve, refresh]) == Run(after, [refresh]) == Commit(after, refresh).0;
  }

  lemma ApproveStoresTheHash(s: Store, st: Statement)
    requires st.Approve? && Commit(s, st).1 == Hit
    ensures st.claim in s.tables.claims
    ensures var daemons := Commit(s, st).0.tables.daemons;
            && st.rowId in daemons && daemons[st.rowId].keyHash == Some(Hash(st.key))
            && daemons[st.rowId].claimFingerprint == Some(s.tables.claims[st.claim].fingerprint)
  {
  }

  lemma WinningApproveGrants(start: Store, journal: seq<Statement>, claim: nat, fingerprint: Fingerprint)
    requires Sound(start) && journal != []
    requires var before := Run(start, journal[..|journal| - 1]);
             && Pending(before.tables, claim) && claim in before.filed
             && before.tables.claims[claim].fingerprint == fingerprint
    requires claim in Run(start, journal).tables.claims
    requires Run(start, journal).tables.claims[claim].grant.Some?
    ensures Granted(start, journal, |journal| - 1, claim, fingerprint,
                    Run(start, journal).tables.claims[claim].grant.value.blob)
  {
    hide Commit, Sound;
    var n := |journal| - 1;
    var before, st := Run(start, journal[..n]), journal[n];
    assert journal == journal[..n] + [st] && journal[..n + 1] == journal;
    RunExtends(start, journal[..n], st);
    OnlyApproveGrants(before, st, claim);
    ApproveStoresTheHash(before, st);
  }

  /** A row that was pending at one moment and is granted at a later one was granted by exactly
      such an approval in between, whatever else ran. */
  lemma {:induction false} GrantHasItsApproval(start: Store, journal: seq<Statement>, since: nat,
                                               claim: nat, fingerprint: Fingerprint)
    returns (at: nat)
    requires Sound(start) && since <= |journal|
    requires IsWaiting(Run(start, journal[..since]).tables.claims, claim, fingerprint)
    requires claim in Run(start, journal).tables.claims
    requires Run(start, journal).tables.claims[claim].grant.Some?
    ensures since <= at
    ensures Granted(start, journal, at, claim, fingerprint, Run(start, journal).tables.claims[claim].grant.value.blob)
    decreases |journal|
  {
    hide Commit, Sound, Bears;
    assert journal[..|journal|] == journal;
    if since == |journal| {
      assert false;
    } else {
      var n := |journal| - 1;
      var before, st := Run(start, journal[..n]), journal[n];
      var blob := Run(start, journal).tables.claims[claim].grant.value.blob;
      assert journal == journal[..n] + [st] && journal[..n][..since] == journal[..since];
      RunExtends(start, journal[..n], st);
      StillBears(start, journal[..n], since, claim, fingerprint);
      GrantStays(before, st, claim);
      if before.tables.claims[claim].grant.None? {
        WinningApproveGrants(start, journal, claim, fingerprint);
        at := n;
      } else {
        at := GrantHasItsApproval(start, journal[..n], since, claim, fingerprint);
        GrantedExtends(start, journal[..n], [st], at, claim, fingerprint, blob);
      }
    }
  }

  lemma StillBears(start: Store, journal: seq<Statement>, since: nat, claim: nat, fingerprint: Fingerprint)
    requires Sound(start) && since <= |journal|
    requires claim in Run(start, journal[..since]).tables.claims
    requires Run(start, journal[..since]).tables.claims[claim].fingerprint == fingerprint
    ensures var now := Run(start, journal);
            claim in now.filed && (claim in now.tables.claims ==> now.tables.claims[claim].fingerprint == fingerprint)
  {
    RunKeepsSound(start, journal[..since]);
    BearsForGood(Run(start, journal[..since]), journal[since..], claim, fingerprint);
    RunSplits(start, journal[..since], journal[since..]);
    assert journal == journal[..since] + journal[since..];
  }

  // ---------------------------------------------------------------- the calls

  ghost predicate Alone(gap: nat -> seq<Statement>) {
    forall k :: gap(k) == []
  }

  /** The sweep every call begins with, and what others commit around it. */
  ghost function Sweeping(now: real, gap: nat -> seq<Statement>): seq<Statement> {
    gap(0) + [ExpirePending(now)] + gap(1) + [ExpireGranted(now)] + gap(2) + [ExpireDenied(now)]
  }

  method ExpireAll(db: Database, now: real, gap: nat -> seq<Statement>)
    requires db.Valid()
    modifies db
    ensures db.Valid() && old(db.journal) <= db.journal && db.journal == old(db.journal) + Sweeping(now, gap)
    ensures Alone(gap) ==> db.store == Expire(old(db.store), now)
  {
    hide Commit, Sound;
    db.Others(gap(0));
    var _ := db.Do(ExpirePending(now));
    db.Others(gap(1));
    var _ := db.Do(ExpireGranted(now));
    db.Others(gap(2));
    var _ := db.Do(ExpireDenied(now));
  }

  ghost function Refreshing(id: nat, request: Request, gap: nat -> seq<Statement>): seq<Statement> {
    gap(5) + [Refresh(id, request.address, request.version, request.publicKey)] + gap(6)
  }

  ghost function Inserting(draw: nat, request: Request, now: real, gap: nat -> seq<Statement>): seq<Statement> {
    gap(5) + gap(6) + [Insert(draw, Filing(request, now))]
  }

  /** The branch for a fingerprint that already waits. */
  method RefreshClaim(db: Database, id: nat, request: Request, gap: nat -> seq<Statement>)
    returns (outcome: Outcome, ghost wrote: nat)
    requires db.Valid() && id in db.store.filed
    modifies db
    ensures db.Valid() && old(db.journal) <= db.journal && |old(db.journal)| <= wrote <= |db.journal|
    ensures Keyed(Run(db.start, db.journal[..wrote]), id, request.publicKey)
    ensures outcome == if id in db.store.tables.claims then Filed(id) else Broken
    ensures db.journal == old(db.journal) + Refreshing(id, request, gap)
    ensures Alone(gap) ==>
              db.store == Commit(old(db.store), Refresh(id, request.address, request.version, request.publicKey)).0
  {
    hide Commit, Sound, Keyed;
    FiledForGood(db.store, gap(5), id);
    db.Others(gap(5));
    RefreshKeys(db.store, Refresh(id, request.address, request.version, request.publicKey));
    var _ := db.Do(Refresh(id, request.address, request.version, request.publicKey));
    wrote := |db.journal|;
    ghost var seen := db.journal;
    assert seen[..wrote] == seen;
    outcome := Back(db, id, gap(6));
    assert db.journal[..wrote] == seen;
  }

  /** The branch for a new row: the count, then the insert, then the row read back. */
  method InsertClaim(db: Database, request: Request, now: real, draw: nat, gap: nat -> seq<Statement>)
    returns (outcome: Outcome, ghost since: nat)
    requires db.Valid()
    modifies db
    ensures db.Valid() && old(db.journal) <= db.journal
    ensures if outcome == Refused then db.journal == old(db.journal) + gap(5)
            else
              var written := old(db.journal) + Inserting(draw, request, now, gap);
              db.journal == if Won(db.start, written, |written| - 1) then written + gap(7) else written
    ensures outcome.Filed? ==>
              && outcome.claim == draw && |old(db.journal)| <= since <= |db.journal|
              && IsWaiting(Run(db.start, db.journal[..since]).tables.claims, draw, request.fingerprint)
              && Keyed(Run(db.start, db.journal[..since]), draw, request.publicKey)
    ensures Alone(gap) && |PendingIds(old(db.store).tables)| >= MAX_PENDING ==>
              outcome == Refused && db.store == old(db.store)
    ensures Alone(gap) && |PendingIds(old(db.store).tables)| < MAX_PENDING ==>
              var (after, answer) := Commit(old(db.store), Insert(draw, Filing(request, now)));
              db.store == after && (answer == Hit && draw in after.tables.claims ==> outcome == Filed(draw))
  {
    hide Sound, Keyed, Commit;
    db.Others(gap(5));
    if |PendingIds(db.store.tables)| >= MAX_PENDING {
      return Refused, 0;
    }
    db.Others(gap(6));
    ghost var before, looked := db.store, db.journal;
    var answer := db.Do(Insert(draw, Filing(request, now)));
    since := |db.journal|;
    ghost var seen := db.journal;
    assert seen[..since] == seen && seen[..since - 1] == looked;
    assert seen == old(db.journal) + Inserting(draw, request, now, gap);
    if answer != Hit {
      return Broken, since;
    }
    InsertKeys(before, Insert(draw, Filing(request, now)));
    outcome := Back(db, draw, gap(7));
    assert db.journal[..since] == seen;
  }

  /** The row read back by its id: gone is an exception, not an answer. */
  method Back(db: Database, id: nat, others: seq<Statement>) returns (outcome: Outcome)
    requires db.Valid()
    modifies db
    ensures db.Valid() && db.journal == old(db.journal) + others && db.store == Run(old(db.store), others)
    ensures outcome == if id in db.store.tables.claims then Filed(id) else Broken
  {
    db.Others(others);
    outcome := if id in db.store.tables.claims then Filed(id) else Broken;
  }

  /** The claim a filing answers with stood for this rack, pending, at `since`, after the filing
      began, and carried the filing's own key from `wrote` on, the moment its write was done; with
      nobody else on the database the call is the function `File`. */
  method FileClaim(db: Database, request: Request, now: real, draw: nat, gap: nat -> seq<Statement>)
    returns (outcome: Outcome, ghost since: nat, ghost wrote: nat)
    requires db.Valid()
    modifies db
    ensures db.Valid() && old(db.journal) <= db.journal
    ensures var looked := old(db.journal) + Sweeping(now, gap) + gap(3);
            || db.journal == looked || db.journal == looked + gap(4) + gap(5)
            || (exists id :: db.journal == looked + gap(4) + Refreshing(id, request, gap))
            || db.journal == looked + gap(4) + Inserting(draw, request, now, gap)
            || db.journal == looked + gap(4) + Inserting(draw, request, now, gap) + gap(7)
    ensures outcome.Filed? ==>
              && |old(db.journal)| <= since <= wrote <= |db.journal|
              && IsWaiting(Run(db.start, db.journal[..since]).tables.claims, outcome.claim, request.fingerprint)
              && Keyed(Run(db.start, db.journal[..wrote]), outcome.claim, request.publicKey)
    ensures Alone(gap) && draw !in old(db.store.filed) ==>
              (db.store, outcome) == File(old(db.store), request, now, draw)
  {
    hide Sound, Commit, Expire, Sweeping, Refreshing, Inserting;
    ExpireAll(db, now, gap);
    db.Others(gap(3));
    if request.fingerprint in db.store.tables.denied {
      return Refused, 0, 0;
    }
    db.Others(gap(4));
    since := |db.journal|;
    ghost var s1 := db.store;
    assert Sound(s1) by { RunKeepsSound(db.start, db.journal); }
    assert db.journal[..since] == db.journal;
    var claims := db.store.tables.claims;
    if id :| id in claims.Keys && IsWaiting(claims, id, request.fingerprint) {
      OnePendingRow(s1, id, request.fingerprint);
      SoundIsFiled(s1, id);
      ghost var seen := db.journal;
      RefreshKeepsQueue(s1, Refresh(id, request.address, request.version, request.publicKey));
      outcome, wrote := RefreshClaim(db, id, request, gap);
      assert db.journal[..since] == seen;
    } else {
      assert PendingOf(s1.tables, request.fingerprint).None?;
      outcome, since := InsertClaim(db, request, now, draw, gap);
      wrote := since;
      if Alone(gap) && draw !in old(db.store.filed) {
        FilingAlone(old(db.store), s1, request, now, draw);
      }
    }
  }

  lemma SoundIsFiled(s: Store, claim: nat)
    requires Sound(s) && claim in s.tables.claims
    ensures claim in s.filed
  {
  }

  lemma OnePendingRow(s: Store, id: nat, fingerprint: Fingerprint)
    requires Sound(s) && Pending(s.tables, id) && s.tables.claims[id].fingerprint == fingerprint
    ensures PendingOf(s.tables, fingerprint) == Some(id)
  {
  }

  lemma FilingAlone(s: Store, s1: Store, request: Request, now: real, draw: nat)
    requires s1 == Expire(s, now) && draw !in s.filed && !FingerprintPending(s1.tables, request.fingerprint)
    ensures Commit(s1, Insert(draw, Filing(request, now))).1 == Hit
    ensures draw in Commit(s1, Insert(draw, Filing(request, now))).0.tables.claims
  {
  }

  /** The transaction, statement by statement on a private copy: what it commits is exactly
      `ApproveTransaction`, the guarded UPDATE always finds the row the guarded SELECT found, and
      a name that clashes rolls back to the tables as expiry left them. */
  method ApproveClaim(db: Database, claim: nat, now: real, key: Credential, rowId: nat, gap: nat -> seq<Statement>)
    returns (answer: Answer)
    requires db.Valid()
    modifies db
    ensures db.Valid() && |db.journal| > |old(db.journal)| && old(db.journal) <= db.journal
    ensures db.journal == old(db.journal) + Sweeping(now, gap) + gap(3) + [Approve(claim, now, key, rowId)]
    ensures answer == Hit <==> Won(db.start, db.journal, |db.journal| - 1)
    ensures var before := Run(db.start, db.journal[..|db.journal| - 1]);
            Legal(before, Approve(claim, now, key, rowId)) ==> (answer == Miss <==> !Pending(before.tables, claim))
    ensures var before := Run(db.start, db.journal[..|db.journal| - 1]);
            Legal(before, Approve(claim, now, key, rowId)) ==>
              (answer == Clash <==> Pending(before.tables, claim) && SomebodyElsesName(before.tables, claim))
    ensures answer != Hit ==>
              db.store.tables == Run(db.start, db.journal[..|db.journal| - 1]).tables
  {
    hide Sound, SomebodyElsesName, Sweeping;
    ExpireAll(db, now, gap);
    db.Others(gap(3));
    ghost var journal, before := db.journal, db.store;
    if Legal(before, Approve(claim, now, key, rowId)) {
      ApprovalAnswers(before, Approve(claim, now, key, rowId));
    }
    var work := db.store.tables;
    var drawn := Legal(db.store, Approve(claim, now, key, rowId));
    if !Pending(work, claim) {
      answer := Miss;
    } else {
      var row := work.claims[claim];
      var blob := Sealed(key, row.publicKey);
      work := Without(work, Uncollected(work, row));
      if NameTaken(work, row.hostname) {
        answer := Clash;
        work := db.store.tables;
      } else {
        var minted := Daemon(row.hostname, None, Some(Hash(key)), true, false, Some(row.fingerprint));
        work := work.(daemons := work.daemons[rowId := minted]);
        assert Pending(work, claim);
        work := work.(claims := work.claims[claim := work.claims[claim].(grant := Some(Grant(now, blob, rowId)))]);
        answer := Hit;
      }
    }
    assert ApproveTransaction(before.tables, claim, now, key, rowId) == (work, answer);
    var committed := db.Do(Approve(claim, now, key, rowId));
    if !drawn { answer := Miss; }
    assert committed == answer;
    assert db.journal[..|db.journal| - 1] == journal;
  }

  /** A denial deletes the pending row and suppresses its fingerprint; alone it is `Deny`. */
  method DenyClaim(db: Database, claim: nat, now: real, gap: nat -> seq<Statement>)
    returns (denied: bool, ghost at: nat)
    requires db.Valid()
    modifies db
    ensures db.Valid() && |old(db.journal)| <= at < |db.journal| && old(db.journal) <= db.journal
    ensures at == |old(db.journal)| + |Sweeping(now, gap)| + |gap(3)|
    ensures denied <==> Won(db.start, db.journal, at)
    ensures !denied ==> db.journal == old(db.journal) + Sweeping(now, gap) + gap(3) + [Take(claim)]
    ensures denied ==>
              && claim in Run(db.start, db.journal[..at]).tables.claims
              && var fingerprint := Run(db.start, db.journal[..at]).tables.claims[claim].fingerprint;
                 && db.store.tables.denied.Keys >= {fingerprint}
                 && db.journal == old(db.journal) + Sweeping(now, gap) + gap(3) + [Take(claim)] + gap(4)
                                  + [Suppress(fingerprint, now)]
    ensures Alone(gap) ==> (db.store, denied) == Deny(old(db.store), claim, now)
  {
    hide Sound, Sweeping;
    ExpireAll(db, now, gap);
    db.Others(gap(3));
    at := |db.journal|;
    ghost var journal := db.journal;
    var claims := db.store.tables.claims;
    var answer := db.Do(Take(claim));
    denied := answer == Hit;
    if denied {
      db.Others(gap(4));
      var _ := db.Do(Suppress(claims[claim].fingerprint, now));
    }
    assert db.journal[..at] == journal;
  }

  /** What the poll route answers. */
  datatype Status = Gone | Waiting | Approved(blob: Blob)

  function StatusOf(t: Tables, claim: nat): Status {
    if claim !in t.claims then Gone
    else if t.claims[claim].grant.None? then Waiting
    else Approved(t.claims[claim].grant.value.blob)
  }

  /** Two reads, and the row may go between them; whatever lands, the answer is what the row says
      at the moment of the last read. */
  method PollClaim(db: Database, claim: nat, now: real, gap: nat -> seq<Statement>) returns (status: Status)
    requires db.Valid()
    modifies db
    ensures db.Valid() && old(db.journal) <= db.journal
    ensures status == StatusOf(db.store.tables, claim)
    ensures var read := old(db.journal) + Sweeping(now, gap) + gap(3);
            db.journal == if StatusOf(Run(db.start, read).tables, claim).Approved? then read + gap(4) else read
    ensures Collectable(old(db.store), claim) ==>
              status == if GrantEnded(old(db.store), db.journal[|old(db.journal)|..], claim) then Gone
                        else Approved(old(db.store).tables.claims[claim].grant.value.blob)
    ensures Alone(gap) ==> db.store == Expire(old(db.store), now)
    ensures Alone(gap) && claim in old(db.store).tables.claims ==>
              var row := old(db.store).tables.claims[claim];
              match row.grant
              case Some(grant) => status == if now < grant.at + CLAIM_LIFETIME_S then Approved(grant.blob) else Gone
              case None => status == if now < row.firstSeen + CLAIM_LIFETIME_S then Waiting else Gone
  {
    hide Sound, Commit, Expire, GrantEnded, Sweeping;
    ghost var was, before := db.store, db.journal;
    status := ReadTwice(db, claim, now, gap);
    assert Sound(was) by { RunKeepsSound(db.start, before); }
    ghost var more := db.journal[|before|..];
    RunSplits(db.start, before, more);
    assert db.journal == before + more;
    if Collectable(was, claim) {
      GrantStandsUntilEnded(was, more, claim);
    }
    if claim in was.tables.claims {
      SweepByItsOwnClock(was, now, claim);
    }
  }

  /** The sweep, and the two reads. */
  method ReadTwice(db: Database, claim: nat, now: real, gap: nat -> seq<Statement>) returns (status: Status)
    requires db.Valid()
    modifies db
    ensures db.Valid() && old(db.journal) <= db.journal
    ensures var read := old(db.journal) + Sweeping(now, gap) + gap(3);
            db.journal == if StatusOf(Run(db.start, read).tables, claim).Approved? then read + gap(4) else read
    ensures status == StatusOf(db.store.tables, claim)
    ensures Alone(gap) ==> db.store == Expire(old(db.store), now)
  {
    hide Sound, Commit, Expire, Sweeping;
    ExpireAll(db, now, gap);
    db.Others(gap(3));
    var claims := db.store.tables.claims;
    if claim !in claims {
      return Gone;
    }
    if claims[claim].grant.None? {
      return Waiting;
    }
    ghost var granted := db.store;
    assert claim in granted.filed by { RunKeepsSound(db.start, db.journal); SoundIsFiled(granted, claim); }
    db.Others(gap(4));
    if claim in db.store.tables.claims {
      GrantForGood(granted, gap(4), claim);
    }
    claims := db.store.tables.claims;
    if claim !in claims || claims[claim].grant.None? {
      return Gone;
    }
    status := Approved(claims[claim].grant.value.blob);
  }
}
