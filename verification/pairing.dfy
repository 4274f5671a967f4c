/** Pairing tokens and daemon keys: who a credential identifies, and for how long. */
module Pairing {
  import opened Wrappers
  import opened Tables
  import opened Connections

  // ---------------------------------------------------------------- over every journal

  /** No row carries this token now, and none ever will: it was drawn before. */
  ghost predicate TokenRetired(s: Store, token: Credential) {
    token in s.issued && forall d | d in s.tables.daemons :: s.tables.daemons[d].tokenHash != Some(Hash(token))
  }

  lemma TokenStaysRetired(s: Store, st: Statement, token: Credential)
    requires TokenRetired(s, token)
    ensures TokenRetired(Commit(s, st).0, token)
  {
  }

  lemma {:induction false} TokenRetiredForGood(s: Store, run: seq<Statement>, token: Credential)
    requires TokenRetired(s, token)
    ensures TokenRetired(Run(s, run), token)
    decreases |run|
  {
    hide Commit, TokenRetired;
    if run != [] {
      TokenStaysRetired(s, run[0], token);
      TokenRetiredForGood(Commit(s, run[0]).0, run[1..], token);
    }
  }

  lemma SpendingRetires(s: Store, st: Statement)
    requires Sound(s) && st.Spend? && Commit(s, st).1 == Hit
    ensures TokenRetired(Commit(s, st).0, st.presented.of)
  {
    assert Holds(s.tables.daemons[st.rowId], st.presented.of);
  }

  lemma RetiredIsNotSpent(s: Store, st: Statement)
    requires st.Spend? && TokenRetired(s, st.presented.of)
    ensures Commit(s, st).1 != Hit
  {
  }

  /** However any number of claims of a token interleave with each other and with rotations,
      approvals and deletions, at most one of their guarded updates finds it still there. */
  lemma TokenIsSpentOnce(start: Store, journal: seq<Statement>, i: nat, j: nat)
    requires Sound(start) && i <= j < |journal| && journal[i].Spend? && journal[j].Spend?
    requires journal[i].presented == journal[j].presented
    requires Won(start, journal, i) && Won(start, journal, j)
    ensures i == j
  {
    if i < j {
      var at, token := Run(start, journal[..i]), journal[i].presented.of;
      RunKeepsSound(start, journal[..i]);
      SpendingRetires(at, journal[i]);
      TokenRetiredForGood(Commit(at, journal[i]).0, journal[i + 1..j], token);
      RunFrom(start, journal, i, j);
      RetiredIsNotSpent(Run(start, journal[..j]), journal[j]);
    }
  }

  /** A key leaves its row only by these: the row is rotated or deleted, or a later approval of
      the same rack takes the name back from a row that never connected. */
  predicate Revokes(s: Store, st: Statement, rowId: nat) {
    Commit(s, st).1 == Hit &&
    match st
    case Rotate(d, _) => d == rowId
    case DropDaemon(d) => d == rowId
    case Approve(claim, _, _, _) =>
      Pending(s.tables, claim) && rowId in Uncollected(s.tables, s.tables.claims[claim])
    case _ => false
  }

  ghost predicate KeyOn(s: Store, rowId: nat, key: Credential) {
    rowId in s.tables.daemons && s.tables.daemons[rowId].keyHash == Some(Hash(key))
  }

  /** Nobody holds the key, and nobody will. */
  ghost predicate KeyRetired(s: Store, key: Credential) {
    key in s.issued && forall d | d in s.tables.daemons :: s.tables.daemons[d].keyHash != Some(Hash(key))
  }

  lemma KeyHeldOrRevoked(s: Store, st: Statement, rowId: nat, key: Credential)
    requires Sound(s) && KeyOn(s, rowId, key)
    ensures if Revokes(s, st, rowId) then KeyRetired(Commit(s, st).0, key) else KeyOn(Commit(s, st).0, rowId, key)
  {
    var before, after := s.tables.daemons, Commit(s, st).0.tables.daemons;
    assert Holds(before[rowId], key);
    KeyComesFrom(s, st, key);
    if Revokes(s, st, rowId) {
      if d :| d in after && after[d].keyHash == Some(Hash(key)) {
        assert d in before && Holds(before[d], key);
        RevokedRowLosesKey(s, st, rowId, key);
        assert false;
      }
    } else {
      UnrevokedRowKeepsKey(s, st, rowId, key);
    }
  }

  lemma KeyComesFrom(s: Store, st: Statement, key: Credential)
    requires key in s.issued
    ensures key in Commit(s, st).0.issued
    ensures var before, after := s.tables.daemons, Commit(s, st).0.tables.daemons;
            forall d | d in after && after[d].keyHash == Some(Hash(key)) ::
              d in before && before[d].keyHash == Some(Hash(key))
  {
  }

  lemma RevokedRowLosesKey(s: Store, st: Statement, rowId: nat, key: Credential)
    requires Revokes(s, st, rowId) && key in s.issued
    ensures var after := Commit(s, st).0.tables.daemons; rowId in after ==> after[rowId].keyHash != Some(Hash(key))
  {
  }

  lemma UnrevokedRowKeepsKey(s: Store, st: Statement, rowId: nat, key: Credential)
    requires Sound(s) && KeyOn(s, rowId, key) && !Revokes(s, st, rowId)
    ensures KeyOn(Commit(s, st).0, rowId, key)
  {
  }

  lemma KeyStaysRetired(s: Store, st: Statement, key: Credential)
    requires KeyRetired(s, key)
    ensures KeyRetired(Commit(s, st).0, key)
  {
  }

  lemma {:induction false} KeyRetiredForGood(s: Store, run: seq<Statement>, key: Credential)
    requires KeyRetired(s, key)
    ensures KeyRetired(Run(s, run), key)
    decreases |run|
  {
    hide Commit, KeyRetired;
    if run != [] {
      KeyStaysRetired(s, run[0], key);
      KeyRetiredForGood(Commit(s, run[0]).0, run[1..], key);
    }
  }

  /** Whether any statement of a run takes the key from its row. */
  ghost predicate Revoked(s: Store, run: seq<Statement>, rowId: nat) {
    exists m | 0 <= m < |run| :: Revokes(Run(s, run[..m]), run[m], rowId)
  }

  lemma {:induction false} KeyLastsARun(s: Store, run: seq<Statement>, rowId: nat, key: Credential)
    requires Sound(s) && KeyOn(s, rowId, key)
    ensures if Revoked(s, run, rowId) then KeyRetired(Run(s, run), key) else KeyOn(Run(s, run), rowId, key)
    decreases |run|
  {
    hide Commit, Sound, Revokes, KeyOn, KeyRetired;
    if run == [] {
      return;
    }
    var next := Commit(s, run[0]).0;
    assert run[..0] == [];
    KeyHeldOrRevoked(s, run[0], rowId, key);
    if Revokes(s, run[0], rowId) {
      assert Revokes(Run(s, run[..0]), run[0], rowId);
      KeyRetiredForGood(next, run[1..], key);
    } else {
      CommitKeepsSound(s, run[0]);
      KeyLastsARun(next, run[1..], rowId, key);
      RevokedLater(s, run, rowId);
    }
  }

  lemma RevokedLater(s: Store, run: seq<Statement>, rowId: nat)
    requires run != [] && !Revokes(s, run[0], rowId)
    ensures Revoked(s, run, rowId) <==> Revoked(Commit(s, run[0]).0, run[1..], rowId)
  {
    hide Commit, Revokes;
    var next := Commit(s, run[0]).0;
    forall m: nat | m < |run| - 1 ensures Run(s, run[..m + 1]) == Run(next, run[1..][..m]) {
      assert run[..m + 1][0] == run[0] && run[..m + 1][1..] == run[1..][..m];
    }
    if Revoked(s, run, rowId) {
      var m :| 0 <= m < |run| && Revokes(Run(s, run[..m]), run[m], rowId);
      assert run[..0] == [];
      assert Revokes(Run(next, run[1..][..m - 1]), run[1..][m - 1], rowId);
    }
    if Revoked(next, run[1..], rowId) {
      var m :| 0 <= m < |run[1..]| && Revokes(Run(next, run[1..][..m]), run[1..][m], rowId);
      assert Revokes(Run(s, run[..m + 1]), run[m + 1], rowId);
    }
  }

  /** The statements that put a key on a row. */
  predicate Issues(st: Statement) {
    st.Spend? || st.Approve?
  }

  lemma IssuingWrites(s: Store, st: Statement)
    requires Issues(st) && Commit(s, st).1 == Hit
    ensures KeyOn(Commit(s, st).0, st.rowId, st.key)
  {
  }

  /** The key of the winner, of a token or of an approval, is its row's key at a later moment
      exactly when nothing in between revoked it, and once revoked it is no row's key again. */
  lemma KeyLastsExactlyUntilRevoked(start: Store, journal: seq<Statement>, i: nat, j: nat)
    requires Sound(start) && i < j <= |journal| && Issues(journal[i]) && Won(start, journal, i)
    ensures var now, rowId, key := Run(start, journal[..j]), journal[i].rowId, journal[i].key;
            var revoked := Revoked(Run(start, journal[..i + 1]), journal[i + 1..j], rowId);
            && (KeyOn(now, rowId, key) <==> !revoked)
            && (revoked ==> KeyRetired(now, key))
  {
    hide Commit, Sound, Revokes;
    var at, st := Run(start, journal[..i]), journal[i];
    RunKeepsSound(start, journal[..i]);
    IssuingWrites(at, st);
    CommitKeepsSound(at, st);
    KeyLastsARun(Commit(at, st).0, journal[i + 1..j], st.rowId, st.key);
    RunFrom(start, journal, i, j);
    assert journal[..i + 1] == journal[..i] + [st];
    RunExtends(start, journal[..i], st);
  }

  /** At any moment of any run, a row holds at most one credential and a credential is held by
      at most one row, whether as a token or as a key. */
  lemma CredentialNamesOneRow(start: Store, run: seq<Statement>)
    requires Sound(start)
    ensures var daemons := Run(start, run).tables.daemons;
            && (forall d | d in daemons :: daemons[d].tokenHash.None? || daemons[d].keyHash.None?)
            && (forall a, b, c | a in daemons && b in daemons && Holds(daemons[a], c) && Holds(daemons[b], c) :: a == b)
  {
    RunKeepsSound(start, run);
  }

  // ---------------------------------------------------------------- the calls

  datatype Column = TokenHash | KeyHash

  function Cell(d: Daemon, column: Column): Option<Hash> {
    if column.TokenHash? then d.tokenHash else d.keyHash
  }

  datatype Candidate = Candidate(id: nat, fingerprint: Hash)

  /** What the SELECT returns, in whatever order: the rows whose column is not NULL. */
  ghost predicate Selects(rows: seq<Candidate>, daemons: map<nat, Daemon>, column: Column) {
    && (forall r | r in rows :: r.id in daemons && Cell(daemons[r.id], column) == Some(r.fingerprint))
    && (forall d | d in daemons && Cell(daemons[d], column).Some? ::
          Candidate(d, Cell(daemons[d], column).value) in rows)
  }

  method Select(daemons: map<nat, Daemon>, column: Column) returns (rows: seq<Candidate>)
    ensures Selects(rows, daemons, column)
  {
    rows := [];
    var left := daemons.Keys;
    while left != {}
      invariant left <= daemons.Keys
      invariant forall r | r in rows :: r.id in daemons && Cell(daemons[r.id], column) == Some(r.fingerprint)
      invariant forall d | d in daemons && d !in left && Cell(daemons[d], column).Some? ::
                  Candidate(d, Cell(daemons[d], column).value) in rows
      decreases |left|
    {
      var d :| d in left;
      left := left - {d};
      if Cell(daemons[d], column).Some? {
        rows := rows + [Candidate(d, Cell(daemons[d], column).value)];
        assert rows[|rows| - 1] == Candidate(d, Cell(daemons[d], column).value);
      }
    }
  }

  /** The scan answers the row that carries the fingerprint, and `None` only when none does. */
  method MatchingId(rows: seq<Candidate>, presented: Hash) returns (id: Option<nat>)
    ensures id.Some? ==> Candidate(id.value, presented) in rows
    ensures id.None? ==> forall r | r in rows :: r.fingerprint != presented
  {
    for k := 0 to |rows|
      invariant forall r | r in rows[..k] :: r.fingerprint != presented
    {
      if rows[k].fingerprint == presented {
        return Some(rows[k].id);
      }
    }
    return None;
  }

  method AuthenticateKey(db: Database, key: Option<Credential>) returns (id: Option<nat>)
    requires db.Valid()
    ensures id.Some? <==> key.Some? && exists d :: KeyOn(db.store, d, key.value)
    ensures id.Some? ==> forall d | KeyOn(db.store, d, key.value) :: d == id.value
  {
    if key.None? {
      return None;
    }
    RunKeepsSound(db.start, db.journal);
    var presented := Hash(key.value);
    var rows := Select(db.store.tables.daemons, KeyHash);
    assert forall d | KeyOn(db.store, d, key.value) :: Candidate(d, presented) in rows;
    id := MatchingId(rows, presented);
    if id.Some? {
      assert KeyOn(db.store, id.value, key.value);
      forall d | KeyOn(db.store, d, key.value) ensures d == id.value {
        assert Holds(db.store.tables.daemons[d], key.value);
        assert Holds(db.store.tables.daemons[id.value], key.value);
      }
    }
  }

  ghost predicate TokenOn(s: Store, rowId: nat, token: Credential) {
    rowId in s.tables.daemons && s.tables.daemons[rowId].tokenHash == Some(Hash(token))
  }

  /** The scan, then whatever other sockets commit meanwhile, then the guarded update. An answer
      is a won update; run alone, the call succeeds exactly when some row carries the token. */
  method ClaimToken(db: Database, token: Option<Credential>, key: Credential, meanwhile: seq<Statement>)
    returns (claimed: Option<nat>)
    requires db.Valid()
    modifies db
    ensures db.Valid() && old(db.journal) <= db.journal
    ensures claimed.Some? ==>
              && token.Some?
              && db.journal == old(db.journal) + meanwhile + [Spend(claimed.value, Hash(token.value), key)]
              && Won(db.start, db.journal, |db.journal| - 1) && KeyOn(db.store, claimed.value, key)
              && db.store.tables.daemons[claimed.value].paired && db.store.tables.daemons[claimed.value].tokenHash.None?
    ensures claimed.None? && token.Some? && |db.journal| > |old(db.journal)| + |meanwhile| ==>
              !Won(db.start, db.journal, |db.journal| - 1)
    ensures token.None? ==> claimed.None? && db.store == old(db.store)
    ensures token.Some? && meanwhile == [] && key !in old(db.store.issued) ==>
              && (claimed.Some? <==> exists d :: TokenOn(old(db.store), d, token.value))
              && (claimed.Some? ==> TokenOn(old(db.store), claimed.value, token.value))
              && (claimed.None? ==> db.store == old(db.store))
  {
    hide Sound;
    if token.None? {
      return None;
    }
    var presented := Hash(token.value);
    var rows := Select(db.store.tables.daemons, TokenHash);
    var id := MatchingId(rows, presented);
    if id.None? {
      assert forall d | TokenOn(db.store, d, token.value) :: Candidate(d, presented) in rows;
      return None;
    }
    assert TokenOn(db.store, id.value, token.value);
    db.Others(meanwhile);
    ghost var journal := db.journal;
    var answer := db.Do(Spend(id.value, presented, key));
    assert db.journal[..|db.journal| - 1] == journal;
    claimed := if answer == Hit then id else None;
  }

  /** Rotation in one statement: the key is gone and the new token is the row's only credential. */
  method RotateKey(db: Database, rowId: nat, token: Credential) returns (ok: bool)
    requires db.Valid() && token !in db.store.issued
    modifies db
    ensures db.Valid() && db.journal == old(db.journal) + [Rotate(rowId, token)]
    ensures ok <==> rowId in old(db.store.tables.daemons)
    ensures !ok ==> db.store.tables == old(db.store.tables)
    ensures ok ==>
              && TokenOn(db.store, rowId, token) && !db.store.tables.daemons[rowId].paired
              && forall c | c != token :: !Holds(db.store.tables.daemons[rowId], c)
    ensures forall d | d in old(db.store.tables.daemons) && d != rowId ::
              d in db.store.tables.daemons && db.store.tables.daemons[d] == old(db.store.tables.daemons[d])
  {
    hide Sound;
    var answer := db.Do(Rotate(rowId, token));
    ok := answer == Hit;
  }

  /** A new row carries the token and nothing else; a taken name changes nothing. */
  method MintToken(db: Database, name: Name, rowId: nat, token: Credential) returns (ok: bool)
    requires db.Valid() && token !in db.store.issued && rowId !in db.store.tables.daemons
    modifies db
    ensures db.Valid() && db.journal == old(db.journal) + [Mint(rowId, name, token)]
    ensures ok <==> !NameTaken(old(db.store.tables), name)
    ensures !ok ==> db.store.tables == old(db.store.tables)
    ensures ok ==>
              && db.store.tables == old(db.store.tables).(daemons := db.store.tables.daemons)
              && db.store.tables.daemons.Keys == old(db.store.tables.daemons.Keys) + {rowId}
              && db.store.tables.daemons[rowId] == Daemon(name, Some(Hash(token)), None, false, false, None)
              && forall d | d in old(db.store.tables.daemons) ::
                   db.store.tables.daemons[d] == old(db.store.tables.daemons[d])
  {
    hide Sound;
    var answer := db.Do(Mint(rowId, name, token));
    ok := answer == Hit;
  }
}
