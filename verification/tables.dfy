/** The server's SQLite tables as joining and pairing use them: the schema's constraints, and
    every statement that writes a claim, a credential or a suppression, as one atomic step. */
module Tables {
  import opened Wrappers

  const MAX_PENDING := 32
  const CLAIM_LIFETIME_S := 1800.0
  const DENY_SUPPRESSION_S := 86400.0

  /** A token or a key: 192 or 256 random bits, so each draw is a new value. */
  datatype Credential = Credential(serial: nat)

  /** SHA-256 over a random credential, taken as injective. */
  datatype Hash = Hash(of: Credential)

  /** The SHA-256 of a rack's identity secret. */
  datatype Fingerprint = Fingerprint(hex: string)

  /** A hostname, and the unique name of a daemon row. */
  datatype Name = Name(text: string)

  datatype SecretKey = SecretKey(serial: nat)

  datatype PublicKey = PublicHalf(of: SecretKey)

  /** A key sealed to a public key: it opens with that key's private half and no other. */
  datatype Blob = Sealed(key: Credential, to: PublicKey)

  function Open(blob: Blob, secret: SecretKey): Option<Credential> {
    if blob.to == PublicHalf(secret) then Some(blob.key) else None
  }

  /** `granted_at`, `granted_key` and `daemon_id`, which one UPDATE writes together. */
  datatype Grant = Grant(at: real, blob: Blob, daemonId: nat)

  datatype Claim = Claim(hostname: Name, address: string, fingerprint: Fingerprint, version: string,
                         publicKey: PublicKey, firstSeen: real, grant: Option<Grant>)

  /** `connected` is `last_seen IS NOT NULL`. */
  datatype Daemon = Daemon(name: Name, tokenHash: Option<Hash>, keyHash: Option<Hash>,
                           paired: bool, connected: bool, claimFingerprint: Option<Fingerprint>)

  /** `screens` maps a screen row to the daemon row it cascades from. */
  datatype Tables = Tables(claims: map<nat, Claim>, daemons: map<nat, Daemon>,
                           denied: map<Fingerprint, real>, screens: map<nat, nat>)

  /** Every statement that writes. `Approve` is the one `BEGIN IMMEDIATE` transaction; the rest
      commit as they run. `Seen` is the write a websocket session makes. */
  datatype Statement =
    | ExpirePending(now: real)
    | ExpireGranted(now: real)
    | ExpireDenied(now: real)
    | Refresh(claim: nat, address: string, version: string, publicKey: PublicKey)
    | Insert(claim: nat, row: Claim)
    | Approve(claim: nat, now: real, key: Credential, rowId: nat)
    | Take(claim: nat)
    | Suppress(fingerprint: Fingerprint, now: real)
    | Mint(rowId: nat, name: Name, token: Credential)
    | Rotate(rowId: nat, token: Credential)
    | Spend(rowId: nat, presented: Hash, key: Credential)
    | Seen(rowId: nat)
    | AddScreen(screen: nat, rowId: nat)
    | DropDaemon(rowId: nat)

  /** `Hit` is a statement that did its work, `Miss` one whose WHERE found nothing, `Clash` one
      a unique index refused. Only a hit changes anything. */
  datatype Answer = Hit | Miss | Clash

  predicate Pending(t: Tables, claim: nat) {
    claim in t.claims && t.claims[claim].grant.None?
  }

  function PendingIds(t: Tables): set<nat> {
    set id | id in t.claims && t.claims[id].grant.None?
  }

  predicate NameTaken(t: Tables, name: Name) {
    exists d | d in t.daemons :: t.daemons[d].name == name
  }

  predicate FingerprintPending(t: Tables, fingerprint: Fingerprint) {
    exists id | id in t.claims :: t.claims[id].grant.None? && t.claims[id].fingerprint == fingerprint
  }

  /** A daemon row and everything that references it `ON DELETE CASCADE`. */
  function Without(t: Tables, rows: set<nat>): Tables {
    t.(daemons := t.daemons - rows,
       claims := map id | id in t.claims
                   && (t.claims[id].grant.Some? ==> t.claims[id].grant.value.daemonId !in rows)
                 :: t.claims[id],
       screens := map s | s in t.screens && t.screens[s] !in rows :: t.screens[s])
  }

  /** The rows a grant reclaims the name from: this rack's, under this name, never connected. */
  function Uncollected(t: Tables, claim: Claim): set<nat> {
    set d | d in t.daemons && t.daemons[d].name == claim.hostname && !t.daemons[d].connected
      && t.daemons[d].claimFingerprint == Some(claim.fingerprint)
  }

  function ApproveTransaction(t: Tables, claim: nat, now: real, key: Credential, rowId: nat): (Tables, Answer) {
    if !Pending(t, claim) then (t, Miss)
    else
      var row := t.claims[claim];
      var cleared := Without(t, Uncollected(t, row));
      if NameTaken(cleared, row.hostname) then (t, Clash)
      else
        var minted := Daemon(row.hostname, None, Some(Hash(key)), true, false, Some(row.fingerprint));
        var grant := Grant(now, Sealed(key, row.publicKey), rowId);
        (cleared.(daemons := cleared.daemons[rowId := minted],
                  claims := cleared.claims[claim := row.(grant := Some(grant))]), Hit)
  }

  function Execute(t: Tables, s: Statement): (Tables, Answer) {
    match s
    case ExpirePending(now) =>
      (t.(claims := map id | id in t.claims
                      && (t.claims[id].grant.None? ==> t.claims[id].firstSeen > now - CLAIM_LIFETIME_S)
                    :: t.claims[id]), Hit)
    case ExpireGranted(now) =>
      (t.(claims := map id | id in t.claims
                      && (t.claims[id].grant.Some? ==> t.claims[id].grant.value.at > now - CLAIM_LIFETIME_S)
                    :: t.claims[id]), Hit)
    case ExpireDenied(now) =>
      (t.(denied := map f | f in t.denied && t.denied[f] > now - DENY_SUPPRESSION_S :: t.denied[f]), Hit)
    case Refresh(id, address, version, publicKey) =>
      if id !in t.claims then (t, Miss)
      else
        var row := t.claims[id].(address := address, version := version, publicKey := publicKey);
        (t.(claims := t.claims[id := row]), Hit)
    case Insert(id, row) =>
      if FingerprintPending(t, row.fingerprint) then (t, Clash)
      else (t.(claims := t.claims[id := row]), Hit)
    case Approve(id, now, key, rowId) => ApproveTransaction(t, id, now, key, rowId)
    case Take(id) =>
      if Pending(t, id) then (t.(claims := t.claims - {id}), Hit) else (t, Miss)
    case Suppress(fingerprint, now) => (t.(denied := t.denied[fingerprint := now]), Hit)
    case Mint(rowId, name, token) =>
      if NameTaken(t, name) then (t, Clash)
      else
        (t.(daemons := t.daemons[rowId := Daemon(name, Some(Hash(token)), None, false, false, None)]), Hit)
    case Rotate(rowId, token) =>
      if rowId !in t.daemons then (t, Miss)
      else
        var row := t.daemons[rowId].(keyHash := None, tokenHash := Some(Hash(token)), paired := false);
        (t.(daemons := t.daemons[rowId := row]), Hit)
    case Spend(rowId, presented, key) =>
      if rowId in t.daemons && t.daemons[rowId].tokenHash == Some(presented) then
        var row := t.daemons[rowId].(tokenHash := None, keyHash := Some(Hash(key)), paired := true);
        (t.(daemons := t.daemons[rowId := row]), Hit)
      else (t, Miss)
    case Seen(rowId) =>
      if rowId !in t.daemons then (t, Miss)
      else (t.(daemons := t.daemons[rowId := t.daemons[rowId].(connected := true)]), Hit)
    case AddScreen(screen, rowId) =>
      if rowId !in t.daemons then (t, Clash) else (t.(screens := t.screens[screen := rowId]), Hit)
    case DropDaemon(rowId) =>
      if rowId !in t.daemons then (t, Miss) else (Without(t, {rowId}), Hit)
  }

  ghost predicate UniqueNames(t: Tables) {
    forall a, b | a in t.daemons && b in t.daemons && t.daemons[a].name == t.daemons[b].name :: a == b
  }

  /** `claim_pending_fingerprint`, the partial unique index. */
  ghost predicate UniquePending(t: Tables) {
    forall a, b | Pending(t, a) && Pending(t, b) && t.claims[a].fingerprint == t.claims[b].fingerprint :: a == b
  }

  /** The CHECK on the two credential columns, and the two foreign keys. */
  ghost predicate Constraints(t: Tables) {
    && (forall d | d in t.daemons :: t.daemons[d].tokenHash.None? || t.daemons[d].keyHash.None?)
    && (forall id | id in t.claims && t.claims[id].grant.Some? ::
          t.claims[id].grant.value.daemonId in t.daemons)
    && (forall s | s in t.screens :: t.screens[s] in t.daemons)
  }

  ghost predicate Schema(t: Tables) {
    UniqueNames(t) && UniquePending(t) && Constraints(t)
  }

  /** The tables, and everything random that was ever written into them. */
  datatype Store = Store(tables: Tables, issued: set<Credential>, filed: set<nat>)

  predicate Holds(d: Daemon, c: Credential) {
    d.tokenHash == Some(Hash(c)) || d.keyHash == Some(Hash(c))
  }

  ghost predicate Sound(s: Store) {
    && Schema(s.tables)
    && s.tables.claims.Keys <= s.filed
    && (forall d, c | d in s.tables.daemons && Holds(s.tables.daemons[d], c) :: c in s.issued)
    && (forall a, b, c | a in s.tables.daemons && b in s.tables.daemons
          && Holds(s.tables.daemons[a], c) && Holds(s.tables.daemons[b], c) :: a == b)
  }

  /** Random values are new, and a new row takes an id no row holds. SQLite may reuse the id of
      a row that is gone, so "no row holds it" is all that may be assumed. */
  predicate Legal(s: Store, st: Statement) {
    match st
    case Insert(id, row) => id !in s.filed && row.grant.None?
    case Approve(id, _, key, rowId) =>
      key !in s.issued
      && (Pending(s.tables, id) ==>
            rowId !in s.tables.daemons || rowId in Uncollected(s.tables, s.tables.claims[id]))
    case Mint(rowId, _, token) => token !in s.issued && rowId !in s.tables.daemons
    case Rotate(_, token) => token !in s.issued
    case Spend(_, _, key) => key !in s.issued
    case AddScreen(screen, _) => screen !in s.tables.screens
    case _ => true
  }

  /** What has never been drawn, and a row nobody holds, may be written. */
  lemma NewMayBeWritten(s: Store, st: Statement)
    requires st.Insert? ==> st.claim !in s.filed && st.row.grant.None?
    requires st.Approve? || st.Spend? ==> st.key !in s.issued
    requires st.Mint? || st.Rotate? ==> st.token !in s.issued
    requires st.Approve? || st.Mint? ==> st.rowId !in s.tables.daemons
    requires st.AddScreen? ==> st.screen !in s.tables.screens
    ensures Legal(s, st)
  {
  }

  function Written(st: Statement): set<Credential> {
    match st
    case Approve(_, _, key, _) => {key}
    case Mint(_, _, token) => {token}
    case Rotate(_, token) => {token}
    case Spend(_, _, key) => {key}
    case _ => {}
  }

  /** One statement, as every connection sees it. One that draws a value it may not is skipped. */
  function Commit(s: Store, st: Statement): (Store, Answer) {
    if !Legal(s, st) then (s, Miss)
    else
      var (t, answer) := Execute(s.tables, st);
      (Store(t, s.issued + Written(st), s.filed + if st.Insert? then {st.claim} else {}), answer)
  }

  function Run(s: Store, run: seq<Statement>): Store
    decreases |run|
  {
    if run == [] then s else Run(Commit(s, run[0]).0, run[1..])
  }

  // ---------------------------------------------------------------- every statement

  /** A name a row carries it carried before, unless the statement has just given it one
      that nobody else has. */
  lemma NamedBefore(t: Tables, st: Statement, d: nat)
    requires Execute(t, st).1 == Hit && d in Execute(t, st).0.daemons
    ensures var after := Execute(t, st).0;
            if (st.Approve? || st.Mint?) && d == st.rowId
            then forall other | other in after.daemons && other != d ::
              after.daemons[other].name != after.daemons[d].name
            else d in t.daemons && t.daemons[d].name == after.daemons[d].name
  {
  }

  /** A claim that is pending was pending before, unless it has just been inserted under a
      fingerprint that nobody else waits under. */
  lemma PendingBefore(t: Tables, st: Statement, id: nat)
    requires Execute(t, st).1 == Hit && Pending(Execute(t, st).0, id)
    requires st.Insert? ==> st.claim !in t.claims
    ensures var after := Execute(t, st).0;
            if st.Insert? && id == st.claim
            then !FingerprintPending(t, after.claims[id].fingerprint)
            else Pending(t, id) && t.claims[id].fingerprint == after.claims[id].fingerprint
  {
  }

  lemma ConstraintsHold(t: Tables, st: Statement)
    requires Constraints(t) && (st.Insert? ==> st.row.grant.None?)
    ensures Constraints(Execute(t, st).0)
  {
  }

  lemma OnlyHitsChange(t: Tables, st: Statement)
    requires Execute(t, st).1 != Hit
    ensures Execute(t, st).0 == t
  {
  }

  lemma StatementKeepsSchema(t: Tables, st: Statement)
    requires Schema(t) && (st.Insert? ==> st.row.grant.None? && st.claim !in t.claims)
    ensures Schema(Execute(t, st).0)
  {
    hide Execute, Constraints;
    ConstraintsHold(t, st);
    var after := Execute(t, st).0;
    if Execute(t, st).1 != Hit {
      OnlyHitsChange(t, st);
      return;
    }
    forall a, b | a in after.daemons && b in after.daemons && after.daemons[a].name == after.daemons[b].name
      ensures a == b
    {
      NamedBefore(t, st, a);
      NamedBefore(t, st, b);
    }
    forall a, b | Pending(after, a) && Pending(after, b) && after.claims[a].fingerprint == after.claims[b].fingerprint
      ensures a == b
    {
      PendingBefore(t, st, a);
      PendingBefore(t, st, b);
    }
  }

  /** A credential a row holds was held by that row before, or has just been written to it. */
  lemma HeldBefore(t: Tables, st: Statement, d: nat, c: Credential)
    requires d in Execute(t, st).0.daemons && Holds(Execute(t, st).0.daemons[d], c)
    ensures (d in t.daemons && Holds(t.daemons[d], c))
            || (c in Written(st) && (st.Approve? || st.Mint? || st.Rotate? || st.Spend?) && d == st.rowId)
  {
  }

  lemma KeysAreFiled(s: Store, st: Statement)
    requires s.tables.claims.Keys <= s.filed
    ensures Commit(s, st).0.tables.claims.Keys <= Commit(s, st).0.filed
  {
  }

  lemma CommitKeepsSound(s: Store, st: Statement)
    requires Sound(s)
    ensures Sound(Commit(s, st).0)
  {
    KeysAreFiled(s, st);
    if Legal(s, st) {
      StatementKeepsSchema(s.tables, st);
      hide Execute, Schema, Holds;
      var after := Commit(s, st).0;
      var now := after.tables.daemons;
      forall d, c | d in now && Holds(now[d], c) ensures c in after.issued {
        HeldBefore(s.tables, st, d, c);
      }
      forall a, b, c | a in now && b in now && Holds(now[a], c) && Holds(now[b], c) ensures a == b {
        HeldBefore(s.tables, st, a, c);
        HeldBefore(s.tables, st, b, c);
      }
    }
  }

  lemma {:induction false} RunKeepsSound(s: Store, run: seq<Statement>)
    requires Sound(s)
    ensures Sound(Run(s, run))
    decreases |run|
  {
    if run != [] {
      CommitKeepsSound(s, run[0]);
      RunKeepsSound(Commit(s, run[0]).0, run[1..]);
    }
  }

  lemma {:induction false} RunExtends(s: Store, run: seq<Statement>, st: Statement)
    ensures Run(s, run + [st]) == Commit(Run(s, run), st).0
    decreases |run|
  {
    if run == [] {
      assert run + [st] == [st];
      assert [st][1..] == [];
    } else {
      assert (run + [st])[1..] == run[1..] + [st];
      RunExtends(Commit(s, run[0]).0, run[1..], st);
    }
  }
}
