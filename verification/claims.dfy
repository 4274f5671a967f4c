/** The queue between a rack that has never been paired and an administrator's click. */
module Claims {
  import opened Wrappers
  import opened Tables
  import opened Connections

  // ---------------------------------------------------------------- races

  /** The row a claim id stands for is settled: granted with these words, or gone for good. */
  predicate Settled(s: Store, claim: nat, was: Option<Claim>) {
    && claim in s.filed && !Pending(s.tables, claim)
    && (claim in s.tables.claims ==>
          was.Some? && s.tables.claims[claim].grant == was.value.grant
          && s.tables.claims[claim].fingerprint == was.value.fingerprint)
  }

  lemma SettledStays(s: Store, st: Statement, claim: nat, was: Option<Claim>)
    requires Sound(s) && Settled(s, claim, was)
    ensures Settled(Commit(s, st).0, claim, was)
  {
  }

  lemma {:induction false} SettledForGood(s: Store, run: seq<Statement>, claim: nat, was: Option<Claim>)
    requires Sound(s) && Settled(s, claim, was)
    ensures Settled(Run(s, run), claim, was)
    decreases |run|
  {
    hide Commit, Sound, Settled;
    if run != [] {
      SettledStays(s, run[0], claim, was);
      CommitKeepsSound(s, run[0]);
      SettledForGood(Commit(s, run[0]).0, run[1..], claim, was);
    }
  }

  function RowOf(s: Store, claim: nat): Option<Claim> {
    if claim in s.tables.claims then Some(s.tables.claims[claim]) else None
  }

  lemma WinningSettles(s: Store, st: Statement)
    requires Sound(s) && (st.Approve? || st.Take?) && Commit(s, st).1 == Hit
    ensures Settled(Commit(s, st).0, st.claim, RowOf(Commit(s, st).0, st.claim))
  {
  }

  lemma SettledIsNotDecided(s: Store, st: Statement, was: Option<Claim>)
    requires (st.Approve? || st.Take?) && Settled(s, st.claim, was)
    ensures Commit(s, st).1 != Hit
  {
  }

  /** However the statements of any number of calls interleave, at most one approval or denial
      of a claim ever wins. */
  lemma AtMostOneDecisionWins(start: Store, journal: seq<Statement>, i: nat, j: nat, claim: nat)
    requires Sound(start) && i < |journal| && j < |journal|
    requires (journal[i].Approve? || journal[i].Take?) && journal[i].claim == claim
    requires (journal[j].Approve? || journal[j].Take?) && journal[j].claim == claim
    requires Won(start, journal, i) && Won(start, journal, j)
    ensures i == j
  {
    if i < j {
      LaterDecisionLoses(start, journal, i, j, claim);
    } else if j < i {
      LaterDecisionLoses(start, journal, j, i, claim);
    }
  }

  lemma LaterDecisionLoses(start: Store, journal: seq<Statement>, i: nat, j: nat, claim: nat)
    requires Sound(start) && i < j < |journal|
    requires (journal[i].Approve? || journal[i].Take?) && journal[i].claim == claim && Won(start, journal, i)
    requires (journal[j].Approve? || journal[j].Take?) && journal[j].claim == claim
    ensures !Won(start, journal, j)
  {
    var at, after := Run(start, journal[..i]), Commit(Run(start, journal[..i]), journal[i]).0;
    RunKeepsSound(start, journal[..i]);
    WinningSettles(at, journal[i]);
    CommitKeepsSound(at, journal[i]);
    SettledForGood(after, journal[i + 1..j], claim, RowOf(after, claim));
    RunFrom(start, journal, i, j);
    SettledIsNotDecided(Run(start, journal[..j]), journal[j], RowOf(after, claim));
  }

  /** A grant is final: from the approval on, the row carries that approval's blob and daemon,
      or is gone. */
  lemma GrantIsFinal(start: Store, journal: seq<Statement>, i: nat, j: nat)
    requires Sound(start) && i < j <= |journal| && journal[i].Approve? && Won(start, journal, i)
    ensures var claim, later := journal[i].claim, Run(start, journal[..j]).tables.claims;
            claim in later ==>
              && later[claim].grant.Some?
              && later[claim].grant.value.daemonId == journal[i].rowId
              && later[claim].grant.value.blob
                 == Sealed(journal[i].key, Run(start, journal[..i]).tables.claims[claim].publicKey)
  {
    var at, st := Run(start, journal[..i]), journal[i];
    var after := Commit(at, st).0;
    RunKeepsSound(start, journal[..i]);
    WinningSettles(at, st);
    ApproveReclaimsOnlyItsOwn(at, st);
    CommitKeepsSound(at, st);
    SettledForGood(after, journal[i + 1..j], st.claim, RowOf(after, st.claim));
    RunFrom(start, journal, i, j);
    hide Commit, Sound;
  }

  /** What a successful approval may take away: only a daemon row of this name and this
      fingerprint that never connected, and only what hangs off such a row. */
  lemma ApproveReclaimsOnlyItsOwn(s: Store, st: Statement)
    requires Sound(s) && st.Approve? && Commit(s, st).1 == Hit
    ensures st.claim in s.tables.claims
    ensures var t, after := s.tables, Commit(s, st).0.tables;
            var row := t.claims[st.claim];
            && Pending(t, st.claim)
            && after.daemons[st.rowId] ==
               Daemon(row.hostname, None, Some(Hash(st.key)), true, false, Some(row.fingerprint))
            && after.claims[st.claim].grant == Some(Grant(st.now, Sealed(st.key, row.publicKey), st.rowId))
            && (forall d | d in t.daemons && (d !in after.daemons || after.daemons[d] != t.daemons[d]) ::
                  && !t.daemons[d].connected && t.daemons[d].name == row.hostname
                  && t.daemons[d].claimFingerprint == Some(row.fingerprint))
            && (forall d | d in t.daemons && t.daemons[d].name == row.hostname && d != st.rowId :: d !in after.daemons)
            && (forall x | x in t.screens && x !in after.screens ::
                  !t.daemons[t.screens[x]].connected
                  && t.daemons[t.screens[x]].claimFingerprint == Some(row.fingerprint))
            && (forall c | c in t.claims && c !in after.claims ::
                  t.claims[c].grant.Some? && !t.daemons[t.claims[c].grant.value.daemonId].connected
                  && t.daemons[t.claims[c].grant.value.daemonId].claimFingerprint == Some(row.fingerprint))
            && (forall c | c in after.claims && c != st.claim :: c in t.claims && after.claims[c] == t.claims[c])
            && after.denied == t.denied
  {
  }

  /** The pending claim's hostname is taken for good: by a row that has connected, or by a row of
      some other rack. */
  ghost predicate SomebodyElsesName(t: Tables, claim: nat) {
    claim in t.claims && exists d | d in t.daemons ::
      && t.daemons[d].name == t.claims[claim].hostname
      && (t.daemons[d].connected || t.daemons[d].claimFingerprint != Some(t.claims[claim].fingerprint))
  }

  /** What an approval comes to: a miss for want of a pending row, a clash over somebody else's
      name, and otherwise it wins. An earlier grant to this same rack that was never collected does
      not stand in its way. */
  lemma ApprovalAnswers(s: Store, st: Statement)
    requires st.Approve? && Legal(s, st)
    ensures Commit(s, st).1 ==
            if !Pending(s.tables, st.claim) then Miss
            else if SomebodyElsesName(s.tables, st.claim) then Clash
            else Hit
  {
    if Pending(s.tables, st.claim) {
      var row := s.tables.claims[st.claim];
      var cleared := Without(s.tables, Uncollected(s.tables, row));
      forall d | d in s.tables.daemons && s.tables.daemons[d].name == row.hostname
        ensures d in cleared.daemons <==>
                s.tables.daemons[d].connected || s.tables.daemons[d].claimFingerprint != Some(row.fingerprint)
      {
      }
    }
  }

  /** A row a rack has connected to is nobody's to reclaim: it stays until it is deleted. */
  lemma {:induction false} ConnectedRowStays(s: Store, run: seq<Statement>, rowId: nat)
    requires Sound(s) && rowId in s.tables.daemons && s.tables.daemons[rowId].connected
    requires forall k | 0 <= k < |run| :: run[k] != DropDaemon(rowId)
    ensures var after := Run(s, run).tables.daemons;
            && rowId in after && after[rowId].connected && after[rowId].name == s.tables.daemons[rowId].name
            && after[rowId].claimFingerprint == s.tables.daemons[rowId].claimFingerprint
    decreases |run|
  {
    if run != [] {
      ConnectedRowStaysOnce(s, run[0], rowId);
      CommitKeepsSound(s, run[0]);
      hide Commit, Sound;
      ConnectedRowStays(Commit(s, run[0]).0, run[1..], rowId);
    }
  }

  lemma ConnectedRowStaysOnce(s: Store, st: Statement, rowId: nat)
    requires rowId in s.tables.daemons && s.tables.daemons[rowId].connected && st != DropDaemon(rowId)
    ensures var after := Commit(s, st).0.tables.daemons;
            && rowId in after && after[rowId].connected && after[rowId].name == s.tables.daemons[rowId].name
            && after[rowId].claimFingerprint == s.tables.daemons[rowId].claimFingerprint
  {
  }

  /** A session connects its row. */
  lemma SeenConnects(s: Store, rowId: nat)
    requires rowId in s.tables.daemons
    ensures rowId in Commit(s, Seen(rowId)).0.tables.daemons && Commit(s, Seen(rowId)).0.tables.daemons[rowId].connected
  {
  }

  // ---------------------------------------------------------------- approvals that do not win

  /** The journal without the approvals that did not win. */
  function WithoutFailures(s: Store, run: seq<Statement>): seq<Statement>
    decreases |run|
  {
    if run == [] then []
    else
      var (after, answer) := Commit(s, run[0]);
      (if run[0].Approve? && answer != Hit then [] else [run[0]]) + WithoutFailures(after, run[1..])
  }

  /** What everybody but the approvals that did not win was answered. */
  function Heard(s: Store, run: seq<Statement>): seq<Answer>
    decreases |run|
  {
    if run == [] then []
    else
      var (after, answer) := Commit(s, run[0]);
      (if run[0].Approve? && answer != Hit then [] else [answer]) + Heard(after, run[1..])
  }

  /** Every random value in the journal is new when it is drawn. */
  predicate AllLegal(s: Store, run: seq<Statement>)
    decreases |run|
  {
    run == [] || (Legal(s, run[0]) && AllLegal(Commit(s, run[0]).0, run[1..]))
  }

  /** The same tables, with nothing issued but what the other has issued too. */
  predicate Alike(a: Store, b: Store) {
    a.tables == b.tables && a.filed == b.filed && b.issued <= a.issued
  }

  lemma AlikeOn(a: Store, b: Store, st: Statement)
    requires Alike(a, b) && Legal(a, st)
    ensures Commit(a, st).1 == Commit(b, st).1 && Alike(Commit(a, st).0, Commit(b, st).0)
    ensures st.Approve? && Commit(a, st).1 != Hit ==> Alike(Commit(a, st).0, b)
  {
    hide Execute;
    if st.Approve? && Commit(a, st).1 != Hit {
      FailedApproveChangesNothing(a, st);
    }
  }

  /** An approval that does not win leaves no trace: take every one of them out of a journal, and
      every other statement is answered as it was and the tables come out the same. */
  lemma FailedApprovalsLeaveNoTrace(s: Store, run: seq<Statement>)
    requires AllLegal(s, run)
    ensures Run(s, WithoutFailures(s, run)).tables == Run(s, run).tables
    ensures Heard(s, WithoutFailures(s, run)) == Heard(s, run)
    ensures |Heard(s, run)| == |WithoutFailures(s, run)|
  {
    FailuresDropOut(s, s, run);
  }

  /** In a journal whose every approval won, everybody is heard, and nothing is taken out. */
  lemma {:induction false} EveryAnswerIsHeard(s: Store, run: seq<Statement>)
    requires forall k | 0 <= k < |run| && run[k].Approve? :: Commit(Run(s, run[..k]), run[k]).1 == Hit
    ensures WithoutFailures(s, run) == run && |Heard(s, run)| == |run|
    ensures forall k | 0 <= k < |run| :: Heard(s, run)[k] == Commit(Run(s, run[..k]), run[k]).1
    decreases |run|
  {
    hide Commit;
    if run != [] {
      var after, rest := Commit(s, run[0]).0, run[1..];
      assert run[..0] == [];
      forall k | 0 <= k < |rest| ensures Run(s, run[..k + 1]) == Run(after, rest[..k]) {
        assert run[..k + 1] == [run[0]] + rest[..k];
        assert run[..k + 1][1..] == rest[..k];
      }
      forall k | 0 <= k < |rest| && rest[k].Approve? ensures Commit(Run(after, rest[..k]), rest[k]).1 == Hit {
        assert rest[k] == run[k + 1];
      }
      EveryAnswerIsHeard(after, rest);
    }
  }

  lemma {:induction false} FailuresDropOut(a: Store, b: Store, run: seq<Statement>)
    requires AllLegal(a, run) && Alike(a, b)
    ensures Alike(Run(a, run), Run(b, WithoutFailures(a, run)))
    ensures Heard(b, WithoutFailures(a, run)) == Heard(a, run) && |Heard(a, run)| == |WithoutFailures(a, run)|
    decreases |run|
  {
    hide Commit, Legal;
    if run != [] {
      var st, rest := run[0], run[1..];
      AlikeOn(a, b, st);
      if st.Approve? && Commit(a, st).1 != Hit {
        FailuresDropOut(Commit(a, st).0, b, rest);
        var after := Commit(a, st).0;
        assert [] + WithoutFailures(after, rest) == WithoutFailures(after, rest)
               && [] + Heard(after, rest) == Heard(after, rest);
      } else {
        var kept := WithoutFailures(Commit(a, st).0, rest);
        FailuresDropOut(Commit(a, st).0, Commit(b, st).0, rest);
        assert ([st] + kept)[1..] == kept;
      }
    }
  }

  // ---------------------------------------------------------------- one call at a time

  datatype Request = Request(hostname: Name, address: string, fingerprint: Fingerprint,
                             version: string, publicKey: PublicKey)

  function Expire(s: Store, now: real): Store {
    Commit(Commit(Commit(s, ExpirePending(now)).0, ExpireGranted(now)).0, ExpireDenied(now)).0
  }

  ghost function PendingOf(t: Tables, fingerprint: Fingerprint): Option<nat> {
    if FingerprintPending(t, fingerprint) then
      var id :| id in t.claims && t.claims[id].grant.None? && t.claims[id].fingerprint == fingerprint;
      Some(id)
    else None
  }

  function Filing(request: Request, now: real): Claim {
    Claim(request.hostname, request.address, request.fingerprint, request.version,
          request.publicKey, now, None)
  }

  /** `Broken` is an exception out of the call: an insert the unique index refused, or a row
      that vanished before it could be read back. */
  datatype Outcome = Filed(claim: nat) | Refused | Broken

  /** `file_claim`, run to its end with nobody else on the database. */
  ghost function File(s: Store, request: Request, now: real, draw: nat): (Store, Outcome) {
    var s1 := Expire(s, now);
    var existing := PendingOf(s1.tables, request.fingerprint);
    if request.fingerprint in s1.tables.denied then (s1, Refused)
    else if existing.Some? then
      (Commit(s1, Refresh(existing.value, request.address, request.version, request.publicKey)).0,
       Filed(existing.value))
    else if |PendingIds(s1.tables)| >= MAX_PENDING then (s1, Refused)
    else (Commit(s1, Insert(draw, Filing(request, now))).0, Filed(draw))
  }

  function Deny(s: Store, claim: nat, now: real): (Store, bool) {
    var s1 := Expire(s, now);
    var (s2, answer) := Commit(s1, Take(claim));
    if answer != Hit then (s2, false)
    else (Commit(s2, Suppress(s1.tables.claims[claim].fingerprint, now)).0, true)
  }

  /** Every call that reaches these tables. `Elsewhere` is a pairing, a socket or an edit. */
  datatype Call =
    | FileCall(request: Request, now: real, draw: nat)
    | ApproveCall(claim: nat, now: real, key: Credential, rowId: nat)
    | DenyCall(claim: nat, now: real)
    | ReadCall(now: real)
    | Elsewhere(statement: Statement, now: real)

  /** Random values are drawn anew, and the rest of the server leaves the queue alone. */
  ghost predicate Admissible(s: Store, call: Call) {
    match call
    case FileCall(_, _, draw) => draw !in s.filed
    case Elsewhere(st, _) => st.Mint? || st.Rotate? || st.Spend? || st.Seen? || st.AddScreen? || st.DropDaemon?
    case _ => true
  }

  ghost function Serve(s: Store, call: Call): (Store, Answer) {
    match call
    case FileCall(request, now, draw) =>
      var (after, outcome) := File(s, request, now, draw);
      (after, if outcome.Filed? then Hit else Miss)
    case ApproveCall(claim, now, key, rowId) => Commit(Expire(s, now), Approve(claim, now, key, rowId))
    case DenyCall(claim, now) =>
      var (after, denied) := Deny(s, claim, now);
      (after, if denied then Hit else Miss)
    case ReadCall(now) => (Expire(s, now), Hit)
    case Elsewhere(st, _) => Commit(s, st)
  }

  // ---------------------------------------------------------------- the queue as its history

  /** What the queue knows of a waiting claim: whose it is, and since when. */
  datatype Mark = Mark(fingerprint: Fingerprint, firstSeen: real)

  /** The part of the tables a filing is judged by. */
  datatype Queue = Queue(waiting: map<nat, Mark>, denied: map<Fingerprint, real>)

  function QueueOf(t: Tables): Queue {
    Queue(map id | id in t.claims && t.claims[id].grant.None?
            :: Mark(t.claims[id].fingerprint, t.claims[id].firstSeen),
          t.denied)
  }

  function Sweep(q: Queue, now: real): Queue {
    Queue(map id | id in q.waiting && q.waiting[id].firstSeen > now - CLAIM_LIFETIME_S :: q.waiting[id],
          map f | f in q.denied && q.denied[f] > now - DENY_SUPPRESSION_S :: q.denied[f])
  }

  datatype Entry = Entry(mark: Mark, decided: bool)

  /** Everything that was ever filed or denied. Nothing is ever swept out of it. */
  datatype Ledger = Ledger(entries: map<nat, Entry>, denials: map<Fingerprint, real>)

  /** What the ledger says is live at a moment: filed inside the lifetime and not decided,
      denied inside the suppression. */
  function Live(l: Ledger, now: real): Queue {
    Queue(map id | id in l.entries && !l.entries[id].decided
            && l.entries[id].mark.firstSeen > now - CLAIM_LIFETIME_S :: l.entries[id].mark,
          map f | f in l.denials && l.denials[f] > now - DENY_SUPPRESSION_S :: l.denials[f])
  }

  predicate Waits(q: Queue, fingerprint: Fingerprint) {
    exists id | id in q.waiting :: q.waiting[id].fingerprint == fingerprint
  }

  /** Refused: still suppressed, or not in the queue while the queue is full of others. */
  predicate Refuses(q: Queue, fingerprint: Fingerprint) {
    fingerprint in q.denied || (!Waits(q, fingerprint) && |q.waiting| >= MAX_PENDING)
  }

  function Decide(l: Ledger, claim: nat): Ledger
    requires claim in l.entries
  {
    l.(entries := l.entries[claim := l.entries[claim].(decided := true)])
  }

  /** What a call adds to the ledger. A filing reads only the ledger; the answer is needed for
      an approval alone, which a name collision can still refuse. */
  function Post(l: Ledger, call: Call, answer: Answer): Ledger {
    match call
    case FileCall(request, now, draw) =>
      var live := Live(l, now);
      if Refuses(live, request.fingerprint) || Waits(live, request.fingerprint) then l
      else l.(entries := l.entries[draw := Entry(Mark(request.fingerprint, now), false)])
    case ApproveCall(claim, now, _, _) =>
      if claim in Live(l, now).waiting && answer == Hit then Decide(l, claim) else l
    case DenyCall(claim, now) =>
      if claim !in Live(l, now).waiting then l
      else Decide(l, claim).(denials := l.denials[l.entries[claim].mark.fingerprint := now])
    case _ => l
  }

  /** At most one waiting claim a fingerprint. */
  ghost predicate Distinct(q: Queue) {
    forall a, b | a in q.waiting && b in q.waiting
      && q.waiting[a].fingerprint == q.waiting[b].fingerprint :: a == b
  }

  ghost predicate NoneSuppressed(q: Queue) {
    forall a | a in q.waiting :: q.waiting[a].fingerprint !in q.denied
  }

  /** The bounds on a queue. */
  ghost predicate Bounded(q: Queue) {
    |q.waiting| <= MAX_PENDING && Distinct(q) && NoneSuppressed(q)
  }

  /** The swept tables and the unswept ledger tell the same story from a moment on. */
  ghost predicate Tracks(s: Store, l: Ledger, clock: real) {
    && Sound(s) && l.entries.Keys <= s.filed
    && Sweep(QueueOf(s.tables), clock) == Live(l, clock)
    && Bounded(Live(l, clock))
  }

  /** The same, once a call has swept: the tables hold nothing the ledger does not. */
  ghost predicate Swept(s: Store, l: Ledger, now: real) {
    Tracks(s, l, now) && QueueOf(s.tables) == Live(l, now)
  }

  // What each statement does to the queue.

  lemma ExpireSweeps(s: Store, now: real)
    requires Sound(s)
    ensures Sound(Expire(s, now)) && Expire(s, now).filed == s.filed
    ensures QueueOf(Expire(s, now).tables) == Sweep(QueueOf(s.tables), now)
  {
    var s1 := Commit(s, ExpirePending(now)).0;
    var s2 := Commit(s1, ExpireGranted(now)).0;
    CommitKeepsSound(s, ExpirePending(now));
    CommitKeepsSound(s1, ExpireGranted(now));
    CommitKeepsSound(s2, ExpireDenied(now));
    EachSweep(s, now);
    EachSweep(s1, now);
    EachSweep(s2, now);
    hide Sound, Commit;
  }

  lemma EachSweep(s: Store, now: real)
    ensures QueueOf(Commit(s, ExpirePending(now)).0.tables)
            == QueueOf(s.tables).(waiting := Sweep(QueueOf(s.tables), now).waiting)
    ensures QueueOf(Commit(s, ExpireGranted(now)).0.tables) == QueueOf(s.tables)
    ensures QueueOf(Commit(s, ExpireDenied(now)).0.tables)
            == QueueOf(s.tables).(denied := Sweep(QueueOf(s.tables), now).denied)
    ensures Commit(s, ExpirePending(now)).0.filed == s.filed
    ensures Commit(s, ExpireGranted(now)).0.filed == s.filed
    ensures Commit(s, ExpireDenied(now)).0.filed == s.filed
  {
  }

  lemma RefreshKeepsQueue(s: Store, st: Statement)
    requires st.Refresh? && st.claim in s.tables.claims
    ensures QueueOf(Commit(s, st).0.tables) == QueueOf(s.tables) && Commit(s, st).0.filed == s.filed
    ensures st.claim in Commit(s, st).0.tables.claims
    ensures Commit(s, st).0.tables.claims[st.claim]
            == s.tables.claims[st.claim].(address := st.address, version := st.version, publicKey := st.publicKey)
    ensures Commit(s, st).0.tables.claims[st.claim].firstSeen == s.tables.claims[st.claim].firstSeen
  {
  }

  lemma InsertJoinsQueue(s: Store, request: Request, now: real, draw: nat)
    requires draw !in s.filed && !FingerprintPending(s.tables, request.fingerprint)
    ensures var after := Commit(s, Insert(draw, Filing(request, now))).0;
            && QueueOf(after.tables)
               == QueueOf(s.tables).(waiting := QueueOf(s.tables).waiting[draw := Mark(request.fingerprint, now)])
            && after.filed == s.filed + {draw}
            && draw in after.tables.claims && after.tables.claims[draw] == Filing(request, now)
  {
  }

  lemma TakeLeavesQueue(s: Store, claim: nat)
    ensures Commit(s, Take(claim)).1 == Hit <==> claim in QueueOf(s.tables).waiting
    ensures Commit(s, Take(claim)).1 != Hit ==> Commit(s, Take(claim)).0 == s
    ensures Commit(s, Take(claim)).0.filed == s.filed
    ensures QueueOf(Commit(s, Take(claim)).0.tables)
            == QueueOf(s.tables).(waiting := QueueOf(s.tables).waiting - {claim})
  {
  }

  lemma ApproveLeavesQueue(s: Store, st: Statement)
    requires st.Approve? && Commit(s, st).1 == Hit
    ensures st.claim in QueueOf(s.tables).waiting && Commit(s, st).0.filed == s.filed
    ensures QueueOf(Commit(s, st).0.tables)
            == QueueOf(s.tables).(waiting := QueueOf(s.tables).waiting - {st.claim})
  {
  }

  lemma SuppressJoinsQueue(s: Store, fingerprint: Fingerprint, now: real)
    ensures var after := Commit(s, Suppress(fingerprint, now)).0;
            && QueueOf(after.tables) == QueueOf(s.tables).(denied := QueueOf(s.tables).denied[fingerprint := now])
            && after.filed == s.filed
  {
  }

  lemma ElsewhereKeepsQueue(s: Store, call: Call)
    requires call.Elsewhere? && Admissible(s, call)
    ensures QueueOf(Commit(s, call.statement).0.tables) == QueueOf(s.tables)
    ensures Commit(s, call.statement).0.filed == s.filed
  {
  }

  /** An approval that does not win rolls back to the tables as it found them. */
  lemma FailedApproveChangesNothing(s: Store, st: Statement)
    requires st.Approve? && Commit(s, st).1 != Hit
    ensures Commit(s, st).0.tables == s.tables && Commit(s, st).0.filed == s.filed
  {
  }

  // What time does to it.

  lemma SweepTwice(q: Queue, clock: real, now: real)
    requires clock <= now
    ensures Sweep(Sweep(q, clock), now) == Sweep(q, now)
  {
  }

  lemma LiveIsSwept(l: Ledger, clock: real, now: real)
    requires clock <= now
    ensures Live(l, now) == Sweep(Live(l, clock), now)
  {
  }

  lemma SweepKeepsBounds(q: Queue, now: real)
    requires Bounded(q)
    ensures Bounded(Sweep(q, now)) && Sweep(q, now).waiting.Keys <= q.waiting.Keys
  {
    var left := Sweep(q, now).waiting.Keys;
    assert q.waiting.Keys == left + (q.waiting.Keys - left);
  }

  lemma LaterStillTracks(s: Store, l: Ledger, clock: real, now: real)
    requires Tracks(s, l, clock) && clock <= now
    ensures Tracks(s, l, now)
  {
    SweepTwice(QueueOf(s.tables), clock, now);
    LiveIsSwept(l, clock, now);
    SweepKeepsBounds(Live(l, clock), now);
  }

  lemma SweepMeetsLedger(s: Store, l: Ledger, clock: real, now: real)
    requires Tracks(s, l, clock) && clock <= now
    ensures Swept(Expire(s, now), l, now)
  {
    LaterStillTracks(s, l, clock, now);
    ExpireSweeps(s, now);
    hide Expire, Sound, QueueOf;
    SweepTwice(QueueOf(s.tables), now, now);
  }

  // Each call against the ledger.

  lemma PendingIsWaiting(t: Tables, fingerprint: Fingerprint)
    ensures FingerprintPending(t, fingerprint) <==> Waits(QueueOf(t), fingerprint)
    ensures |PendingIds(t)| == |QueueOf(t).waiting|
    ensures PendingOf(t, fingerprint).Some? <==> Waits(QueueOf(t), fingerprint)
    ensures PendingOf(t, fingerprint).Some? ==>
              Pending(t, PendingOf(t, fingerprint).value)
              && t.claims[PendingOf(t, fingerprint).value].fingerprint == fingerprint
  {
    assert PendingIds(t) == QueueOf(t).waiting.Keys;
    if FingerprintPending(t, fingerprint) {
      var id :| id in t.claims && t.claims[id].grant.None? && t.claims[id].fingerprint == fingerprint;
      assert id in QueueOf(t).waiting;
    }
  }

  lemma SweepAgain(l: Ledger, now: real)
    ensures Sweep(Live(l, now), now) == Live(l, now)
  {
  }

  lemma LedgerGains(l: Ledger, now: real, draw: nat, mark: Mark)
    requires Bounded(Live(l, now)) && draw !in l.entries && mark.firstSeen == now
    requires !Refuses(Live(l, now), mark.fingerprint) && !Waits(Live(l, now), mark.fingerprint)
    ensures var l' := l.(entries := l.entries[draw := Entry(mark, false)]);
            && Live(l', now) == Live(l, now).(waiting := Live(l, now).waiting[draw := mark])
            && Bounded(Live(l', now))
  {
    var live := Live(l, now);
    var l' := l.(entries := l.entries[draw := Entry(mark, false)]);
    assert Live(l', now).waiting == live.waiting[draw := mark];
    assert Live(l', now) == live.(waiting := live.waiting[draw := mark]);
    hide Live, Bounded, Waits, Refuses;
    JoinKeepsBounds(live, draw, mark);
  }

  lemma JoinKeepsBounds(q: Queue, draw: nat, mark: Mark)
    requires Bounded(q) && draw !in q.waiting
    requires !Refuses(q, mark.fingerprint) && !Waits(q, mark.fingerprint)
    ensures Bounded(q.(waiting := q.waiting[draw := mark]))
  {
  }

  lemma LedgerDecides(l: Ledger, now: real, claim: nat)
    requires Bounded(Live(l, now)) && claim in Live(l, now).waiting
    ensures Live(Decide(l, claim), now) == Live(l, now).(waiting := Live(l, now).waiting - {claim})
    ensures Bounded(Live(Decide(l, claim), now))
    ensures !Waits(Live(Decide(l, claim), now), l.entries[claim].mark.fingerprint)
  {
    var live := Live(l, now);
    assert Live(Decide(l, claim), now).waiting == live.waiting - {claim};
    assert (live.waiting - {claim}).Keys == live.waiting.Keys - {claim};
  }

  lemma LedgerDenies(l: Ledger, now: real, fingerprint: Fingerprint)
    requires Bounded(Live(l, now)) && !Waits(Live(l, now), fingerprint)
    ensures var l' := l.(denials := l.denials[fingerprint := now]);
            && Live(l', now) == Live(l, now).(denied := Live(l, now).denied[fingerprint := now])
            && Bounded(Live(l', now))
  {
  }

  lemma InsertMeetsLedger(s: Store, l: Ledger, now: real, request: Request, draw: nat)
    requires Swept(s, l, now) && draw !in s.filed
    requires !Refuses(Live(l, now), request.fingerprint) && !Waits(Live(l, now), request.fingerprint)
    ensures Swept(Commit(s, Insert(draw, Filing(request, now))).0, Post(l, FileCall(request, now, draw), Hit), now)
    ensures draw !in l.entries
  {
    PendingIsWaiting(s.tables, request.fingerprint);
    InsertJoinsQueue(s, request, now, draw);
    CommitKeepsSound(s, Insert(draw, Filing(request, now)));
    LedgerGains(l, now, draw, Mark(request.fingerprint, now));
    SweepAgain(Post(l, FileCall(request, now, draw), Hit), now);
    hide Commit, Sound, QueueOf, FingerprintPending, Bounded, Live, Refuses, Waits, Sweep;
  }

  /** The row carries what the latest filing said of the rack. */
  predicate Answers(row: Claim, request: Request) {
    && row.fingerprint == request.fingerprint && row.publicKey == request.publicKey
    && row.address == request.address && row.version == request.version
  }

  lemma FilingMeetsLedger(s: Store, l: Ledger, clock: real, call: Call)
    requires Tracks(s, l, clock) && call.FileCall? && clock <= call.now && call.draw !in s.filed
    ensures var (after, outcome) := File(s, call.request, call.now, call.draw);
            var f, live := call.request.fingerprint, Live(l, call.now);
            && Swept(after, Post(l, call, Hit), call.now)
            && (outcome == Refused <==> Refuses(live, f))
            && !outcome.Broken? && Serve(s, call) == (after, if Refuses(live, f) then Miss else Hit)
            && (outcome.Filed? ==>
                  && outcome.claim in after.tables.claims
                  && Answers(after.tables.claims[outcome.claim], call.request)
                  && (!Waits(live, f) ==> after.tables.claims[outcome.claim] == Filing(call.request, call.now)))
            && (outcome.Filed? && Waits(live, f) ==>
                  && outcome.claim in live.waiting
                  && live.waiting[outcome.claim] == Mark(f, after.tables.claims[outcome.claim].firstSeen)
                  && Post(l, call, Hit) == l)
            && live.waiting.Keys <= Live(Post(l, call, Hit), call.now).waiting.Keys
  {
    hide Commit, Expire, Sound, Bounded, Sweep, PendingOf, PendingIds, QueueOf, Waits, Live;
    var now, f := call.now, call.request.fingerprint;
    var s1 := Expire(s, now);
    SweepMeetsLedger(s, l, clock, now);
    ExpireSweeps(s, now);
    PendingIsWaiting(s1.tables, f);
    DeniedIsQueued(s1.tables, f);
    var existing := PendingOf(s1.tables, f);
    if f !in s1.tables.denied && existing.Some? {
      RefreshMeetsLedger(s1, l, now, call.request, existing.value);
    } else if !Refuses(Live(l, now), f) {
      InsertMeetsLedger(s1, l, now, call.request, call.draw);
      InsertJoinsQueue(s1, call.request, now, call.draw);
    }
  }

  lemma DeniedIsQueued(t: Tables, fingerprint: Fingerprint)
    ensures fingerprint in t.denied <==> fingerprint in QueueOf(t).denied
  {
  }

  lemma RefreshMeetsLedger(s: Store, l: Ledger, now: real, request: Request, id: nat)
    requires Swept(s, l, now) && Pending(s.tables, id) && s.tables.claims[id].fingerprint == request.fingerprint
    ensures var after := Commit(s, Refresh(id, request.address, request.version, request.publicKey)).0;
            && Swept(after, l, now) && id in Live(l, now).waiting
            && id in after.tables.claims && Answers(after.tables.claims[id], request)
            && Live(l, now).waiting[id] == Mark(s.tables.claims[id].fingerprint, after.tables.claims[id].firstSeen)
  {
    var st := Refresh(id, request.address, request.version, request.publicKey);
    RefreshKeepsQueue(s, st);
    CommitKeepsSound(s, st);
    assert id in QueueOf(s.tables).waiting;
    hide Commit, Sound, Bounded, Sweep;
  }

  lemma DecidedMeetsLedger(s: Store, l: Ledger, now: real, st: Statement)
    requires Swept(s, l, now) && (st.Approve? || st.Take?) && Commit(s, st).1 == Hit
    ensures st.claim in Live(l, now).waiting
    ensures Swept(Commit(s, st).0, Decide(l, st.claim), now)
  {
    if st.Approve? {
      ApproveLeavesQueue(s, st);
    } else {
      TakeLeavesQueue(s, st.claim);
    }
    CommitKeepsSound(s, st);
    LedgerDecides(l, now, st.claim);
    SweepAgain(Decide(l, st.claim), now);
    hide Commit, Sound, QueueOf, Bounded, Sweep;
  }

  lemma SuppressMeetsLedger(s: Store, l: Ledger, now: real, fingerprint: Fingerprint)
    requires Swept(s, l, now) && !Waits(Live(l, now), fingerprint)
    ensures Swept(Commit(s, Suppress(fingerprint, now)).0, l.(denials := l.denials[fingerprint := now]), now)
  {
    var st := Suppress(fingerprint, now);
    CommitKeepsSound(s, st);
    SuppressJoinsQueue(s, fingerprint, now);
    LedgerDenies(l, now, fingerprint);
    SweepAgain(l.(denials := l.denials[fingerprint := now]), now);
    hide Commit, Sound, QueueOf, Bounded, Sweep, Live;
  }

  lemma ApprovalMeetsLedger(s: Store, l: Ledger, clock: real, call: Call)
    requires Tracks(s, l, clock) && clock <= call.now && call.ApproveCall?
    ensures Swept(Serve(s, call).0, Post(l, call, Serve(s, call).1), call.now)
    ensures Serve(s, call).1 == Hit ==> call.claim in Live(l, call.now).waiting
  {
    var s1 := Expire(s, call.now);
    SweepMeetsLedger(s, l, clock, call.now);
    var st := Approve(call.claim, call.now, call.key, call.rowId);
    if Commit(s1, st).1 == Hit {
      DecidedMeetsLedger(s1, l, call.now, st);
    } else {
      FailedApproveChangesNothing(s1, st);
      CommitKeepsSound(s1, st);
    }
    hide Commit, Expire, Sound, Bounded;
  }

  lemma DenialMeetsLedger(s: Store, l: Ledger, clock: real, call: Call)
    requires Tracks(s, l, clock) && clock <= call.now && call.DenyCall?
    ensures Swept(Serve(s, call).0, Post(l, call, Serve(s, call).1), call.now)
    ensures Serve(s, call).1 == Hit <==> call.claim in Live(l, call.now).waiting
  {
    var now, claim := call.now, call.claim;
    var s1 := Expire(s, now);
    SweepMeetsLedger(s, l, clock, now);
    TakeLeavesQueue(s1, claim);
    hide Commit, Expire, Sound, Bounded;
    if claim in Live(l, now).waiting {
      DecidedMeetsLedger(s1, l, now, Take(claim));
      LedgerDecides(l, now, claim);
      SuppressMeetsLedger(Commit(s1, Take(claim)).0, Decide(l, claim), now, l.entries[claim].mark.fingerprint);
    } else {
      assert Commit(s1, Take(claim)).0 == s1;
    }
  }

  lemma CallMeetsLedger(s: Store, l: Ledger, clock: real, call: Call)
    requires Tracks(s, l, clock) && clock <= call.now && Admissible(s, call)
    ensures Tracks(Serve(s, call).0, Post(l, call, Serve(s, call).1), call.now)
  {
    match call {
      case FileCall(_, _, _) => FilingMeetsLedger(s, l, clock, call);
      case ApproveCall(_, _, _, _) => ApprovalMeetsLedger(s, l, clock, call);
      case DenyCall(_, _) => DenialMeetsLedger(s, l, clock, call);
      case ReadCall(now) => SweepMeetsLedger(s, l, clock, now);
      case Elsewhere(st, now) =>
        LaterStillTracks(s, l, clock, now);
        ElsewhereKeepsQueue(s, call);
        CommitKeepsSound(s, st);
        hide Commit, Sound;
    }
    hide File, Deny, Expire, Commit, Refuses, Waits, Live, Sound;
  }

  // ---------------------------------------------------------------- whole histories

  /** A history: calls one after another, on a clock that never steps back. */
  ghost predicate Serialised(s: Store, calls: seq<Call>, clock: real)
    decreases |calls|
  {
    calls == [] ||
    (clock <= calls[0].now && Admissible(s, calls[0])
     && Serialised(Serve(s, calls[0]).0, calls[1..], calls[0].now))
  }

  ghost function After(s: Store, l: Ledger, calls: seq<Call>, clock: real): (Store, Ledger, real)
    decreases |calls|
  {
    if calls == [] then (s, l, clock)
    else
      var (next, answer) := Serve(s, calls[0]);
      After(next, Post(l, calls[0], answer), calls[1..], calls[0].now)
  }

  lemma {:induction false} HistoryKeepsTracking(s: Store, l: Ledger, calls: seq<Call>, clock: real)
    requires Tracks(s, l, clock) && Serialised(s, calls, clock)
    ensures var (s', l', clock') := After(s, l, calls, clock); Tracks(s', l', clock')
    decreases |calls|
  {
    hide Tracks, Serve, Post, Admissible;
    if calls != [] {
      var (next, answer) := Serve(s, calls[0]);
      CallMeetsLedger(s, l, clock, calls[0]);
      HistoryKeepsTracking(next, Post(l, calls[0], answer), calls[1..], calls[0].now);
    }
  }

  /** An empty queue on any tables that meet the schema. */
  ghost predicate EmptyQueue(s: Store) {
    Sound(s) && QueueOf(s.tables) == Queue(map[], map[])
  }

  /** The queue is a function of its history. After any calls whatever, it holds what the
      unswept ledger says is live, within every bound; and the next filing is refused exactly
      when the ledger refuses it, keeps a waiting rack's id and age, and evicts nobody. */
  lemma QueueIsItsHistory(s: Store, calls: seq<Call>, start: real, next: Call)
    requires EmptyQueue(s) && Serialised(s, calls, start) && next.FileCall?
    requires var (s', _, clock) := After(s, Ledger(map[], map[]), calls, start);
             clock <= next.now && next.draw !in s'.filed
    ensures var (s', l, _) := After(s, Ledger(map[], map[]), calls, start);
            var (after, outcome) := File(s', next.request, next.now, next.draw);
            var f, before, queue := next.request.fingerprint, Live(l, next.now), QueueOf(after.tables);
            && Bounded(before) && Bounded(queue) && queue == Live(Post(l, next, Hit), next.now)
            && (outcome == Refused <==> Refuses(before, f))
            && (outcome.Filed? && Waits(before, f) ==>
                  && queue == before && outcome.claim in before.waiting
                  && before.waiting[outcome.claim].fingerprint == f)
            && before.waiting.Keys <= queue.waiting.Keys
  {
    assert Tracks(s, Ledger(map[], map[]), start);
    HistoryKeepsTracking(s, Ledger(map[], map[]), calls, start);
    var (s', l, clock) := After(s, Ledger(map[], map[]), calls, start);
    FilingMeetsLedger(s', l, clock, next);
    LaterStillTracks(s', l, clock, next.now);
    hide File, Refuses, Waits, Live, Post, Sound, Bounded, Serialised, After, Sweep, QueueOf;
  }
}
