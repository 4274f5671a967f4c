# OpenRackScreen, verified

OpenRackScreen drives small SPI panels from a daemon on a Raspberry Pi, configured by a server
over a link. This project models the parts of it whose correctness is a fact about whole runs, and
proves those facts.

* **The rack supervisor** (`rack.dfy`, `diff.dfy`, `steps.dfy`, `supervisor.dfy`). Panels are opened,
  leased to worker threads, restarted by a watchdog, swapped by a pushed configuration, probed, and
  shut down by a `stop` that a SIGTERM can run on the same thread between any two steps of `start`,
  of a panel open, of a restart or of another `stop`. The objects live in tables indexed by number,
  so that a slot, a lease and a worker can be shared as the program shares them. Between any two
  steps every worker may begin a tick, command its panel, end the tick or leave. Whether a display
  opens, a thread starts or a worker lets its tick lock go is a parameter of the call.
* **The configuration version protocol** (`link.dfy`, `version_protocol.dfy`). The server edits rows
  and advances a counter in one transaction, fixes a number before it reads the tables, and skips a
  push when a rack claims the row's number. The rack applies, refuses, caches, loses power, boots and
  changes servers.
* **Joining and credentials** (`tables.dfy`, `database.dfy`, `claims.dfy`, `claim_calls.dfy`,
  `pairing.dfy`, `limiter.dfy`, `join.dfy`). The tables are maps, every SQL statement is one atomic
  step of a journal that all connections share, sealing is ideal, and a rack files, polls and refiles
  through lost and foreign answers.
* **Small exact algorithms**: the section-aware `config.txt` editor (`boot_text.dfy`,
  `boot_config.dfy`, `boot_files.dfy`), the frame stream (`frames.dfy`), the render-on-change worker
  (`screen.dfy`), the night window (`clock.dfy`) and the two time budgets (`budget.dfy`).

Nothing here was executed: the claims are what the verifier proved about the model.

## What turned out false

Six things one might expect of this code do not hold as they are usually said. Each has its exact
condition, or the tightest one-way form of it, and an input that shows it.

* A watchdog restart is not always safe against `stop`. When a signal lands after the replacement
  worker has started and before its slot takes up the new lease (`supervisor.py:1825-1826`), `stop`
  revokes the old lease and closes the panel, and a worker in the middle of its first tick can still
  reach it. The same happens without a signal when the replacement's `start` raises although its
  thread runs: `_start_worker` revokes a lease for that (`supervisor.py:1923-1937`), `_replace` has no
  handler, and the shutdown that follows finds the panel lit under a lease no slot names.
  `Steps.OnlyTheLeaseInFlightReaches` says a lease in flight is the only way;
  `Supervision.Supervisor.Relaunch` says when either mishap happens, and
  `Supervision.Supervisor.RunForever` that a run has one mishap at most, which panel it costs, and
  that without a signal there is none of the first kind. `Steps.ASlipReachesAClosedPanel` is the run.
* A panel is not always shut down once. `_start_worker` claims its slot without looking
  (`supervisor.py:1942`; the comment above it says the claim is what prevents a second close), so a
  start that fails after a stop has already claimed it sleeps and closes the panel a second time.
  `Supervision.Supervisor.Abandon` says exactly when, `Supervision.Supervisor.RunForever` that it
  happens to one panel of a run at most and never without a signal;
  `Steps.AFailedStartAfterAStopShutsTwice` is the run.
* A pairing is safe for good exactly when it leaves no foreign cache behind. `_forget_cache` may
  fail to unlink (`link.py:1007-1024`), and then the next boot can claim a version of the old
  server's that the new one happens to reach. `VersionProtocol.PairingIsSafeExactlyWhenClean` is the
  equivalence, `VersionProtocol.ForeignCacheIsBelieved` the run.
* A worker whose panel refuses one frame does not retry it. `tick` notes the version before the frame
  is refused (`screen.py:219`), so the glass stays old until the version, the selection or the floor
  asks for a redraw. `Rendering.ScreenWorker.Serve` says that over a whole run nothing else does this,
  `Rendering.ARefusedFrameIsNotRetried` is the run.
* Total waiting can exceed the shutdown budget; ten seconds is not what a shutdown costs at worst, as
  `supervisor.py:124-148` has it. Every wait is measured before it begins
  (`supervisor.py:1716-1745`, and both of a tunnel's at once, `tunnel.py:363-375`), and the deadline is
  set some time after it was found missing (`supervisor.py:1701-1702`). A `stop` that lands in between
  spends time the outer call still believes it has. `Budgets.Shutdown.Stop` bounds every run by one
  budget, and one more for each measurement or deadline another's waiting overtook, so a run in which
  nothing is overtaken stays within the budget; `Budgets.NestedJoinsReachTheBound` reaches the bound
  for any number of signals, and `Budgets.ChildAndDeadlineOverrun` overruns the other two ways.
* An approved rack cannot always open the key it is sent. A filing that finds its fingerprint already
  waiting writes its own public key into the row without asking whether the row is still pending
  (`claims.py:236-239`), so an approval that lands between the filing's SELECT and its UPDATE has
  sealed to the key of an earlier filing, and the rack gives up for good. `Joining.Rack.Join` says this
  and another filing of the same fingerprint are the only causes; `ClaimCalls.ApprovedBeforeTheWrite`
  is the run.

## Model

| member | source | states |
|---|---|---|
| Supervision.Supervisor.RunForever | daemon/src/ors_daemon/supervisor.py:1604-1619 | However starts, ticks, pushes, probes, signals and worker commands interleave, when the last stop has returned every panel ever opened is asleep and closed, exactly once but for the one a failed start found claimed; nothing any worker does from then on reaches any panel but the one a restart came to grief on; a run has one such mishap at most, and without a signal none but a thread that runs though its start raised; every open found its bus quiet; and no device was ever open twice if no configuration named one twice; laps are run in order until a signal comes or a thread will not start, and the configuration is the last one pushed |
| Supervision.RunUndisturbed | daemon/src/ors_daemon/supervisor.py:1604-1619 | From construction to the last stop with no signal to come: every panel is slept and closed exactly once, and, but for a thread that runs though its start raised, nothing any worker does afterwards reaches one; if every thread starts, every lap is run and the last push is the configuration |
| Supervision.Supervisor.Stop | daemon/src/ors_daemon/supervisor.py:1655-1762 | Repeatable at any depth: afterwards every listed slot is claimed and told to leave, a slot some outer call has in hand is left alone, and nothing but stops, shutdowns and leases has moved |
| Supervision.Supervisor.TakeDown | daemon/src/ors_daemon/supervisor.py:1750-1762 | One claim, then revoke, sleep and close, with a signal allowed between any two; the panel ends down exactly once |
| Supervision.Supervisor.ShutDownPanel | daemon/src/ors_daemon/supervisor.py:1764-1782 | One sleep and one close, whatever else lands meanwhile |
| Supervision.Supervisor.Start | daemon/src/ors_daemon/supervisor.py:825-858 | Every open precedes every start of a worker. An uninterrupted start tries every screen once and in order, ends with a worker on exactly the panels that opened, and is cut short only by a stop or by a worker that will not start; the only mishap is a failed start that found its slot claimed |
| Supervision.Supervisor.OpenPanel | daemon/src/ors_daemon/supervisor.py:1874-1902 | A panel that opens is listed before the stop flag is read, so if a stop is under way every listed panel, this one too, is claimed when it returns; one that does not open is recorded, and nothing else is; everything else is untouched when no signal lands |
| Supervision.Supervisor.StartWorker | daemon/src/ors_daemon/supervisor.py:1904-1954 | A thread that runs gives the slot a worker that draws on its own lease; one that does not takes its slot out, down, and records the screen; which of the two is the thread's doing alone |
| Supervision.Supervisor.Abandon | daemon/src/ors_daemon/supervisor.py:1936-1953 | The failing path claims unconditionally: the panel joins those shut down twice, and the mishap is noted, exactly when its slot was claimed already |
| Supervision.Supervisor.Replace | daemon/src/ors_daemon/supervisor.py:1809-1827 | The watchdog's restart keeps the backend, has ended the old lease whatever comes of it, and leaves every other slot as it was; without a signal the rack goes on drawing; a restart adds one mishap at most, and none once a stop has come |
| Supervision.Supervisor.Relaunch | daemon/src/ors_daemon/supervisor.py:1825-1827 | The two ways a restart comes to grief, exactly: a stop claims the slot between the worker's start and the slot taking its lease up, or the start raises over a panel nobody has claimed |
| Supervision.Supervisor.Tick | daemon/src/ors_daemon/supervisor.py:1551-1561 | Unless a stop lands or a thread will not start, a watchdog pass replaces exactly the overdue workers, each on the panel it had, opens nothing and leaves the rack drawing; it gives up only over a thread that will not start |
| Supervision.Supervisor.Check | daemon/src/ors_daemon/supervisor.py:1784-1807 | A worker on time is left alone, an overdue one is replaced three times at most, and the fourth time only counted; no other slot moves; it fails only when a restart that was due could not be made |
| Supervision.Supervisor.Apply | daemon/src/ors_daemon/supervisor.py:860-1017 | Refused exactly after a stop; otherwise as many workers are kept, on the same backend and lease, as the two multisets of worker-visible configurations share; nothing at the glass moves exactly when all of both lists match. Otherwise every pushed screen is running in order with a started worker or recorded, every other old slot is down; a kept worker is held off, once, unless it is wedged in a tick, and given back once; a screen without a kept slot has its open attempted unless a kept worker on its own bus is wedged, and it runs exactly if that open and its worker's start succeed; no worker starts before the last open |
| Supervision.Supervisor.Reconfigure | daemon/src/ors_daemon/supervisor.py:953-1000 | The glass-touching part keeps the same promises for any kept, added and retired parts of the lists |
| Supervision.Supervisor.OffTheBus | daemon/src/ors_daemon/supervisor.py:966-974 | Between the pauses and the resumes the retired panels are closed and every added screen is tried, in order, but for those beside a wedged worker; the kept slots are untouched, and nobody is held afterwards |
| Supervision.Supervisor.TakeUp | daemon/src/ors_daemon/supervisor.py:936-965 | Once the retired are dismissed, the kept list draws exactly what the pushed configuration asks for, on the same backends, leases and workers |
| Supervision.Supervisor.BlankRetired | daemon/src/ors_daemon/supervisor.py:967-969 | Every retired panel ends down exactly once, and the kept ones go on drawing |
| Supervision.Supervisor.OpenAdded | daemon/src/ors_daemon/supervisor.py:970-974 | Every added screen in order: skipped and recorded exactly when its bus is unguarded, and otherwise opened, or recorded because its display would not; nothing that was there moves |
| Supervision.Supervisor.HoldAll | daemon/src/ors_daemon/supervisor.py:1507-1523 | Every kept worker is asked: one that lets its tick lock go is held, listed once, and a bus is reported as unguarded exactly when a kept worker on it does not |
| Supervision.Supervisor.Pause | daemon/src/ors_daemon/supervisor.py:1513 | A worker is held exactly when its tick lock comes free while it is waited for |
| Supervision.Supervisor.ResumeAll | daemon/src/ors_daemon/supervisor.py:1524-1526 | Everyone held is given back once, and nobody stays held |
| Supervision.Supervisor.Retire | daemon/src/ors_daemon/supervisor.py:1430-1446 | Every retired slot loses its lease and is told to leave; every other slot is as it was |
| Supervision.Supervisor.StartAdded | daemon/src/ors_daemon/supervisor.py:975-996 | Every listed slot without a worker is given one; the slots that stay are exactly those that had one and those whose start succeeded, the rest being recorded |
| Supervision.Supervisor.ClaimedDevices | daemon/src/ors_daemon/supervisor.py:1108-1115 | Exactly the devices some configured screen names, each under the first screen that names it |
| Supervision.Supervisor.Probe | daemon/src/ors_daemon/supervisor.py:1184-1227 | Refused exactly when stopping, when a screen claims the device, before anyone is held, or when a listed worker on its bus is wedged; otherwise it lights exactly if the panel opens and takes a frame; on every path the slots and the set of open panels are unchanged and everyone held is given back |
| Diffing.Diff | daemon/src/ors_daemon/supervisor.py:1376-1399 | The greedy match: kept and retired partition the slots, kept and added partition the push, and the number kept is the size of the common multiset |
| Diffing.NoMatchingKeepsMore | daemon/src/ors_daemon/supervisor.py:1356-1399 | No other pairing of slots with unchanged screens keeps more |
| Diffing.FirstMatch | daemon/src/ors_daemon/supervisor.py:1381-1388 | Finds a slot whose worker-visible configuration equals the screen's, and fails only when none does |
| Steps.Adopted | daemon/src/ors_daemon/supervisor.py:936-965 | After the retirements every kept worker was built with exactly what the push asks of it, effective night window included |
| Steps.OnlyTheLeaseInFlightReaches | daemon/src/ors_daemon/supervisor.py:1809-1827 | Once a panel is put to sleep, a worker's command reaches it exactly when it is in the middle of a tick on the lease of a restart not yet taken up |
| Steps.ASlipReachesAClosedPanel | daemon/src/ors_daemon/supervisor.py:1819-1827 | A concrete run in which a signal in the restart window lets a command reach a closed panel |
| Steps.AFailedStartAfterAStopShutsTwice | daemon/src/ors_daemon/supervisor.py:1936-1944 | A concrete run in which a panel is closed twice |
| Steps.AllDown | daemon/src/ors_daemon/supervisor.py:1747-1762 | When every listed slot is claimed and nothing is mid-way, every panel is down, and by how much |
| Steps.LastSlips | daemon/src/ors_daemon/supervisor.py:1747-1762 | The last stop finds a lease left astray and puts its panel to sleep under it; nothing else is added to the slips |
| Steps.NeverLater | daemon/src/ors_daemon/supervisor.py:1747-1762 | Whatever the workers still do, none reaches a sleeping panel that is not among the slips |
| Steps.UnclaimedIsUnused | daemon/src/ors_daemon/supervisor.py:1191-1199 | A device no configured screen claims is open nowhere |
| Racks.FreshDeviceIsUnused | daemon/src/ors_daemon/supervisor.py:966-974 | If no configuration names a device twice, a screen without a slot finds its device free |
| Racks.GuardedIsQuiet | daemon/src/ors_daemon/supervisor.py:1448-1526 | With every kept worker offered its pause, a bus not reported as unguarded has no started worker with a live lease outside pause |
| Racks.SharesBus | daemon/src/ors_daemon/supervisor.py:424-442 | Two GC9A01 panels share a bus exactly when they name the same SPI bus, whatever their chip selects; panels of one unknown kind share one |
| Racks.SameKeys | daemon/src/ors_daemon/supervisor.py:404-411 | A worker may be kept exactly when the screens are equal in every field and the night windows are too, unless the screen has its own |
| Racks.OpensAreJudged | daemon/src/ors_daemon/supervisor.py:1448-1526 | What the account of every run means: an open stands against it for good unless every worker able to draw on that bus is held off, and unless no panel on that device is open |
| Racks.SleepKeepsSound | daemon/src/ors_daemon/supervisor.py:1750-1762 | Sleeping a claimed panel whose lease is revoked keeps every late command out, but through the restart window |
| Racks.ActKeepsSound | daemon/src/ors_daemon/supervisor.py:520-560 | No worker's own move breaks any invariant, or changes more than its tick, its lease and the panel it reaches |
| Racks.DrawingBeside | daemon/src/ors_daemon/supervisor.py:1904-1954 | What happens to one slot leaves the rest of the rack drawing |
| Link.LinkClient.Config | daemon/src/ors_daemon/link.py:845-935 | A claimed version is acked with no work. A new one meets silence exactly when the rack was stopping. It goes up in place exactly when its zone is the rack's and it can be served, and sends the rack into a restart exactly when its zone is another the host resolves; then it is acked, unless the rack is on its way out and the cache would not take it, and it is in the cache whenever the cache would; anything else is nacked and changes nothing but a stop |
| Link.LinkClient.Paired | daemon/src/ors_daemon/link.py:937-1005 | A keyed rack ignores the message; any other keeps its row, takes the key, forgets the claim and, if it can, the cache, and writes the pairing down if it can |
| Link.LinkClient.Apply | daemon/src/ors_daemon/__main__.py:1066-1089 | A changed zone is refused or answered with a restart; only a push for the running zone is adopted |
| Link.LinkClient.constructor | daemon/src/ors_daemon/__main__.py:1237-1347 | A boot claims a version exactly when it runs from a usable cache |
| VersionProtocol.SkippingIsSafe | daemon/src/ors_daemon/link.py:845-981 | Over every run with clean pairings, a keyed rack on its link that claims its row's version shows the row's tables as they are now |
| VersionProtocol.EveryAckIsBacked | daemon/src/ors_daemon/link.py:869-935 | Over every run, an acked version is on the glass or in the cache when the ack leaves |
| VersionProtocol.AckedPushSurvivesPowerCut | daemon/src/ors_daemon/link.py:869-935 | A newly acked push whose cache write landed is what the next boot shows and claims after a power cut |
| VersionProtocol.HelloBringsTheTables | server/src/ors_server/snapshot.py:130-169 | A hello that is not skipped, the read and the delivery put the row's tables on the glass and in the cache, and its number in the claim |
| VersionProtocol.AnEditReachesTheGlass | server/src/ors_server/snapshot.py:130-169 | A servable edit under a connected rack goes up under the next number |
| VersionProtocol.PairingBringsTheTables | daemon/src/ors_daemon/link.py:937-1005 | A token rack's hello, pairing and first push leave it keyed, on its row, showing the row's tables |
| VersionProtocol.ReconnectingStartsOver | daemon/src/ors_daemon/link.py:1007-1024 | After a connect or a join the next boot answers to the new row and claims nothing |
| VersionProtocol.ASigtermStopsTheLink | daemon/src/ors_daemon/link.py:869-900 | A new push after a SIGTERM is met with silence, changes nothing, and the link is let go |
| VersionProtocol.PairingIsSafeExactlyWhenClean | daemon/src/ors_daemon/link.py:975-1024 | A pairing is safe for every continuation if and only if it leaves no cache the new server's counter could collide with |
| VersionProtocol.ForeignCacheIsBelieved | daemon/src/ors_daemon/link.py:1007-1024 | From any unclean pairing, a run in which the push is skipped and the rack shows something else |
| VersionProtocol.RunKeeps | server/src/ors_server/snapshot.py:130-169 | Through edits, pushes, nacks, boots and clean pairings, whatever may still be read back as a claim is no newer than its row, and is the row's own tables if it is exactly as new |
| VersionProtocol.StepKeeps | server/src/ors_server/snapshot.py:130-169 | The same, for each step |
| VersionProtocol.NoPushIsOlderThanItsNumber | server/src/ors_server/snapshot.py:139-169 | Mint first, read after: in any run, clean or not, an assembled push shows its row's tables as they stood at some moment when the row had already reached the push's number |
| Tables.CommitKeepsSound | server/src/ors_server/db.py:33-184 | Every statement keeps the unique indexes, the CHECK, the foreign keys, and that a credential is held by at most one row |
| Tables.StatementKeepsSchema | server/src/ors_server/db.py:64-184 | The schema's constraints survive every statement |
| Connections.Database.Do | server/src/ors_server/db.py:232-250 | One autocommitted statement, appended to the journal of them all |
| Claims.AtMostOneDecisionWins | server/src/ors_server/claims.py:426-543 | Under any interleaving of statements at most one approval or denial of a claim wins |
| Claims.GrantIsFinal | server/src/ors_server/claims.py:426-503 | A granted blob never changes while its row lives |
| Claims.ApprovalAnswers | server/src/ors_server/claims.py:426-503 | An approval misses exactly without a pending row, clashes exactly when the name is held by a connected row or another rack's, and otherwise wins; an uncollected grant to the same rack is no obstacle |
| Claims.ConnectedRowStays | server/src/ors_server/claims.py:440-490 | A daemon row that has connected keeps its name and fingerprint through anything but its own deletion |
| Claims.ApproveReclaimsOnlyItsOwn | server/src/ors_server/claims.py:440-490 | An approval that wins deletes exactly the never-connected daemon rows of this name and this fingerprint, and what cascades from them |
| Claims.FailedApprovalsLeaveNoTrace | server/src/ors_server/claims.py:494-503 | Take every approval that did not win out of a journal, expiries left in: every other statement is answered as it was, and the tables come out the same |
| Claims.QueueIsItsHistory | server/src/ors_server/claims.py:223-261 | After any serialised calls the queue is what the unswept history says is live: at most 32, one a fingerprint, none suppressed; the next filing is refused exactly when that history refuses it, keeps a waiting rack's id and age, and evicts nobody |
| Claims.HistoryKeepsTracking | server/src/ors_server/claims.py:150-161 | The swept tables and the unswept history agree after every call |
| Claims.FilingMeetsLedger | server/src/ors_server/claims.py:223-261 | One filing against the history: when it is refused, what it refreshes, what it inserts |
| Claims.ApprovalMeetsLedger | server/src/ors_server/claims.py:426-503 | An approval against the history: a win ends a live pending claim, anything else changes nothing but what has expired |
| Claims.DenialMeetsLedger | server/src/ors_server/claims.py:530-543 | A denial succeeds exactly on a live pending claim, which it ends and whose fingerprint it suppresses |
| ClaimCalls.FileClaim | server/src/ors_server/claims.py:223-261 | After the sweep, interleaved with anything: an answered id stood pending for this rack during the call, and carried the filing's key once its write was done; nothing is written but that one row; alone, the call is the serialised filing |
| ClaimCalls.ApproveClaim | server/src/ors_server/claims.py:426-503 | After the sweep that every call begins with, the transaction step by step commits exactly the specification's approval; it misses exactly when the guarded SELECT found no pending row, so the guarded UPDATE never does, and it clashes exactly over somebody else's name |
| ClaimCalls.DenyClaim | server/src/ors_server/claims.py:530-543 | After the sweep, a denial is a won delete, and its fingerprint is suppressed afterwards |
| ClaimCalls.PollClaim | server/src/ors_server/api/claims.py:535-556 | After the sweep, whatever lands between its two reads, the answer is what the row says at the moment of the last: gone, waiting, or the blob it holds; a row granted before the call is answered with its blob unless something has ended the grant |
| ClaimCalls.GrantStandsUntilEnded | server/src/ors_server/claims.py:154-161 | A grant stands, unchanged, until a sweep half an hour or more after the approval, or the end of its daemon row, and no longer |
| ClaimCalls.ApprovalStandsUntilEnded | server/src/ors_server/claims.py:426-503 | From a won approval on, the row stands with that approval's blob exactly until one of the two, in any journal |
| ClaimCalls.SweepByItsOwnClock | server/src/ors_server/claims.py:150-161 | A sweep takes a pending row by when it was filed and a granted one by when it was granted, half an hour after |
| ClaimCalls.GrantHasItsApproval | server/src/ors_server/claims.py:426-503 | A row pending at one moment and granted later was granted by one won approval in between, of this fingerprint, sealed to the row's key, with the key's hash on the daemon row it minted |
| ClaimCalls.ApprovedBeforeTheWrite | server/src/ors_server/claims.py:232-239 | An approval between a filing's SELECT and its UPDATE leaves the row under the filing's key with a blob the filing's secret does not open |
| ClaimCalls.BearsForGood | server/src/ors_server/claims.py:240-261 | A claim id never comes to stand for another rack |
| Pairing.TokenIsSpentOnce | server/src/ors_server/pairing.py:130-208 | Of all claims of a token, however they interleave, at most one guarded update wins |
| Pairing.KeyLastsExactlyUntilRevoked | server/src/ors_server/pairing.py:94-208 | A winner's key is its row's key at a later moment if and only if nothing revoked it in between, and a revoked key is nobody's again |
| Pairing.CredentialNamesOneRow | server/src/ors_server/db.py:64-77 | In every reachable state no row holds both credentials and no credential is on two rows |
| Pairing.ClaimToken | server/src/ors_server/pairing.py:130-158 | An answer is a won spend that puts the key on the row; alone, it succeeds exactly when some row carries the token |
| Pairing.AuthenticateKey | server/src/ors_server/pairing.py:161-166 | Answers exactly the one row that carries the key |
| Pairing.MatchingId | server/src/ors_server/pairing.py:169-181 | The scan answers a row that carries the fingerprint, and nothing only when none does |
| Pairing.RotateKey | server/src/ors_server/pairing.py:94-127 | After a rotation the new token is the row's only credential, the row is no longer paired, and no other row moved |
| Pairing.MintToken | server/src/ors_server/pairing.py:66-91 | A free name gets one new row, unpaired and never connected, holding only the token; a taken one changes nothing |
| RateLimiting.Limiter.TooMany | server/src/ors_server/limiter.py:26-37 | The swept window answers exactly what the full history since the last clear would, and keeps exactly the live addresses |
| RateLimiting.Limiter.Record | server/src/ors_server/limiter.py:39-41 | An attempt joins the history |
| RateLimiting.Limiter.Clear | server/src/ors_server/limiter.py:43-49 | A clear starts the address's history over |
| RateLimiting.SweptStaysSwept | server/src/ors_server/limiter.py:32-36 | Sweeping early loses nothing a later question asks for |
| RateLimiting.SpacedCallersAreNeverRefused | server/src/ors_server/limiter.py:26-37 | A caller whose attempts are a gap apart never meets a limit that allows one a gap |
| Joining.Rack.Join | daemon/src/ors_daemon/join.py:272-354 | Each exchange is a look, a filing or a poll in its turn, and none of the polls meets the poll route's limiter. The first key handed over ends it: paired, beside a removed cache, exactly when the key opens with its filing's secret and both files can be written, and otherwise giving up over whichever failed, with no pairing written; several servers end it too and nothing else does. A key fails to open only if the approval came before the filing's write or after another filing's; after an exchange that brought nothing the nap is twice the last, up to five minutes |
| Joining.JoinFromScratch | daemon/src/ors_daemon/join.py:272-354 | From any sound tables and a new limiter: a rack that pairs holds the delivered key, which is its daemon row's key exactly until something revokes it |
| Joining.Rack.Handle | daemon/src/ors_daemon/join.py:314-354 | The key written was minted by a won approval of this rack's fingerprint, made after the polled filing began, sealed to that very filing's key, its hash on the daemon row; a key that will not open or cannot be written pairs nothing |
| Joining.Rack.WaitForApproval | daemon/src/ors_daemon/join.py:412-467 | The wait polls on through every answer but a 404, which ends it empty-handed, and a handed-over blob, which it returns: the granted row's for the claim polled |
| Joining.Rack.Ask | server/src/ors_server/api/claims.py:526-532 | The route asks the limiter, whoever else polls it from other addresses, and counts the poll: it is never turned away |
| Joining.Rack.File | daemon/src/ors_daemon/join.py:357-409 | A claim id comes from an accepted filing of this rack; everything else is a wait |
| Joining.GrantedKeyIdentifiesItsRow | server/src/ors_server/pairing.py:94-166 | The delivered key is its daemon row's key exactly until something revokes it |
| Joining.PollsFitTheBudget | daemon/src/ors_daemon/join.py:433-467 | Polls five seconds apart never meet the limit of sixty a minute |
| BootConfig.AlreadyHas | daemon/src/ors_daemon/boot_config.py:100-120 | The scan finds a setting exactly when some line makes it and the last header above it, if any, is `[all]` |
| BootConfig.FirstBusLine | daemon/src/ors_daemon/boot_config.py:104-119 | A line switches the first bus on exactly when it strips to `dtparam=spi=on` |
| BootConfig.SecondBusLine | daemon/src/ors_daemon/boot_config.py:104-117 | A line is an overlay for the second bus exactly when, stripped, it is no comment and reads `dtoverlay`, the first equals sign, and a value starting `spi1-`, whatever white space is around them |
| BootConfig.SectionsAreNamed | daemon/src/ors_daemon/boot_config.py:104-107 | A header is a stripped line in square brackets, and lifts every filter exactly when its name is `all` in any case |
| BootConfig.AppendingSuffices | daemon/src/ors_daemon/boot_config.py:242-285 | For any text, after appending, both settings are found under no filter and the old text is a prefix of the new |
| BootConfig.AppendedLines | daemon/src/ors_daemon/boot_config.py:268-285 | The new text's lines are the old ones, blank ones and ours, whatever the line endings |
| BootConfig.OneBlankLine | daemon/src/ors_daemon/boot_config.py:264-275 | The least that leaves a blank line between a text and ours |
| BootText.SplitApart | daemon/src/ors_daemon/boot_config.py:242 | Text after a finished line splits on its own, CR LF included |
| BootText.LineByLine | daemon/src/ors_daemon/boot_config.py:242 | A text splits at the first separator, CR LF counting as one, into the line before it and the lines after |
| BootFiles.BootDirectory.EnableSpi | daemon/src/ors_daemon/boot_config.py:223-293 | Nothing is touched exactly when some line under no filter strips to `dtparam=spi=on` and another is an `spi1-` overlay; otherwise a success adds exactly the setting or settings that are missing, behind the original in a free file, and both are then on; a failure leaves the file as it was; and at every moment on the way the file is whole, old or new |
| BootFiles.BootDirectory.EnableTwice | daemon/src/ors_daemon/boot_config.py:242-248 | A second run changes nothing |
| BootFiles.BootDirectory.CreateBackup | daemon/src/ors_daemon/boot_config.py:143-165 | The loop ends, at the first free name, which holds exactly the original; a failed write leaves nothing; a power cut in between finds the new file empty and no other touched |
| BootFiles.BootDirectory.WriteConfig | daemon/src/ors_daemon/boot_config.py:168-220 | The moments a power cut could pick, exactly: the temporary file empty, holding some beginning of the new text, whole, and then in place of the old; the file itself is wholly old or wholly new at each |
| BootFiles.BackupNamesDiffer | daemon/src/ors_daemon/boot_config.py:143-148 | No two suffixes make one name, so the loop cannot go round for ever |
| BootFiles.DecimalReadsBack | daemon/src/ors_daemon/boot_config.py:143-147 | A suffix is written in decimal and reads back as itself |
| Frames.FrameStream.Offer | daemon/src/ors_daemon/frames.py:277-308 | Taken exactly when open, watched, wanted and due: the time since the last one remembered, times the rate, is at least one; unless the screen's time was forgotten, at least a fifth of a second after its last accepted offer; the newest wins and a replaced one is counted |
| Frames.FrameStream.Encode | daemon/src/ors_daemon/frames.py:324-361 | A frame still watched takes its screen's next number, one refused takes none, so numbers run 0, 1, 2 without gap unless forgotten |
| Frames.FrameStream.Watch | daemon/src/ors_daemon/frames.py:198-204 | The watched set is replaced and the buffer stays within it |
| Frames.FrameStream.Enable | daemon/src/ors_daemon/frames.py:198-204 | The set and the capped rate are replaced; no screen in the new set is forgotten, and none at all with at most 256 tracked |
| Frames.FrameStream.Disable | daemon/src/ors_daemon/frames.py:206-230 | Nothing stays watched or waiting, and with at most 256 screens tracked no time and no number is forgotten |
| Frames.FrameStream.Close | daemon/src/ors_daemon/frames.py:257-262 | A closed stream holds nothing and takes nothing |
| Frames.FrameStream.Retire | daemon/src/ors_daemon/frames.py:232-255 | A deleted screen leaves the watched set and the buffer and nothing else |
| Frames.FrameStream.Take | daemon/src/ors_daemon/frames.py:310-322 | Everything waiting, once, with every accepted panel taken, waiting, replaced or discarded |
| Frames.FrameStream.Serve | daemon/src/ors_daemon/frames.py:198-361 | Through any calls in any order: the watched set is what the calls make it, accepted panels were taken, wait, were replaced or discarded; and for a screen every subscription names, or for all if at most 256 are ever mentioned, accepted panels are a fifth of a second apart and frames are numbered 0, 1, 2 |
| Frames.AcceptingKeepsPace | daemon/src/ors_daemon/frames.py:294-306 | Accepted offers stay a fifth of a second apart |
| Frames.Interval | daemon/src/ors_daemon/frames.py:364-375 | No interval for no rate, otherwise the reciprocal of the rate, and never shorter than the cap allows |
| Frames.RateAskedFor | daemon/src/ors_daemon/frames.py:364-375 | A rate up to five a second is kept, a higher or infinite one is five, and not-a-number or nothing means no frames |
| Rendering.ScreenWorker.Tick | daemon/src/ors_daemon/screen.py:169-220 | One lap, exactly: a faulted panel is not touched; a night lap sleeps the panel and touches neither the glass nor what is owed; a wake that fails leaves all but the attempt as it was; and a day lap whose commands are taken leaves on the glass that the screen is connecting while a source has never answered, else that it is stale while one has gone quiet, else its first scene whose condition passes, and stale if none does, unless the last frame before it was refused and nothing asks for a redraw; a frame is sent only for a new version, another scene, or the floor |
| Rendering.ScreenWorker.Serve | daemon/src/ors_daemon/screen.py:169-266 | Over any run of laps and identifies, across sleeps and wakes: if no command is refused, the glass after every day lap is what an always-redrawing worker would show; with refusals, another frame can stand there only after a refused frame, by a lap that sends nothing; and once three commands in a row are refused, no later lap or identify sends or changes anything |
| Rendering.FirstThatApplies | packages/ors-render/src/ors_render/render.py:22-38 | The choice is the scene at `k` exactly when its condition passes and no earlier one's does, and nothing exactly when none passes |
| Rendering.SelectIsCalled | daemon/src/ors_daemon/screen.py:414-449 | The selection by cases over the health of its sources: connecting outranks stale, stale outranks the scenes, and no scene means stale |
| Rendering.ScreenWorker.Identify | daemon/src/ors_daemon/screen.py:222-266 | Paints unless faulted, says whether it landed, and leaves the night as it found it |
| Rendering.ScreenWorker.Show | daemon/src/ors_daemon/screen.py:543-582 | The glass and the counters move together or not at all |
| Rendering.ScreenWorker.Command | daemon/src/ors_daemon/screen.py:498-541 | Faulted exactly when the last three commands failed in a row |
| Rendering.SameNameSameFrame | daemon/src/ors_daemon/screen.py:414-449 | With distinct names, a selection's name and version determine its frame |
| Rendering.ARefusedFrameIsNotRetried | daemon/src/ors_daemon/screen.py:216-220 | A concrete worker whose glass stays old after its panel works again |
| NightClock.BoundaryIsTheNextChange | daemon/src/ors_daemon/clock.py:55-104 | The answer lies in (0, 86400] seconds, night does not change before it, and flips then |
| NightClock.MinuteOfNight | daemon/src/ors_daemon/clock.py:55-71 | Night is from the start of the window to its end, over midnight if the end comes first, minute by minute; 23:30 is inside 22:00-07:00 (`NightClock.HalfPastElevenIsNight`) |
| NightClock.ParkThroughNight | daemon/src/ors_daemon/screen.py:376-392 | Parks of at most twenty seconds, under the watchdog's timeout, that land on the boundary itself |
| NightClock.BoundaryExactlyWhenNightChanges | daemon/src/ors_daemon/clock.py:80-104 | There is no boundary to wait for exactly when the window never changes from what it is now, and then it is never night |
| NightClock.SameBoundary | daemon/src/ors_daemon/clock.py:74-104 | Every moment before a boundary looks ahead to the same one |
| Budgets.Shutdown.Stop | daemon/src/ors_daemon/supervisor.py:1694-1762 | With signals landing between any two steps and inside any wait: total waiting within one budget, a whole one from when the first stop looked, and one more for each measurement or deadline another's waiting overtook, nothing overtaken unless a signal lands; every thread has been waited for, no tunnel has a child, and every panel is down whether or not time ran out |
| Budgets.Shutdown.ShutTunnel | daemon/src/ors_daemon/tunnel.py:339-383 | A tunnel without a child waits for nothing and signals nothing; a child is told to terminate and, unless it does, killed, half of what was left being given to each; unless a signal lands, both waits together stay within it, and nothing is overtaken |
| Budgets.Shutdown.Join | daemon/src/ors_daemon/supervisor.py:1716 | A thread is offered all that was left of the deadline when it was asked |
| Budgets.Shutdown.Wait | daemon/src/ors_daemon/supervisor.py:1716 | One wait: overtaken exactly when, as it begins, the waiting has come too far for what its measurement still has to spend; a signal inside it takes its time out of the wait's own |
| Budgets.StopRepeatedly | daemon/src/ors_daemon/supervisor.py:304-316 | Any number of stops in turn share one budget, with the same allowance for what signals overtake, and wait for every thread each time |
| Budgets.NestedJoinsReachTheBound | daemon/src/ors_daemon/supervisor.py:1716 | For any number of signals, a run of nested joins that waits exactly what the bound allows |
| Budgets.ChildAndDeadlineOverrun | daemon/src/ors_daemon/tunnel.py:363-375 | A signal inside a wedged child's first wait costs half a budget more, and one between finding no deadline and setting one a whole budget |
| Budgets.Guard | daemon/src/ors_daemon/supervisor.py:1507-1513 | Each kept worker is offered its full quarter second exactly while at most three quarters have gone, nothing once the whole second has, so the first four always get theirs when nothing but the waits takes time; what has gone is what the waits and the work between took |

## Left out

- Supervision.Supervisor.Apply: does not model an exception out of `_reconfigure_integrations`, which rolls the claim back and leaves the screens half moved, nor one out of a worker's constructor, which is swallowed (`supervisor.py:981-993`) and leaves a listed slot with an open panel, no worker and no record, one that later pushes match as unchanged; and nothing is promised about the unavailable records or the order of the slots when the push changes nothing a worker reads, because the code returns before touching them.
- Supervision.Supervisor.RunForever: a push or a probe runs between two laps of the watchdog and only after `start` has returned, because it takes the lock that `tick` and `stop` take and `start` does not; a check and the claim beside it are one step.
- Supervision.Supervisor.Start: integrations, pollers and tunnels are not started here; their waits appear in `budget.dfy` only. A display factory that raises is taken to have opened nothing.
- Supervision.Supervisor.Probe: the painted pattern and the length of the hold are not modelled; a probe is a panel opened, worked on and closed.
- Supervision.Supervisor.Tick: whether a heartbeat is stale is arbitrary, and the status file is not written.
- Supervision.Supervisor.Stop: joins are moments in which workers run; how long they last is `Budgets.Shutdown.Stop`. A slot is a number and the tables are its heap, so object identity is modelled and memory is not.
- VersionProtocol.SkippingIsSafe: one rack at a time; the server's edit transaction and its decision to skip are modelled as `link.py` and `snapshot.py` describe them.
- Claims.QueueIsItsHistory: the bound on the queue is for calls one after another, because `file_claim` is several autocommitted statements and two concurrent filings can both pass the count; the race properties hold for any interleaving.
- Tables.CommitKeepsSound: SHA-256 is injective, sealing opens only with the right secret, and random values are new; which row id SQLite reuses is arbitrary.
- Joining.Rack.Join: one server answers filings and polls; anything else on that port may answer any status but not a forged claim document. The filing limiter is an answer of 429, not a second `Limiter`; the poll limiter is one, and knows this rack by an address nobody else polls from. The limiter reads a clock that runs at the rack's rate and does not step back, while the tables' expiry may read any; the route takes both from one reading.
- RateLimiting.Limiter.TooMany: the agreement with the full history needs a clock that does not step back; a sweep at a later time has lost what an earlier question asks about.
- BootFiles.BootDirectory.EnableSpi: a rename is atomic and a write that returned is on the disk; text stands for bytes, since the codec carries undecodable bytes through unchanged; permissions, symlink races and the printed diff are not modelled, and which of the two candidate paths holds the file is the caller's.
- Frames.FrameStream.Encode: encoding is a size; the pump thread and the socket are not modelled.
- Rendering.ScreenWorker.Tick: rendering is a function of scene and data, so a scene that fails to draw is one whose frame is the error scene; rotation, mirroring and the browser copy are not modelled, and data is fixed by the version it was published under, which `unregister` does not respect.
- NightClock.BoundaryIsTheNextChange: a fixed offset only; daylight saving and naive times are not modelled.
- Threads, condition variables and locks: interleaved steps with the lock scopes the code states; a lock is one owner at a time.
- Status files, logging, argument parsing, discovery, installers and the web interface: plumbing, or easy members.
- `poller.py` and the link's reconnect backoff: bounded doubling on its own says little.
