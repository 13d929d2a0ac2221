# fii-docs-watcher: a verified model

The robot keeps an archive of fund filings. It reads an untrusted, paged listing,
records what it sees in a SQLite manifest, and files documents in a directory tree.
None of the three commits together with another, and a run may die between any two
effects. This project models that system in Dafny and proves what it promises.

How the parts fit together:

* `Archive` is everything that outlives a process -- manifest tables, archive,
  staging -- plus five history variables that only proofs read: the heirs of deleted
  files, the newest frontier applied, the requests made, the instant reached, and every
  watermark ever recorded with the scan that earned it. Every SQL statement or transaction
  and every file-system call is one `Effect`. `May` is the condition the code has
  established when it issues an effect; `Inv` is the invariant.
* `Safety` proves that every such effect keeps `Inv`; `Traces` lifts this to every
  prefix of every run (a crash keeps a prefix) and to every sequence of runs, and proves
  the whole-history properties. `Orphans` treats a property that fails and says exactly
  when; `Stranding` acts the failure out.
* `Hosts.Host` is the machine of one run: its methods perform one effect at a time and
  log it, so `log[..k]` is what a crash after `k` effects leaves. The pipeline stages --
  `Reconcile`, `Fetch`, `Correlate` and `Supersede`, `Purge`, `Discover`, `Monitor` --
  are methods on a host, each proved against the state it must leave. `Runs` puts them in
  the order of `execute` and strings runs, cut anywhere, into a life. What a run promises
  at each of its crash points beyond `Inv` is a `Monitor.Vow`: the cursors' promises, that
  every watermark was earned, and, if the run is narrow, that it records none. `Widening`
  shows why those promises are about rows since the start of a window; `Delivery` follows
  one publication through all the stages of a run.
* `Listing`, `Newest` and `Moving` are the paged reads: a scan of a fixed set of rows in
  adversarial order, and a newest-first read of a listing that moves while it is read.
* `Clock` ties dates, day numbers and stored text together: delivery dates are stored and
  compared as text throughout, and a window is one of days.
* `Naming`, `Config`, `Cnpj`, `Ownership`, `Watchlist`, `Registry` and
  `YamlStore` are the supporting pieces, each with the property it exists for.

Time is a natural number that advances with each request. The source is a `World`: what
it would answer at every instant, to each window asked for. Which requests fail, when the
operator stops a run, which files cannot be deleted or read, what the source serves and
how writes go wrong are parameters, universally quantified. What is assumed of an honest
source is met by any listing that stands still (`Monitor.StillWorldIsHonest`). Content
validation is a predicate on bytes, hashing is injective, and Unicode folding is an
arbitrary function.

## Model

| member | source | states |
|---|---|---|
| Listing.Pages | src/fii_docs_watcher/fnet/listing.py:155-186 | one pass asks for consecutive slices, ends with the last slice at or past the end of the listing, reports the largest count it was told, and terminates |
| Listing.Reap | src/fii_docs_watcher/fnet/listing.py:400-413 | valid rows are kept by identity and malformed ones by fingerprint, whatever repeats arrive |
| Listing.Scan | src/fii_docs_watcher/fnet/listing.py:364-460 | at most three passes; the result is that of one pass; only the third is returned short |
| Listing.CompleteMeansEverything | src/fii_docs_watcher/fnet/listing.py:85-92 | for a fixed set of rows in any order on every request, a pass is complete if and only if the rows have distinct keys and every key was served |
| Listing.CompleteHoldsEveryRow | src/fii_docs_watcher/fnet/schema.py:154-182 | a complete pass holds every publication and every malformed row, and nothing else |
| Listing.SteadyScanCompletes | src/fii_docs_watcher/fnet/listing.py:389-433 | a source that keeps one order is complete on the first pass exactly when its rows have distinct keys |
| Listing.RowCountAdmitsLoss | src/fii_docs_watcher/fnet/listing.py:85-92 | a concrete run in which counting rows would accept a lost row and counting identities refuses it |
| Newest.Accept | src/fii_docs_watcher/fnet/listing.py:283-311 | a row is accepted exactly while the rows heard so far stay in non-increasing order without a repeated identity |
| Newest.AcceptRows | src/fii_docs_watcher/fnet/listing.py:282-311 | a page is accepted whole or stops at its first violation |
| Newest.ReadPage | src/fii_docs_watcher/fnet/listing.py:274-324 | one answered request either continues an orderly read, ends it soundly, or exhibits a violation |
| Newest.ScanNewest | src/fii_docs_watcher/fnet/listing.py:211-325 | every way a read ends: complete, count drift, broken contract or a failed request, each with exactly what it implies about what was served |
| Moving.ReadCovers | src/fii_docs_watcher/fnet/listing.py:248-325 | on a moving source, a row that stays listed from some page on is collected by a complete read unless it is below the cursor |
| Moving.CompleteReadCoversPersisting | src/fii_docs_watcher/fnet/listing.py:221-239 | a complete read collects a row that persisted through it if and only if it is at or above the cursor, so no tie group is split |
| Moving.BelowNewestIsCollected | src/fii_docs_watcher/pipeline/discover.py:266-277 | every row below the reported newest instant that is still listed later was collected, even one that arrived mid-read |
| Moving.NewestIsListed | src/fii_docs_watcher/fnet/listing.py:306-307 | the newest instant reported never exceeds the source's own high mark |
| Moving.RequestBound | src/fii_docs_watcher/fnet/listing.py:312-325 | a read makes at most max(1, ceil(total / length)) requests however it ends |
| Safety.StatementKeeps | src/fii_docs_watcher/manifest/repo.py:115-750 | every manifest statement, issued where the code issues it, keeps the invariant |
| Safety.TransactionKeeps | src/fii_docs_watcher/pipeline/supersede.py:154-181 | so does every transaction, statement by statement |
| Safety.UpsertKeeps | src/fii_docs_watcher/manifest/repo.py:123-189 | rediscovery rewrites the descriptive columns only, returns an abandoned row to the queue and leaves any other state, adds an unknown row blank, touches no other row, and keeps the invariant |
| Safety.MarkAvailableKeeps | src/fii_docs_watcher/manifest/repo.py:341-361 | marking a published file available is sound with the hash of the bytes on disk |
| Safety.MarkPurgedKeeps | src/fii_docs_watcher/manifest/repo.py:410-425 | of the rows with usable dates exactly those before the frontier and not spared are marked; no row is marked whose file is still there; the invariant survives |
| Safety.PublishKeeps | src/fii_docs_watcher/pipeline/fetch.py:236-250 | the rename touches nobody else's file, because names determine identities |
| Safety.UnlinkKeeps | src/fii_docs_watcher/pipeline/purge.py:62-71 | deleting a superseded file is sound while its replacement is available |
| Safety.RemoveTreeKeeps | src/fii_docs_watcher/pipeline/purge.py:114-129 | removing all or part of an expired date directory is sound before any row is marked |
| Safety.EffectKeeps | src/fii_docs_watcher/pipeline/fetch.py:206-266 | every effect the code may issue keeps the invariant: the inductive step of crash safety |
| Traces.EveryCrashPointIsSound | src/fii_docs_watcher/pipeline/reconcile.py:1-34 | the invariant holds after every prefix of every run |
| Traces.HistoryIsSound | src/fii_docs_watcher/run.py:246-267 | and after any number of runs, each dying anywhere |
| Traces.HistoryIsATrace | src/fii_docs_watcher/run.py:246-267 | such a history is one allowed trace from the empty archive, so trace theorems apply to it |
| Traces.PointsGrow | src/fii_docs_watcher/manifest/repo.py:220-252 | between any two points of a history rows are never lost, filed rows never go back, recorded winners never drop in (version, id), cursors and ledgers never shrink |
| Traces.FiledAtMostOnce | src/fii_docs_watcher/manifest/repo.py:273-299 | a row once available is afterwards only available, superseded or purged, never requested again, with at most one success, and purged_at set exactly when purged |
| Traces.ExhaustedIsFinal | src/fii_docs_watcher/manifest/repo.py:620-637 | at every point of every history a publication with a usable delivery date has at most five budget-consuming attempts; once they are used up, or if the date is unusable, it is never requested again |
| Traces.BudgetHoldsExactlyWhenDated | src/fii_docs_watcher/pipeline/fetch.py:289-322 | the attempts a pending publication can accumulate over all allowed traces stay within the budget if and only if its delivery year has four digits |
| Traces.SomethingSurvives | src/fii_docs_watcher/pipeline/supersede.py:186-237 | at every instant of every history, from any publication ever filed the heirs lead through strictly later versions to one readable now, or to one retention took |
| Traces.SweptRowsNameTheirHeir | src/fii_docs_watcher/manifest/repo.py:254-271 | a consolidated deletion names as its winner the publication whose presence justified it |
| Traces.FollowMarks | src/fii_docs_watcher/manifest/repo.py:254-271 | in the manifest's own columns: from any swept row of a reachable store `superseded_by` leads through later versions to an available or an aged-out row |
| Orphans.OrphanStep | src/fii_docs_watcher/manifest/repo.py:115-750 | what one statement does to one file: an orphan after it is one that the statement strands, or one before it that the statement does not choose as a destination again |
| Orphans.OrphanedExactlyByRetargeting | src/fii_docs_watcher/manifest/repo.py:323-339 | from an archive without orphans a statement makes one if and only if it records a new destination while the file of the previous one is on disk |
| Orphans.FileOperationOrphans | src/fii_docs_watcher/pipeline/fetch.py:236-250 | no rename, staging write or removal makes an orphan, and only removing the date directory ends one |
| Orphans.OrphansOfATrace | src/fii_docs_watcher/pipeline/reconcile.py:49-123 | over any history: a file is without a row if and only if some effect stranded it and no later one chose it again or removed it |
| Orphans.NamedByExactlyOneRow | src/fii_docs_watcher/pipeline/naming.py:92-116 | without orphans, a row names a file if and only if the file's name decodes to that row |
| Stranding.StrandAFile | src/fii_docs_watcher/pipeline/reconcile.py:57-68 | two processes acted out by the stages: filed as a PDF and dead before the mark, unreadable at recovery, filed as XML -- for every such row and setting the first file is left without a row |
| Stranding.DieBeforeMarking | src/fii_docs_watcher/pipeline/fetch.py:250-266 | a download cut after its rename leaves the file in place and its row pending, pointing at it, with no attempt charged |
| Hosts.Host.constructor | src/fii_docs_watcher/run.py:246-250 | a run starts from whatever sound store it finds |
| Hosts.Host.Sound | src/fii_docs_watcher/run.py:246-267 | at any moment the store is sound, and so is every earlier point of the run |
| Hosts.Host.Perform | src/fii_docs_watcher/manifest/repo.py:115-121 | one effect: the new store is the effect applied to the old, the log grows by it |
| Reconcile.Run | src/fii_docs_watcher/pipeline/reconcile.py:49-136 | promotes exactly the intermediate rows whose file is usable, requeues the others, sweeps exactly the stale staging files; the hash-mismatch branch is never taken |
| Reconcile.SweepStaging | src/fii_docs_watcher/pipeline/reconcile.py:139-165 | removes exactly the staging files older than the cutoff |
| Reconcile.NothingLeftMidFlight | src/fii_docs_watcher/pipeline/reconcile.py:49-123 | after recovery no row is downloading and no usable file is left unpromoted |
| Reconcile.ReconcileIsIdempotent | src/fii_docs_watcher/pipeline/reconcile.py:49-136 | a second pass over the same files changes nothing |
| Reconcile.AvailableHasItsBytes | src/fii_docs_watcher/pipeline/reconcile.py:49-123 | an available row inside retention that nothing replaced has its file, with the recorded hash |
| Reconcile.Recovery | src/fii_docs_watcher/pipeline/reconcile.py:49-136 | crash recovery: after any history of cut runs one pass leaves nothing downloading, nothing for a second pass, and every available, unreplaced row inside retention with its bytes and hash |
| Fetch.Stage | src/fii_docs_watcher/pipeline/fetch.py:247-249 | a staging file is opened empty and then holds the content, or fails torn; both effects in order |
| Fetch.Land | src/fii_docs_watcher/pipeline/fetch.py:250-266 | rename, then mark, then log: these effects in this order, with the whole state they leave |
| Fetch.Publish | src/fii_docs_watcher/pipeline/fetch.py:206-266 | succeeds exactly when no file call fails; the effects in order as far as the fault lets it come; then the row is available at its decodable path with the bytes and hash served |
| Fetch.Conclude | src/fii_docs_watcher/pipeline/fetch.py:181-203 | a failure or decline logs one attempt, then one state change of its own row, and nothing else |
| Fetch.FetchOne | src/fii_docs_watcher/pipeline/fetch.py:281-427 | which of the eight endings is reached, decided by the delivery date, budget, answer, validation, CNPJ, format and disk; the effects of each, in order; and exactly what each leaves; no other publication is touched |
| Fetch.Ask | src/fii_docs_watcher/pipeline/fetch.py:323-427 | past the two early exits: mark, request, then the answer dealt with, effect by effect |
| Fetch.TryRepeatedly | src/fii_docs_watcher/pipeline/fetch.py:290-305 | the input on which the budget fails: a row whose stored date does not parse is charged one more attempt each time it is reached, without bound and without a request |
| Fetch.DeclineAll | src/fii_docs_watcher/pipeline/fetch.py:517-528 | exactly the declined rows become skipped |
| Fetch.Oldest | src/fii_docs_watcher/manifest/repo.py:284-288 | the head of the queue: before every other row by stored delivery date, then id, then version |
| Fetch.DownloadAll | src/fii_docs_watcher/pipeline/fetch.py:541-551 | every wanted row not left behind is brought to the verdict it is due, and those due to land are on disk at their own names with the bytes served; whatever is left when the run is stopped comes later in the queue than everything taken, and is untouched; undisturbed nothing is left; the count is the number that landed |
| Fetch.Run | src/fii_docs_watcher/pipeline/fetch.py:472-551 | only rows of unambiguous entities in wanted formats are requested, oldest first; declined ones are skipped unasked, deferred and filed ones untouched; every wanted row reached gets the verdict it is due |
| Ownership.EntityIndex.constructor | src/fii_docs_watcher/pipeline/fetch.py:80-111 | an id resolves if and only if it occurs exactly once across all scopes, and is reported as conflicted if and only if it occurs more often |
| Ownership.Gather | src/fii_docs_watcher/scope/resolver.py:285-304 | first occurrences by id, and the ids some later occurrence contradicts |
| Ownership.Consolidate | src/fii_docs_watcher/scope/resolver.py:281-316 | an id is kept if and only if all its occurrences share one identity, whatever the order; what is kept is its first occurrence with its earlier confirmation |
| Ownership.CarriedOnlyToItself | src/fii_docs_watcher/scope/resolver.py:310-315 | a confirmation is carried only to exactly the same (id, type, CNPJ), and changes nothing else |
| Correlate.Group | src/fii_docs_watcher/pipeline/supersede.py:87-122 | every document is filed under its id and, with a reference date, under its filing key, and nothing else is |
| Correlate.Winner | src/fii_docs_watcher/pipeline/supersede.py:127-130 | a group's highest version, a tie going to the later id |
| Correlate.Correlate | src/fii_docs_watcher/pipeline/supersede.py:107-139 | a document loses if and only if a related one has a higher version, and then to the leader of one of its groups with the highest version in both |
| Correlate.OrderIndependent | src/fii_docs_watcher/pipeline/supersede.py:107-139 | losers and winning versions do not depend on the input order |
| Correlate.OnlyTiesDependOnOrder | src/fii_docs_watcher/pipeline/supersede.py:131-136 | the winner's identity can depend on the order only when the two groups have different leaders of one version |
| Correlate.EitherLeaderWillDo | src/fii_docs_watcher/pipeline/supersede.py:131-136 | and then either leader is an exact answer |
| Supersede.CorrelatableByDay | src/fii_docs_watcher/manifest/repo.py:198-218 | the range check on stored text admits exactly the unpurged pending or available rows delivered inside the window |
| Supersede.Select | src/fii_docs_watcher/manifest/repo.py:191-218 | the rows taking part, each once |
| Supersede.Statements | src/fii_docs_watcher/pipeline/supersede.py:154-181 | the statements of one transaction, loser by loser, amount to recording every winner at once, in any order |
| Supersede.Detect | src/fii_docs_watcher/pipeline/supersede.py:142-183 | in one transaction, exactly the losers in the window get their winner recorded, pending ones are cancelled, and every other row is unchanged |
| Supersede.RemoveFiles | src/fii_docs_watcher/pipeline/purge.py:45-88 | deletes each doomed file that can be deleted and reports exactly those |
| Supersede.Consolidate | src/fii_docs_watcher/manifest/repo.py:254-271 | exactly the removed rows become superseded and lose their path |
| Supersede.Sweep | src/fii_docs_watcher/pipeline/supersede.py:186-237 | only files whose recorded winner is available in the window go, all deletable ones do, and the rows say so |
| Supersede.UnremovedStaysReadable | src/fii_docs_watcher/pipeline/purge.py:67-71 | a row the sweep did not remove keeps its file |
| Supersede.DeletionLeavesASurvivor | src/fii_docs_watcher/pipeline/supersede.py:186-237 | if every available row of the window had its file, each deleted one leads through `superseded_by` to a strictly later one whose file remains, even when winners are doomed in the same batch or some deletions fail |
| Purge.RemoveDirectories | src/fii_docs_watcher/pipeline/purge.py:98-129 | exactly the expired directories are attempted; what is left before the frontier lies in one that failed |
| Purge.MarkedBefore | src/fii_docs_watcher/manifest/repo.py:410-425 | whatever the marking adds to the purged rows was delivered before the frontier |
| Purge.Run | src/fii_docs_watcher/pipeline/purge.py:91-147 | rows before the frontier are marked unless their directory failed, later files are untouched, no file is left behind a row that says it is gone |
| Discover.UpsertAll | src/fii_docs_watcher/pipeline/discover.py:121-127 | the rows of a scan are learned, new ones blank and known ones refreshed, in any order |
| Discover.DiscoverEntity | src/fii_docs_watcher/pipeline/discover.py:71-178 | one transaction after all requests: the manifest afterwards holds exactly what the scan of this window learned; a watermark with the scan that earned it is recorded if and only if the scan was complete and the window reached the retention frontier; a short one marks its entity failing and no other; a failed scan changes nothing |
| Discover.ScannedRows | src/fii_docs_watcher/pipeline/discover.py:102-127 | a complete scan of rows held still has collected all of them |
| Discover.QueryEarns | src/fii_docs_watcher/pipeline/discover.py:102-141 | one query leaves every watermark earned, teaches only rows the source served for this window, and covers the entity if complete, as it is when the source stands still |
| Discover.WatermarkIsEarned | src/fii_docs_watcher/pipeline/discover.py:92-132 | a recorded watermark is the last day of a complete scan of exactly this entity and window, reaching that run's retention frontier; everything the source served to it, and everything its listing then showed of the entity in the window, is in the manifest |
| Watchlist.MonitoredNames | src/fii_docs_watcher/pipeline/watchlist.py:23-53 | the index holds, per fund type and folded name, exactly the owners answering to it, each once, never under a blank name |
| Monitor.Candidates | src/fii_docs_watcher/pipeline/discover.py:350-359 | exactly the rows above the cursor and the unknown rows at it |
| Monitor.Gate | src/fii_docs_watcher/pipeline/discover.py:361-367 | every owner of this type answering to a candidate is queried, and nobody else |
| Monitor.MayAdvance | src/fii_docs_watcher/pipeline/discover.py:266-277 | a complete read whose gated queries all completed entitles the cursor to move to the newest instant |
| Monitor.UnknownRowIsCandidateNextTime | src/fii_docs_watcher/pipeline/discover.py:350-359 | an unknown row at the cursor minute or later that the window goes on showing is a candidate of the next complete read |
| Monitor.RowBelowTheCursorIsNeverCandidate | src/fii_docs_watcher/pipeline/discover.py:350-359 | and a row below the cursor never is one again, whatever window is asked for |
| Monitor.PromisedLater | src/fii_docs_watcher/manifest/repo.py:732-750 | neither time passing nor rows being learned breaks a cursor's promise |
| Monitor.QueryOne | src/fii_docs_watcher/pipeline/discover.py:375-417 | one gated query: a failed or short one marks its own entity failing and leaves every other entry; a complete one covers the entity; the vow holds at every crash point |
| Monitor.QueryGated | src/fii_docs_watcher/pipeline/discover.py:369-417 | unless stopped or short, every gated entity has been completely scanned after the read |
| Monitor.AdvanceSafely | src/fii_docs_watcher/manifest/repo.py:732-750 | the one write of a cursor is a promise already kept, and only that cursor moves |
| Monitor.MonitorType | src/fii_docs_watcher/pipeline/discover.py:298-431 | one fund type of a firing, with every abort, failure, short scan and stop; undisturbed it learns every watched row and leaves nothing above the cursor |
| Monitor.CalmKnows | src/fii_docs_watcher/pipeline/discover.py:350-417 | an undisturbed firing learns every watched row its window shows, below, at and above the old cursor |
| Monitor.RunMonitor | src/fii_docs_watcher/pipeline/discover.py:246-433 | one firing on a window: at the end and at every crash point, every well-formed row still listed, dated before its cursor and not before the window, whose name matches its owner, is in the manifest; every watermark is earned; a narrow firing records none; undisturbed, all types catch up |
| Monitor.RunSweep | src/fii_docs_watcher/pipeline/discover.py:180-243 | the sweep keeps the same vow at every crash point, moves no cursor and, undisturbed, covers every configured entity |
| Widening.WideningHidesARow | src/fii_docs_watcher/run.py:220-221 | why the promise starts at the window: an undisturbed firing on one day, then a window of two; a watched row of the day before is unknown, below the cursor, and in no complete read of the wider window at any time |
| Config.AcceptedNeverChurns | src/fii_docs_watcher/config.py:421-444 | accepted widths are exactly those ordered 1 <= monitor <= sweep <= retention, and then no profile discovers before the retention window even if today moves between two readings |
| Config.DefaultsAreAccepted | src/fii_docs_watcher/config.py:219-242 | naming neither width is accepted for every retention and sweeps all of it |
| Runs.AsideKeeps | src/fii_docs_watcher/run.py:311-350 | a stage that moves no cursor and records no watermark keeps the vow at every point inside it |
| Runs.Recover | src/fii_docs_watcher/run.py:252-277 | recovery and standing down leave exactly the settled store without the pending rows of unconfigured entities |
| Runs.FileAway | src/fii_docs_watcher/run.py:315-343 | detect, fetch, sweep and purge, each with its whole effect, in this order; together they move no cursor or watermark, apply no frontier but the retention window's, and purge only what was delivered before it |
| Runs.Execute | src/fii_docs_watcher/run.py:202-364 | one run of either profile: recovery, discovery, detection, download, sweep and purge, in this order and each with its effect; sound and its vow kept at every crash point; whatever was not purged when it started and is at any point of it was delivered before the discovery window, with no condition on earlier retention; an early exit does recovery alone; undisturbed, a sweep covers every entity and a monitor catches up |
| Delivery.WantedIsDelivered | src/fii_docs_watcher/run.py:315-343 | end to end: a pending row of the retention window that is wanted, unambiguous and served soundly is, when the run ends, on disk at its own name with the bytes served, or has a replacement on record |
| Runs.NarrowRunsMoveNoWatermark | src/fii_docs_watcher/pipeline/discover.py:98-132 | at no point of a narrow run does any entity show another watermark than the run found |
| Runs.Life | src/fii_docs_watcher/run.py:202-364 | any number of runs of either profile, each cut anywhere: sound, every watermark ever recorded earned, none at all if every run is narrow, and the promises kept for rows since any day by which every monitor window has started; if retention only moves forward, nothing since the last discovery window is purged; the life is a history, so all history theorems hold of it |
| Runs.MonitoredLife | src/fii_docs_watcher/run.py:202-364 | if the monitors' windows move forward, every watched row inside the last firing's window, still listed and dated before its cursor, is in the manifest |
| Runs.OneRun | src/fii_docs_watcher/run.py:246-364 | one process of that life |
| Naming.FilenameDeterminesIdentity | src/fii_docs_watcher/pipeline/naming.py:43-116 | for all prefixes, categories and species the stored name decodes to its own (id, version) and is one visible path component |
| Naming.DistinctPublicationsDistinctNames | src/fii_docs_watcher/pipeline/naming.py:92-121 | two publications never share a stored or a staging name |
| Naming.Sanitize | src/fii_docs_watcher/pipeline/naming.py:43-62 | a component holds no separator or unsafe character, has no dash or dot at either end, and exceeds its limit at most by the suffix of a reserved name |
| Clock.OrdinalOrder | src/fii_docs_watcher/clock.py:167-182 | calendar order is day-number order |
| Clock.DaysAreDates | src/fii_docs_watcher/clock.py:193-205 | dates and day numbers correspond one to one and in order, so adding days is adding numbers |
| Clock.DirNameRoundTrip | src/fii_docs_watcher/clock.py:87-112 | a formatted date parses back to itself if and only if its year is at least 1000 |
| Clock.ParseRoundTrip | src/fii_docs_watcher/clock.py:96-112 | a parsed name formats back to itself, from the year 1000 on |
| Clock.NameOrder | src/fii_docs_watcher/clock.py:87-93 | text order of directory names is calendar order |
| Clock.TextParses | src/fii_docs_watcher/clock.py:96-112 | the text stored for a day parses, and to that day, if and only if its year has four digits |
| Clock.TextOrder | src/fii_docs_watcher/manifest/repo.py:204-205 | comparing two stored texts compares the days, from the year 1000 on |
| Clock.TextIsUnique | src/fii_docs_watcher/manifest/repo.py:413-421 | the exclusion list of a purge names by text exactly the days it means |
| Clock.WindowAgrees | src/fii_docs_watcher/clock.py:167-194 | checking stored text, checking the date, listing the dates and comparing day numbers agree |
| Clock.DatesInOrder | src/fii_docs_watcher/clock.py:193-205 | the dates of a window of `days` days ascend to its last, each once, and there are `days` of them |
| Cnpj.MaskRoundTrip | src/fii_docs_watcher/scope/cnpj.py:22-68 | masking any spelling never changes which CNPJ is meant |
| Cnpj.SingleDigitTypo | src/fii_docs_watcher/scope/cnpj.py:41-60 | changing one digit of a valid CNPJ gives a valid one exactly when a base digit changed, all remainders are 0 or 1 and no repunit results, which needs index 0, 4 or 8 |
| Cnpj.TypoInText | src/fii_docs_watcher/scope/cnpj.py:22-60 | the same of two spellings in ASCII digits |
| Cnpj.EveryBlindSpotIsReal | src/fii_docs_watcher/scope/cnpj.py:41-60 | at each of the three places there are two valid CNPJs one digit apart |
| Registry.MergedTypesMeaning | src/fii_docs_watcher/cvm/registry.py:155-165 | candidate types are the union over the families, without repeats, the first family's best guess first |
| Registry.PrimaryClass | src/fii_docs_watcher/cvm/registry.py:302-308 | the representative row is active if and only if some row is |
| Registry.Collect | src/fii_docs_watcher/cvm/registry.py:231-235 | class rows are grouped by (CNPJ, name), each group once, in first-seen order |
| Registry.Members | src/fii_docs_watcher/cvm/registry.py:228-241 | a group is emitted exactly once, if and only if one of its reachable rows is active |
| Registry.ExpandFund | src/fii_docs_watcher/cvm/registry.py:227-248 | a fund's expansion equals a naive scan of the raw rows, with the union of candidate types, and includes the fund itself exactly when no emitted class shares its CNPJ |
| Registry.Expand | src/fii_docs_watcher/cvm/registry.py:209-257 | which of fund, lone class or unknown a CNPJ is, and what each yields |
| YamlStore.FundsFile.constructor | src/fii_docs_watcher/scope/yaml_store.py:122-151 | a loaded file is remembered by the digest of its bytes |
| YamlStore.FundsFile.Save | src/fii_docs_watcher/scope/yaml_store.py:266-308 | the whole outcome of a save among edits at five points: it proceeds exactly when both looks find the known version |
| YamlStore.NoLostEdit | src/fii_docs_watcher/scope/yaml_store.py:266-308 | after any saves and edits: a conflict leaves the human's bytes, a success leaves the replaced version in the backup, and a human's text is overwritten exactly when it landed between the final re-read and the rename |

### Where the code does less than its prose says

* "Every archived file is named by exactly one row" fails. A file published just before a
  crash and unreadable at recovery is requeued, and if the next try chooses another name
  the old file stays without a row until that name is chosen again or its directory goes.
  `Orphans.OrphansOfATrace` says exactly when, over any history, and
  `Stranding.StrandAFile` is a life that ends so.
* `execute` reads today twice, although its documentation says once (lines 220-221 of
  `run.py`). `Runs.Execute` allows the second reading to be later.
* The hash-mismatch report of `reconcile` cannot be reached: an intermediate row never
  carries a hash.
* "Never left with neither copy" holds for files the sweep deletes. A pending loser is
  cancelled before its winner has landed.
* A row whose file was deleted but not yet marked when the run died may later be pointed
  at a newer winner. The history variable `heirs` keeps the one that justified the
  deletion, and `Traces.SomethingSurvives` follows that one; `Traces.FollowMarks` speaks
  of the manifest's column for rows that were marked.
* Directory names round-trip only from the year 1000 on, where the platform's year format
  does not pad (`Clock.DirNameRoundTrip`). The branch of `fetch_one` for an unusable
  delivery date is taken exactly for rows delivered earlier, and it charges an attempt
  before the budget is looked at. "At most five attempts" therefore holds exactly for rows
  whose delivery year has four digits (`Traces.BudgetHoldsExactlyWhenDated`), and
  `Fetch.TryRepeatedly` exceeds any bound on one that has not.
* "Everything above the cursor was dealt with" is true of the window asked for, not of a
  wider one asked for later. After `monitor_days` is raised, rows of the added days below
  the cursor are never candidates (`Widening.WideningHidesARow`); only a sweep finds them.
  The promises are stated for rows since the latest start of a monitor window.
* A purge compares texts too, so a retention frontier before the year 1000 would select
  rows by the wrong order; `Runs.Acceptable` asks for a frontier from then on.

## Left out

- Fetch.FetchOne: the filename prefix is a parameter, so the choice of ticker, description or CNPJ is not modelled; nor are the warnings logged on the way.
- Monitor.RunMonitor: speaks of a fixed watch list and visits fund types in any order; refreshing an entity's description after a scan changes the watch list of the next run and is not modelled.
- Moving.CompleteReadCoversPersisting: assumes the source serves slices of one current listing, sorted by instant, where rows leave anywhere and join only at the newest end; the code itself never compares what it collected with the count.
- Discover.DiscoverEntity: assumes the rows of one entity are a fixed set while they are scanned, of bounded size, and contain what the listing shows of the entity.
- Runs.Execute: an exception that escapes a stage is one more crash point; scope resolution, the inbox, the audit and the second save of the funds file sit outside the store and are not composed here; a retention frontier before the year 1000 is excluded.
- Correlate.Correlate: groups are compared in any order, where the code uses insertion order; so which of two tied leaders is named is left open.
- Purge.Run: foreign files, the inbox and directories that are not dates are not modelled; a directory without archived files is.
- Supersede.RemoveFiles: removing a date directory left empty is not modelled.
- Clock.NameOrder: years before 1000 are excluded, where the platform's year format is not padded; only ASCII digits are names.
- Cnpj.TypoInText: speaks of ASCII digits; other decimal characters are covered by `Cnpj.MaskRoundTrip` only.
- YamlStore.FundsFile.Save: rendering and YAML round trips are parameters; edits land at five points of a save, digests are ideal.
- Columns: timestamps are set-or-unset flags; `entity_cnpj`, `status`, `modality` and free-text errors are not modelled. The cursor is a number of minutes, which the stored text orders alike under one fixed offset.
- HTTP transport, retry, rate limiting, content validation, header parsing and Unicode folding: parameters.
- Process death is modelled, power loss is not: staging files are not synced.
- The commands that remove a fund or purge by hand, the lock, the scheduler, logging, name resolution against the source, and the global audit.
