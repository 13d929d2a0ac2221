/** Every effect the code may issue keeps the invariant, so every crash point has it. */
module Safety {
  import opened Base
  import opened Clock
  import opened Listing
  import opened Archive
  import Naming

  // ------------------------------------------------------ how rows may change

  /** What every statement does to the row of `id`, seen from the archive's side. */
  predicate RowStep(s: Store, horizon: int, id: Id, was: Row, now: Row) {
    && now.delivery == was.delivery
    && (now.path.Some? ==> Names(now.path.value, id, was.delivery))
    && (was.landed ==> now.landed)
    && (now.digest.Some? <==> now.landed)
    && (now.state == Available ==>
          now.landed &&
          (OnFile(s.files, now) || (was.state == Available && now.path == was.path && now.digest == was.digest)))
    && (now.landed ==> now.state in {Available, Superseded, Purged} && Padded(now.delivery))
    && (now.landed && now.state == Superseded ==> id in s.heirs && now.supersededBy == Some(s.heirs[id]))
    && (now.purged <==> now.state == Purged)
    && (now.state == Purged ==> now.path.None?)
    && (now.state == Purged && Padded(now.delivery) ==> now.delivery < horizon)
    && MarkStep(s, id, was.supersededBy, now.supersededBy)
  }

  predicate OnFile(files: map<Path, Bytes>, row: Row) {
    row.path.Some? && row.path.value in files && row.digest == Some(Sha256(files[row.path.value]))
  }

  predicate MarkStep(s: Store, id: Id, was: Option<Id>, now: Option<Id>) {
    now == was || (now.Some? && now.value in s.documents && id.version < now.value.version)
  }

  /** Only rows changed, each by a `RowStep`; new rows are blank. */
  ghost predicate RowsStep(s: Store, t: Store) {
    && t == s.(documents := t.documents, horizon := t.horizon)
    && s.horizon <= t.horizon
    && s.documents.Keys <= t.documents.Keys
    && (forall id :: id in s.documents ==> RowStep(s, t.horizon, id, s.documents[id], t.documents[id]))
    && (forall id :: id in t.documents && id !in s.documents ==> Blank(t.documents[id]))
  }

  predicate Blank(row: Row) {
    row.state == Discovered && row.path.None? && row.digest.None? && !row.landed && !row.purged
      && row.supersededBy.None?
  }

  lemma RowsKeepPaths(s: Store, t: Store)
    requires PathsNamed(s) && RowsStep(s, t)
    ensures PathsNamed(t)
  {
    hide Naming.IdentityOf, Names;
  }

  lemma RowsKeepFiles(accepts: Bytes -> bool, s: Store, t: Store)
    requires FilesOwned(accepts, s) && RowsStep(s, t)
    ensures FilesOwned(accepts, t)
  {
    hide Naming.IdentityOf, Names, MarkStep, Blank, OnFile;
  }

  lemma RowsKeepKept(s: Store, t: Store)
    requires Kept(s) && RowsStep(s, t)
    ensures Kept(t)
  {
    hide Naming.IdentityOf, Names, MarkStep;
  }

  lemma RowsKeepHeirs(s: Store, t: Store)
    requires HeirsSound(s) && RowsStep(s, t)
    ensures HeirsSound(t)
  {
    hide Naming.IdentityOf, Names, OnFile;
  }

  lemma RowsKeepLanded(s: Store, t: Store)
    requires RowsStep(s, t)
    ensures LandedSound(t)
  {
    hide Naming.IdentityOf, Names, OnFile, MarkStep;
  }

  lemma RowsKeepPurged(s: Store, t: Store)
    requires RowsStep(s, t)
    ensures PurgedSound(t)
  {
    hide Naming.IdentityOf, Names, OnFile, MarkStep;
  }

  lemma RowsKeepMarks(s: Store, t: Store)
    requires MarksSound(s) && RowsStep(s, t)
    ensures MarksSound(t)
  {
    hide Naming.IdentityOf, Names, OnFile;
  }

  lemma RowsKeepLedgers(s: Store, t: Store)
    requires AttemptsSound(s) && WatermarksSound(s) && RowsStep(s, t)
    ensures AttemptsSound(t) && WatermarksSound(t)
  {
    hide Naming.IdentityOf, Names, OnFile, MarkStep, Blank, Failures, Successes;
  }

  lemma RowsKeepInv(accepts: Bytes -> bool, s: Store, t: Store)
    requires Inv(accepts, s) && RowsStep(s, t)
    ensures Inv(accepts, t)
  {
    hide Naming.IdentityOf, RowsStep, PathsNamed, FilesOwned, Kept, HeirsSound, LandedSound, PurgedSound, MarksSound,
      AttemptsSound, WatermarksSound;
    RowsKeepPaths(s, t);
    RowsKeepFiles(accepts, s, t);
    RowsKeepKept(s, t);
    RowsKeepHeirs(s, t);
    RowsKeepLanded(s, t);
    RowsKeepPurged(s, t);
    RowsKeepMarks(s, t);
    RowsKeepLedgers(s, t);
  }

  /** A row left alone has trivially taken a step. */
  lemma StandingStill(accepts: Bytes -> bool, s: Store, horizon: int, id: Id)
    requires Inv(accepts, s) && id in s.documents && s.horizon <= horizon
    ensures RowStep(s, horizon, id, s.documents[id], s.documents[id])
  {
    hide Naming.IdentityOf, Names, FilesOwned, AttemptsSound, WatermarksSound, HeirsSound, MarksSound, Kept;
    assert s.documents[id].path.Some? ==> Names(s.documents[id].path.value, id, s.documents[id].delivery);
    assert Landed(s, id) ==> s.documents[id].state in {Available, Superseded, Purged} && !Undated(s, id);
    assert InState(s, id, Available) ==> s.documents[id].landed;
  }

  /** One existing row changed. */
  lemma PutKeeps(accepts: Bytes -> bool, s: Store, id: Id, now: Row)
    requires Inv(accepts, s) && id in s.documents
    requires RowStep(s, s.horizon, id, s.documents[id], now)
    ensures Inv(accepts, Put(s, id, now))
  {
    hide Naming.IdentityOf, RowStep, Inv;
    var t := Put(s, id, now);
    forall other | other in s.documents
      ensures RowStep(s, t.horizon, other, s.documents[other], t.documents[other])
    {
      StandingStill(accepts, s, s.horizon, other);
    }
    RowsKeepInv(accepts, s, t);
  }

  // ---------------------------------------------------------------- statements

  lemma RowFacts(accepts: Bytes -> bool, s: Store, id: Id)
    requires Inv(accepts, s) && id in s.documents
    ensures var row := s.documents[id];
            && (row.path.Some? ==> Names(row.path.value, id, row.delivery))
            && (Pending(row.state) || row.state == Abandoned ==> !row.landed)
            && (row.state == Available ==> row.landed)
            && (row.digest.Some? <==> row.landed)
            && (row.landed && row.state == Superseded ==> id in s.heirs && row.supersededBy == Some(s.heirs[id]))
            && (row.landed ==> row.state in {Available, Superseded, Purged} && Padded(row.delivery))
            && (row.purged <==> row.state == Purged)
            && (row.state == Purged ==> row.path.None?)
            && (row.state == Purged && Padded(row.delivery) ==> row.delivery < s.horizon)
  {
    hide Naming.IdentityOf, Names, FilesOwned, AttemptsSound, WatermarksSound, HeirsSound, MarksSound, Kept;
    assert Landed(s, id) ==> s.documents[id].state in {Available, Superseded, Purged} && !Undated(s, id);
    assert InState(s, id, Available) ==> s.documents[id].landed;
  }

  lemma SetStateKeeps(accepts: Bytes -> bool, s: Store, id: Id, state: State)
    requires Inv(accepts, s) && MayExecute(s, SetState(id, state))
    ensures Inv(accepts, Execute(s, SetState(id, state)))
  {
    hide Naming.IdentityOf, Inv, Names;
    RowFacts(accepts, s, id);
    PutKeeps(accepts, s, id, s.documents[id].(state := state));
  }

  /** Rediscovery touches the descriptive columns, revives an abandoned row, and changes nothing else of it. */
  lemma UpsertKeeps(accepts: Bytes -> bool, s: Store, row: DocumentRow, entity: int)
    requires Inv(accepts, s)
    ensures var t := Execute(s, Upsert(row, entity));
            && Inv(accepts, t) && row.id in t.documents && t.documents[row.id].facts == FactsOf(row)
            && (forall other :: other in s.documents && other != row.id
                 ==> other in t.documents && t.documents[other] == s.documents[other])
            && (row.id in s.documents ==>
                  var was, now := s.documents[row.id], t.documents[row.id];
                  && now.(facts := was.facts, state := was.state) == was
                  && (now.state != was.state ==> was.state == Abandoned && now.state == Discovered)
                  && (was.state == Abandoned ==> now.state == Discovered))
            && (row.id !in s.documents ==> Blank(t.documents[row.id]))
  {
    hide Naming.IdentityOf, Inv, Names;
    UpsertIsSound(accepts, s, row, entity);
    if row.id in s.documents {
      RowFacts(accepts, s, row.id);
    }
  }

  lemma UpsertIsSound(accepts: Bytes -> bool, s: Store, row: DocumentRow, entity: int)
    requires Inv(accepts, s)
    ensures Inv(accepts, Execute(s, Upsert(row, entity)))
  {
    hide Naming.IdentityOf, Inv, Names;
    if row.id in s.documents {
      RowFacts(accepts, s, row.id);
      PutKeeps(accepts, s, row.id, Rediscovered(s.documents[row.id], row));
    } else {
      var t := Put(s, row.id, Fresh(row, entity));
      forall other | other in s.documents
        ensures RowStep(s, t.horizon, other, s.documents[other], t.documents[other])
      {
        StandingStill(accepts, s, s.horizon, other);
      }
      RowsKeepInv(accepts, s, t);
    }
  }

  lemma SetTargetKeeps(accepts: Bytes -> bool, s: Store, id: Id, path: Path, extension: string)
    requires Inv(accepts, s) && MayExecute(s, SetTarget(id, path, extension))
    ensures Inv(accepts, Execute(s, SetTarget(id, path, extension)))
  {
    hide Naming.IdentityOf, Inv, Names;
    RowFacts(accepts, s, id);
    if s.documents[id].state == Downloading {
      PutKeeps(accepts, s, id, s.documents[id].(path := Some(path), extension := Some(extension)));
    }
  }

  lemma MarkAvailableKeeps(accepts: Bytes -> bool, s: Store, id: Id, path: Path, extension: string, digest: Digest)
    requires Inv(accepts, s) && MayExecute(s, MarkAvailable(id, path, extension, digest))
    ensures Inv(accepts, Execute(s, MarkAvailable(id, path, extension, digest)))
  {
    hide Naming.IdentityOf, Inv;
    RowFacts(accepts, s, id);
    PutKeeps(accepts, s, id, s.documents[id].(state := Available, path := Some(path), extension := Some(extension),
                                              digest := Some(digest), landed := true, purged := false));
  }

  lemma MarkSupersededKeeps(accepts: Bytes -> bool, s: Store, loser: Id, winner: Id)
    requires Inv(accepts, s) && MayExecute(s, MarkSuperseded(loser, winner))
    ensures Inv(accepts, Execute(s, MarkSuperseded(loser, winner)))
  {
    hide Naming.IdentityOf, Inv, Names;
    RowFacts(accepts, s, loser);
    PutKeeps(accepts, s, loser, Marked(s.documents[loser], winner));
  }

  lemma MarkRemovedKeeps(accepts: Bytes -> bool, s: Store, id: Id)
    requires Inv(accepts, s) && MayExecute(s, MarkRemoved(id))
    ensures Inv(accepts, Execute(s, MarkRemoved(id)))
  {
    hide Naming.IdentityOf, Inv, Names;
    RowFacts(accepts, s, id);
    PutKeeps(accepts, s, id, s.documents[id].(state := Superseded, path := None));
  }

  /** Of the padded days, exactly those before the frontier are marked, but for the spared ones. */
  ghost predicate MarkedByDay(s: Store, t: Store, before: int, spared: set<int>) {
    forall id :: id in s.documents && !Undated(s, id) && !s.documents[id].purged ==>
      && id in t.documents
      && (t.documents[id].purged <==> s.documents[id].delivery < before && s.documents[id].delivery !in spared)
  }

  ghost predicate NoFileBehindMarks(s: Store, t: Store) {
    forall id :: id in s.documents && id in t.documents && t.documents[id].purged && s.documents[id].path.Some? ==>
      s.documents[id].path.value !in s.files
  }

  /**
   Marking before the frontier: exactly the padded days before it are marked, but for
   the spared ones; and no row is marked whose file is still there.
   */
  lemma MarkPurgedKeeps(accepts: Bytes -> bool, s: Store, before: int, spared: set<int>)
    requires Inv(accepts, s) && MayExecute(s, MarkPurged(before, spared))
    ensures Inv(accepts, Execute(s, MarkPurged(before, spared)))
    ensures MarkedByDay(s, Execute(s, MarkPurged(before, spared)), before, spared)
    ensures NoFileBehindMarks(s, Execute(s, MarkPurged(before, spared)))
  {
    hide Naming.IdentityOf, Inv, DayText, TextLess;
    var t := Execute(s, MarkPurged(before, spared));
    forall id | id in s.documents
      ensures RowStep(s, t.horizon, id, s.documents[id], t.documents[id])
      ensures t.documents[id].purged && s.documents[id].path.Some? ==> s.documents[id].path.value !in s.files
      ensures !Undated(s, id) && !s.documents[id].purged ==>
        (t.documents[id].purged <==> s.documents[id].delivery < before && s.documents[id].delivery !in spared)
    {
      RowFacts(accepts, s, id);
      if Padded(s.documents[id].delivery) && !s.documents[id].purged {
        PurgeIsByDay(s.documents[id], before, spared);
      }
    }
    RowsKeepInv(accepts, s, t);
  }

  /** Between padded days the text comparison is the comparison of days. */
  lemma PurgeIsByDay(row: Row, before: int, spared: set<int>)
    requires Padded(row.delivery) && Padded(before) && !row.purged
    ensures Purge(row, before, spared)
            == if row.delivery < before && row.delivery !in spared
               then row.(state := Purged, purged := true, path := None) else row
  {
    hide DayText, TextLess;
    TextOrder(row.delivery, before);
  }

  lemma AbandonOutsideKeeps(accepts: Bytes -> bool, s: Store, keep: set<int>)
    requires Inv(accepts, s)
    ensures Inv(accepts, Execute(s, AbandonOutside(keep)))
  {
    hide Naming.IdentityOf, Inv, Names;
    var t := Execute(s, AbandonOutside(keep));
    forall id | id in s.documents ensures RowStep(s, t.horizon, id, s.documents[id], t.documents[id]) {
      RowFacts(accepts, s, id);
    }
    RowsKeepInv(accepts, s, t);
  }

  lemma AppendAttempt(attempts: seq<Attempt>, last: Attempt, id: Id)
    ensures Failures(attempts + [last], id)
            == Failures(attempts, id) + if last.id == id && ConsumesBudget(last.outcome) then 1 else 0
    ensures Successes(attempts + [last], id) == Successes(attempts, id) + if last == Attempt(id, Success) then 1 else 0
  {
    assert (attempts + [last])[..|attempts|] == attempts;
  }

  /** The invariants that only look at rows, files and heirs. */
  lemma RowsFramed(accepts: Bytes -> bool, s: Store, t: Store)
    requires Inv(accepts, s)
    requires t == s.(sync := t.sync, cursors := t.cursors, attempts := t.attempts, parts := t.parts,
                          requests := t.requests, watermarks := t.watermarks)
    requires AttemptsSound(t) && WatermarksSound(t)
    ensures Inv(accepts, t)
  {
    hide Naming.IdentityOf, Names, AttemptsSound, WatermarksSound;
  }

  lemma RecordAttemptKeeps(accepts: Bytes -> bool, s: Store, id: Id, outcome: Outcome)
    requires Inv(accepts, s) && MayExecute(s, RecordAttempt(id, outcome))
    ensures Inv(accepts, Execute(s, RecordAttempt(id, outcome)))
  {
    hide PathsNamed, FilesOwned, Kept, HeirsSound, PurgedSound, MarksSound, Failures, Successes;
    var t := Execute(s, RecordAttempt(id, outcome));
    assert InState(s, id, Available) ==> Landed(s, id);
    forall other: Id
      ensures Failures(t.attempts, other) <= MAX_ATTEMPTS_PER_DOCUMENT || Undated(t, other)
      ensures Successes(t.attempts, other) <= 1 && (Successes(t.attempts, other) > 0 ==> Landed(t, other))
    {
      AppendAttempt(s.attempts, Attempt(id, outcome), other);
      assert Failures(s.attempts, other) <= MAX_ATTEMPTS_PER_DOCUMENT || Undated(s, other);
    }
    RowsFramed(accepts, s, t);
  }

  lemma SameEvidence(s: Store, t: Store, w: Witness)
    requires t.documents == s.documents
    ensures EvidenceHolds(t, w) == EvidenceHolds(s, w)
  {
  }

  /** The column always holds the last watermark recorded. */
  lemma MarksKeepUp(s: Store, q: Sql)
    requires WatermarksSound(s) && MayExecute(s, q)
    requires q.AdvanceWatermark? || q.RecordError? || q.AdvanceCursor?
    ensures WatermarksSound(Execute(s, q))
  {
    hide EvidenceHolds;
    var t := Execute(s, q);
    forall k | 0 <= k < |t.watermarks| ensures EvidenceHolds(t, t.watermarks[k].evidence) {
      SameEvidence(s, t, t.watermarks[k].evidence);
    }
    if q.AdvanceWatermark? {
      NewestMark(s, t, q.entity, q.evidence);
    } else {
      assert forall entity :: WindowOf(t, entity) == WindowOf(s, entity);
    }
  }

  lemma NewestMark(s: Store, t: Store, entity: int, evidence: Witness)
    requires forall other :: WindowOf(s, other) == LastMark(s.watermarks, other)
    requires t.sync == s.sync[entity := Sync(Some(evidence), false)]
    requires t.watermarks == s.watermarks + [Mark(entity, evidence)]
    ensures forall other :: WindowOf(t, other) == LastMark(t.watermarks, other)
  {
    assert t.watermarks[..|s.watermarks|] == s.watermarks;
    forall other ensures WindowOf(t, other) == LastMark(t.watermarks, other) {
      assert WindowOf(s, other) == LastMark(s.watermarks, other);
    }
  }

  lemma BookkeepingKeeps(accepts: Bytes -> bool, s: Store, q: Sql)
    requires Inv(accepts, s) && MayExecute(s, q)
    requires q.AdvanceWatermark? || q.RecordError? || q.AdvanceCursor?
    ensures Inv(accepts, Execute(s, q))
  {
    hide PathsNamed, FilesOwned, Kept, HeirsSound, LandedSound, PurgedSound, MarksSound, Failures, Successes;
    MarksKeepUp(s, q);
    RowsFramed(accepts, s, Execute(s, q));
  }

  lemma StatementKeeps(accepts: Bytes -> bool, s: Store, q: Sql)
    requires Inv(accepts, s) && MayExecute(s, q)
    ensures Inv(accepts, Execute(s, q))
  {
    hide Inv, MayExecute, Execute;
    match q
    case Upsert(row, entity) => UpsertKeeps(accepts, s, row, entity);
    case SetState(id, state) => SetStateKeeps(accepts, s, id, state);
    case SetTarget(id, path, extension) => SetTargetKeeps(accepts, s, id, path, extension);
    case MarkAvailable(id, path, extension, digest) => MarkAvailableKeeps(accepts, s, id, path, extension, digest);
    case MarkSuperseded(loser, winner) => MarkSupersededKeeps(accepts, s, loser, winner);
    case MarkRemoved(id) => MarkRemovedKeeps(accepts, s, id);
    case MarkPurged(before, spared) => MarkPurgedKeeps(accepts, s, before, spared);
    case AbandonOutside(keep) => AbandonOutsideKeeps(accepts, s, keep);
    case RecordAttempt(id, outcome) => RecordAttemptKeeps(accepts, s, id, outcome);
    case AdvanceWatermark(_, _) => BookkeepingKeeps(accepts, s, q);
    case RecordError(_) => BookkeepingKeeps(accepts, s, q);
    case AdvanceCursor(_, _) => BookkeepingKeeps(accepts, s, q);
  }

  lemma {:induction false} TransactionKeeps(accepts: Bytes -> bool, s: Store, qs: seq<Sql>)
    requires Inv(accepts, s) && MayExecuteAll(s, qs)
    ensures Inv(accepts, ExecuteAll(s, qs))
  {
    hide Inv, MayExecute, Execute;
    if qs != [] {
      TransactionKeeps(accepts, s, qs[..|qs| - 1]);
      StatementKeeps(accepts, ExecuteAll(s, qs[..|qs| - 1]), qs[|qs| - 1]);
    }
  }

  // ------------------------------------------------------------ file operations

  /** Files of other publications are out of reach: their names decode to someone else. */
  lemma OthersKeep(accepts: Bytes -> bool, s: Store, t: Store, id: Id)
    requires Inv(accepts, s) && id in s.documents
    requires t.documents == s.documents && t.horizon == s.horizon
    requires forall path :: path in s.files && !Names(path, id, s.documents[id].delivery) ==>
               path in t.files && t.files[path] == s.files[path]
    requires forall other :: other in s.heirs ==> other in t.heirs
    requires InState(s, id, Available) ==> id in t.heirs
    ensures Kept(t)
  {
    hide AttemptsSound, WatermarksSound, HeirsSound, LandedSound, MarksSound, PurgedSound, FilesOwned;
    forall other | InState(t, other, Available) && t.documents[other].delivery >= t.horizon
      ensures other in t.heirs || OnDisk(t, other)
    {
      assert other in s.heirs || OnDisk(s, other);
      assert s.documents[other].path.Some? ==> Names(s.documents[other].path.value, other, s.documents[other].delivery);
    }
  }

  lemma PublishOwned(accepts: Bytes -> bool, s: Store, t: Store, id: Id, path: Path, content: Bytes)
    requires FilesOwned(accepts, s) && id in s.documents && Names(path, id, s.documents[id].delivery)
    requires accepts(content) && t.documents == s.documents && t.files == s.files[path := content]
    ensures FilesOwned(accepts, t)
  {
  }

  lemma PublishKeeps(accepts: Bytes -> bool, s: Store, id: Id, path: Path)
    requires Inv(accepts, s) && May(accepts, s, Publish(id, path))
    ensures Inv(accepts, Apply(s, Publish(id, path)))
  {
    hide AttemptsSound, WatermarksSound, HeirsSound, LandedSound, MarksSound, PurgedSound, Kept, FilesOwned,
      ExecuteAll, MayExecuteAll;
    var t := Apply(s, Publish(id, path));
    assert Names(path, id, s.documents[id].delivery);
    PublishOwned(accepts, s, t, id, path, s.parts[id].content);
    OthersKeep(accepts, s, t, id);
    LedgersFramed(s, t);
  }

  /** The invariants that never look at the archive. */
  lemma LedgersFramed(s: Store, t: Store)
    requires t == s.(files := t.files, parts := t.parts, requests := t.requests, horizon := t.horizon, clock := t.clock)
    requires s.horizon <= t.horizon
    requires AttemptsSound(s) && WatermarksSound(s) && HeirsSound(s) && LandedSound(s) && MarksSound(s)
        && PurgedSound(s)
    ensures AttemptsSound(t) && WatermarksSound(t) && HeirsSound(t) && LandedSound(t) && MarksSound(t) && PurgedSound(t)
  {
    hide Failures, Successes, AttemptsSound, WatermarksSound;
    CountsFramed(s, t);
  }

  /** Attempts and watermarks look at nothing but rows, sync state and their own logs. */
  lemma CountsFramed(s: Store, t: Store)
    requires t.documents == s.documents && t.attempts == s.attempts && t.sync == s.sync && t.watermarks == s.watermarks
    requires AttemptsSound(s) && WatermarksSound(s)
    ensures AttemptsSound(t) && WatermarksSound(t)
  {
    hide Failures, Successes, LastMark, ScanResult.Complete;
    forall entity ensures WindowOf(t, entity) == LastMark(t.watermarks, entity) {
      assert WindowOf(s, entity) == LastMark(s.watermarks, entity);
    }
  }

  lemma FewerOwned(accepts: Bytes -> bool, s: Store, t: Store, removed: set<Path>)
    requires FilesOwned(accepts, s) && t.documents == s.documents && t.files == s.files - removed
    ensures FilesOwned(accepts, t)
  {
    hide Naming.IdentityOf;
  }

  lemma UnlinkKeeps(accepts: Bytes -> bool, s: Store, id: Id)
    requires Inv(accepts, s) && May(accepts, s, Unlink(id))
    ensures Inv(accepts, Apply(s, Unlink(id)))
  {
    hide AttemptsSound, WatermarksSound, HeirsSound, LandedSound, MarksSound, PurgedSound, Kept, FilesOwned,
      ExecuteAll, MayExecuteAll, Naming.IdentityOf;
    if s.documents[id].path.Some? {
      var t := Apply(s, Unlink(id));
      assert Names(s.documents[id].path.value, id, s.documents[id].delivery);
      FewerOwned(accepts, s, t, {s.documents[id].path.value});
      OthersKeep(accepts, s, t, id);
      UnlinkKeepsHeirs(s, t, id);
      UnlinkKeepsLedgers(s, t);
    }
  }

  lemma UnlinkKeepsHeirs(s: Store, t: Store, id: Id)
    requires HeirsSound(s) && LandedSound(s) && MarksSound(s) && InState(s, id, Available)
    requires s.documents[id].supersededBy.Some? && InState(s, s.documents[id].supersededBy.value, Available)
    requires t == s.(files := t.files, heirs := s.heirs[id := s.documents[id].supersededBy.value])
    ensures HeirsSound(t) && LandedSound(t) && MarksSound(t)
  {
    hide Naming.IdentityOf, HeirsSound, LandedSound, MarksSound;
    var heir := s.documents[id].supersededBy.value;
    HeirIsLater(s, id, heir);
    HeirsGain(s, t, id, heir);
    AvailableMayGainHeir(s, t, id, heir);
    MarksFramed(s, t);
  }

  lemma HeirIsLater(s: Store, id: Id, heir: Id)
    requires LandedSound(s) && MarksSound(s) && InState(s, id, Available) && InState(s, heir, Available)
    requires s.documents[id].supersededBy == Some(heir)
    ensures id.version < heir.version && Landed(s, id) && Landed(s, heir)
  {
  }

  lemma AvailableMayGainHeir(s: Store, t: Store, id: Id, heir: Id)
    requires LandedSound(s) && InState(s, id, Available)
    requires t == s.(files := t.files, heirs := s.heirs[id := heir])
    ensures LandedSound(t)
  {
    hide DayText, ParseDirName;
    assert forall other :: Undated(t, other) == Undated(s, other);
  }

  lemma MarksFramed(s: Store, t: Store)
    requires MarksSound(s) && t.documents == s.documents
    ensures MarksSound(t)
  {
  }

  lemma HeirsGain(s: Store, t: Store, id: Id, heir: Id)
    requires HeirsSound(s) && Landed(s, id) && Landed(s, heir) && id.version < heir.version
        && s.documents[id].supersededBy.Some?
    requires t == s.(files := t.files, heirs := s.heirs[id := heir])
    ensures HeirsSound(t)
  {
  }

  lemma UnlinkKeepsLedgers(s: Store, t: Store)
    requires t == s.(files := t.files, heirs := t.heirs)
    requires AttemptsSound(s) && WatermarksSound(s) && PurgedSound(s)
    ensures AttemptsSound(t) && WatermarksSound(t) && PurgedSound(t)
  {
    hide Failures, Successes, AttemptsSound, WatermarksSound;
    CountsFramed(s, t);
  }

  lemma RemoveTreeKeeps(accepts: Bytes -> bool, s: Store, day: int, victims: set<Path>)
    requires Inv(accepts, s) && May(accepts, s, RemoveTree(day, victims))
    ensures Inv(accepts, Apply(s, RemoveTree(day, victims)))
  {
    hide AttemptsSound, WatermarksSound, HeirsSound, LandedSound, MarksSound, PurgedSound, Failures, Successes,
         Naming.IdentityOf;
    var t := Apply(s, RemoveTree(day, victims));
    forall other | InState(t, other, Available) && t.documents[other].delivery >= t.horizon
      ensures other in t.heirs || OnDisk(t, other)
    {
      assert other in s.heirs || OnDisk(s, other);
      assert s.documents[other].path.Some? ==> Names(s.documents[other].path.value, other, s.documents[other].delivery);
    }
    LedgersFramed(s, t);
  }

  lemma QuietKeeps(accepts: Bytes -> bool, s: Store, e: Effect)
    requires Inv(accepts, s) && (e.Request? || e.WritePart? || e.DropPart? || e.Tick?)
    ensures Inv(accepts, Apply(s, e))
  {
    hide Failures, Successes, Naming.IdentityOf;
    LedgersFramed(s, Apply(s, e));
  }

  /** One step of the protocol keeps the invariant. */
  lemma EffectKeeps(accepts: Bytes -> bool, s: Store, e: Effect)
    requires Inv(accepts, s) && May(accepts, s, e)
    ensures Inv(accepts, Apply(s, e))
  {
    match e
    case Commit(statements) =>
      hide Inv, MayExecuteAll, ExecuteAll;
      TransactionKeeps(accepts, s, statements);
    case Publish(id, path) => PublishKeeps(accepts, s, id, path);
    case Unlink(id) => UnlinkKeeps(accepts, s, id);
    case RemoveTree(day, victims) => RemoveTreeKeeps(accepts, s, day, victims);
    case _ => QuietKeeps(accepts, s, e);
  }
}
