/**
 Everything that outlives a process: the manifest's tables, the archive, the
 staging directory -- and five history variables that only the proofs read.

 Each SQL statement or transaction and each file-system call is one `Effect`.
 A run emits effects; a crash cuts the run between any two of them.
 */
module Archive {
  import opened Base
  import opened Clock
  import opened Listing
  import Naming

  // ---------------------------------------------------------------------- rows

  datatype State =
    | Discovered | Downloading | Available | Failed | Purged | Skipped | Abandoned | Superseded

  predicate Pending(state: State) {
    state == Discovered || state == Downloading || state == Failed || state == Skipped
  }

  type Bytes = string

  /** An ideal hash: injective by construction. */
  datatype Digest = Sha256(of: Bytes)

  /** A place in the archive: a date directory and a name inside it. */
  datatype Path = Path(day: int, name: string)

  /** The columns a rediscovery refreshes. */
  datatype Facts = Facts(description: string, category: string, docType: string, species: string)

  datatype Row = Row(
    entity: int,
    facts: Facts,
    reference: string,
    referenceFormat: string,
    delivery: Day,                // stored, and compared, as `DayText` of it
    state: State,
    path: Option<Path>,
    extension: Option<string>,
    digest: Option<Digest>,
    landed: bool,                 // downloaded_at is set
    purged: bool,                 // purged_at is set
    supersededBy: Option<Id>)     // superseded_at and superseded_by_*

  datatype Outcome = Success | Transient | InvalidContent | Error | Filtered

  datatype Attempt = Attempt(id: Id, outcome: Outcome)

  /**
   A recorded watermark, with the scan that earned it: the query asked at `asked`, the
   pass of it that began at `began` and what it yielded. The column holds `window.last`.
   */
  datatype Witness = Witness(
    fundType: int,
    window: Window,
    frontier: int,
    length: nat,
    asked: nat,
    began: nat,
    result: ScanResult)

  datatype Mark = Mark(entity: int, evidence: Witness)

  datatype Sync = Sync(window: Option<Witness>, failing: bool)

  datatype Part = Part(content: Bytes, modified: int)

  datatype Store = Store(
    documents: map<Id, Row>,
    attempts: seq<Attempt>,
    sync: map<int, Sync>,
    cursors: map<int, int>,
    files: map<Path, Bytes>,
    parts: map<Id, Part>,
    heirs: map<Id, Id>,           // history: whose presence justified each deletion
    horizon: int,                 // history: the newest retention frontier applied so far
    requests: seq<Id>,            // history: the downloads asked of the source
    clock: nat,                   // history: the instant the last run is known to have reached
    watermarks: seq<Mark>)        // history: every watermark ever recorded

  const MAX_ATTEMPTS_PER_DOCUMENT := 5

  const EMPTY := Store(map[], [], map[], map[], map[], map[], map[], 0, [], 0, [])

  function ConsumesBudget(outcome: Outcome): bool {
    outcome == Transient || outcome == InvalidContent || outcome == Error
  }

  function Failures(attempts: seq<Attempt>, id: Id): nat {
    if attempts == [] then 0
    else
      var last := attempts[|attempts| - 1];
      Failures(attempts[..|attempts| - 1], id) + if last.id == id && ConsumesBudget(last.outcome) then 1 else 0
  }

  /** The last watermark recorded for an entity. */
  function LastMark(watermarks: seq<Mark>, entity: int): Option<Witness> {
    if watermarks == [] then None
    else
      var last := watermarks[|watermarks| - 1];
      if last.entity == entity then Some(last.evidence) else LastMark(watermarks[..|watermarks| - 1], entity)
  }

  function WindowOf(s: Store, entity: int): Option<Witness> {
    if entity in s.sync then s.sync[entity].window else None
  }

  function Successes(attempts: seq<Attempt>, id: Id): nat {
    if attempts == [] then 0
    else
      var last := attempts[|attempts| - 1];
      Successes(attempts[..|attempts| - 1], id) + if last == Attempt(id, Success) then 1 else 0
  }

  // ---------------------------------------------------------------- statements

  datatype Sql =
    | Upsert(row: DocumentRow, entity: int)
    | SetState(id: Id, state: State)
    | SetTarget(id: Id, path: Path, extension: string)
    | MarkAvailable(id: Id, path: Path, extension: string, digest: Digest)
    | MarkSuperseded(loser: Id, winner: Id)
    | MarkRemoved(id: Id)
    | MarkPurged(before: int, spared: set<int>)
    | AbandonOutside(keep: set<int>)
    | RecordAttempt(id: Id, outcome: Outcome)
    | AdvanceWatermark(entity: int, evidence: Witness)
    | RecordError(entity: int)
    | AdvanceCursor(fundType: int, newest: int)

  function FactsOf(row: DocumentRow): Facts {
    Facts(row.description, row.category, row.docType, row.species)
  }

  function Fresh(row: DocumentRow, entity: int): Row {
    Row(entity, FactsOf(row), row.reference, row.referenceFormat, DayOf(row.at),
        Discovered, None, None, None, false, false, None)
  }

  function Rediscovered(known: Row, row: DocumentRow): Row {
    known.(facts := FactsOf(row),
         state := if known.state == Abandoned && !known.purged then Discovered else known.state)
  }

  /** The winner recorded for a loser only ever moves up in (version, id). */
  function Marked(known: Row, winner: Id): Row {
    if || known.supersededBy.None?
       || known.supersededBy.value.version < winner.version
       || (known.supersededBy.value.version == winner.version && known.supersededBy.value.document < winner.document)
    then known.(supersededBy := Some(winner))
    else known
  }

  /** The comparison is of stored text, and so is the exclusion: no other day has a spared day's text. */
  function Purge(row: Row, before: int, spared: set<int>): Row {
    if TextLess(DayText(row.delivery), DayText(before)) && !row.purged && row.delivery !in spared
    then row.(state := Purged, purged := true, path := None)
    else row
  }

  function Abandon(row: Row, keep: set<int>): Row {
    if Pending(row.state) && !row.purged && row.entity !in keep then row.(state := Abandoned) else row
  }

  function Put(s: Store, id: Id, row: Row): Store {
    s.(documents := s.documents[id := row])
  }

  /** What one statement does to the tables. An update of a missing row changes nothing. */
  function Execute(s: Store, q: Sql): Store {
    match q
    case Upsert(row, entity) =>
      Put(s, row.id, if row.id in s.documents then Rediscovered(s.documents[row.id], row) else Fresh(row, entity))
    case SetState(id, state) =>
      if id in s.documents then Put(s, id, s.documents[id].(state := state)) else s
    case SetTarget(id, path, extension) =>
      if id in s.documents && s.documents[id].state == Downloading
      then Put(s, id, s.documents[id].(path := Some(path), extension := Some(extension))) else s
    case MarkAvailable(id, path, extension, digest) =>
      if id in s.documents
      then Put(s, id, s.documents[id].(state := Available, path := Some(path), extension := Some(extension),
                                      digest := Some(digest), landed := true, purged := false))
      else s
    case MarkSuperseded(loser, winner) =>
      if loser in s.documents then Put(s, loser, Marked(s.documents[loser], winner)) else s
    case MarkRemoved(id) =>
      if id in s.documents then Put(s, id, s.documents[id].(state := Superseded, path := None)) else s
    case MarkPurged(before, spared) =>
      s.(documents := map id | id in s.documents :: Purge(s.documents[id], before, spared),
         horizon := Max(s.horizon, before))
    case AbandonOutside(keep) =>
      s.(documents := map id | id in s.documents :: Abandon(s.documents[id], keep))
    case RecordAttempt(id, outcome) =>
      s.(attempts := s.attempts + [Attempt(id, outcome)])
    case AdvanceWatermark(entity, evidence) =>
      s.(sync := s.sync[entity := Sync(Some(evidence), false)], watermarks := s.watermarks + [Mark(entity, evidence)])
    case RecordError(entity) =>
      s.(sync := s.sync[entity := Sync(if entity in s.sync then s.sync[entity].window else None, true)])
    case AdvanceCursor(fundType, newest) =>
      if fundType in s.cursors && newest <= s.cursors[fundType] then s
      else s.(cursors := s.cursors[fundType := newest])
  }

  function ExecuteAll(s: Store, qs: seq<Sql>): Store {
    if qs == [] then s else Execute(ExecuteAll(s, qs[..|qs| - 1]), qs[|qs| - 1])
  }

  // ------------------------------------------------------------------- effects

  datatype Effect =
    | Commit(statements: seq<Sql>)
    | Request(id: Id)
    | WritePart(id: Id, part: Part)
    | DropPart(id: Id)
    | Publish(id: Id, path: Path)
    | Unlink(id: Id)
    | RemoveTree(day: int, victims: set<Path>)
    | Tick(now: nat)

  function Apply(s: Store, e: Effect): Store {
    match e
    case Commit(statements) => ExecuteAll(s, statements)
    case Request(id) => s.(requests := s.requests + [id])
    case WritePart(id, part) => s.(parts := s.parts[id := part])
    case DropPart(id) => s.(parts := s.parts - {id})
    case Publish(id, path) =>
      if id in s.parts
      then s.(files := s.files[path := s.parts[id].content], parts := s.parts - {id}) else s
    case Unlink(id) =>
      if id in s.documents && s.documents[id].path.Some? && s.documents[id].supersededBy.Some?
      then s.(files := s.files - {s.documents[id].path.value},
        heirs := s.heirs[id := s.documents[id].supersededBy.value])
      else s
    case RemoveTree(day, victims) =>
      s.(files := s.files - victims, horizon := Max(s.horizon, day + 1))
    case Tick(now) => s.(clock := now)
  }

  // -------------------------------------------------------------------- guards

  /** `path` is where publication `id`, delivered on `day`, may be filed: a directory whose name parses. */
  predicate Names(path: Path, id: Id, day: int) {
    Naming.IdentityOf(path.name) == Some(id) && path.day == day && Padded(day)
  }

  /** A known row whose stored delivery date does not parse. */
  predicate Undated(s: Store, id: Id) {
    id in s.documents && !Padded(s.documents[id].delivery)
  }

  predicate InState(s: Store, id: Id, state: State) {
    id in s.documents && s.documents[id].state == state
  }

  predicate IsPending(s: Store, id: Id) {
    id in s.documents && Pending(s.documents[id].state)
  }

  predicate Landed(s: Store, id: Id) {
    id in s.documents && s.documents[id].landed
  }

  /** A complete scan that reached the retention frontier, its rows in the manifest. */
  predicate EvidenceHolds(s: Store, w: Witness) {
    && w.result.Complete()
    && w.window.first <= w.frontier
    && forall id :: id in w.result.harvest.rows ==> id in s.documents
  }

  /**
   When the code issues each statement. These are the facts its branches have
   just established; every method that emits a statement is proved to respect them.
   */
  predicate MayExecute(s: Store, q: Sql) {
    match q
    case Upsert(_, _) => true
    case SetState(id, state) =>
      IsPending(s, id) && (Pending(state) || (state == Superseded && s.documents[id].supersededBy.Some?))
    case SetTarget(id, path, _) =>
      id in s.documents && Names(path, id, s.documents[id].delivery)
    case MarkAvailable(id, path, _, digest) =>
      && IsPending(s, id) && s.documents[id].path == Some(path)
      && path in s.files && digest == Sha256(s.files[path])
    case MarkSuperseded(loser, winner) =>
      && loser in s.documents && winner in s.documents && loser.version < winner.version
      && (IsPending(s, loser) || InState(s, loser, Available))
    case MarkRemoved(id) =>
      && InState(s, id, Available) && id in s.heirs && s.documents[id].supersededBy == Some(s.heirs[id])
      && (s.documents[id].path.Some? ==> s.documents[id].path.value !in s.files)
    case MarkPurged(before, spared) =>
      Padded(before) && forall path :: path in s.files && path.day < before ==> path.day in spared
    case AbandonOutside(_) => true
    case RecordAttempt(id, outcome) =>
      && (outcome == Success ==> InState(s, id, Available) && Successes(s.attempts, id) == 0)
      && (ConsumesBudget(outcome) ==> Failures(s.attempts, id) < MAX_ATTEMPTS_PER_DOCUMENT || Undated(s, id))
    case AdvanceWatermark(_, w) =>
      EvidenceHolds(s, w)
    case RecordError(_) => true
    case AdvanceCursor(_, _) => true
  }

  predicate MayExecuteAll(s: Store, qs: seq<Sql>) {
    qs == [] || (MayExecuteAll(s, qs[..|qs| - 1]) && MayExecute(ExecuteAll(s, qs[..|qs| - 1]), qs[|qs| - 1]))
  }

  /** `accepts` is content validation: which bytes are a document at all. */
  predicate May(accepts: Bytes -> bool, s: Store, e: Effect) {
    match e
    case Commit(statements) => MayExecuteAll(s, statements)
    case Request(id) =>
      IsPending(s, id) && !Undated(s, id) && Failures(s.attempts, id) < MAX_ATTEMPTS_PER_DOCUMENT
    case WritePart(_, _) => true
    case DropPart(_) => true
    case Publish(id, path) =>
      InState(s, id, Downloading) && s.documents[id].path == Some(path) && id in s.parts && accepts(s.parts[id].content)
    case Unlink(id) =>
      && InState(s, id, Available) && s.documents[id].supersededBy.Some?
      && InState(s, s.documents[id].supersededBy.value, Available)
    case RemoveTree(day, victims) =>
      forall path :: path in victims ==> path.day == day
    case Tick(now) => s.clock <= now
  }

  // ----------------------------------------------------------------- invariant

  /** Nothing is purged in `t` that was not in `s`. */
  ghost predicate NoneNewlyPurged(s: Store, t: Store) {
    forall id :: id in t.documents && t.documents[id].purged ==> id in s.documents && s.documents[id].purged
  }

  /** The row's file is where the row says, and is what the row says. */
  predicate OnDisk(s: Store, id: Id)
    requires id in s.documents
  {
    var row := s.documents[id];
    row.path.Some? && row.path.value in s.files && row.digest == Some(Sha256(s.files[row.path.value]))
  }

  ghost predicate PathsNamed(s: Store) {
    forall id :: id in s.documents && s.documents[id].path.Some? ==>
      Names(s.documents[id].path.value, id, s.documents[id].delivery)
  }

  /** Every archived file is a valid document, in a date directory, and decodes to a publication of that date. */
  ghost predicate FilesOwned(accepts: Bytes -> bool, s: Store) {
    forall path :: path in s.files ==>
      && accepts(s.files[path])
      && Padded(path.day)
      && Naming.IdentityOf(path.name).Some?
      && Naming.IdentityOf(path.name).value in s.documents
      && s.documents[Naming.IdentityOf(path.name).value].delivery == path.day
  }

  /** An available row inside retention has its bytes, unless it was deleted for an heir. */
  ghost predicate Kept(s: Store) {
    forall id :: InState(s, id, Available) && s.documents[id].delivery >= s.horizon ==>
      id in s.heirs || OnDisk(s, id)
  }

  /** A deletion is justified by a strictly later version that had landed. */
  ghost predicate HeirsSound(s: Store) {
    forall id :: id in s.heirs ==>
      && Landed(s, id) && s.documents[id].supersededBy.Some?
      && Landed(s, s.heirs[id]) && id.version < s.heirs[id].version
  }

  /** Once filed, a row is available, superseded for a recorded heir, or aged out. */
  ghost predicate LandedSound(s: Store) {
    && (forall id :: InState(s, id, Available) ==> s.documents[id].landed)
    && (forall id :: Landed(s, id) ==> s.documents[id].state in {Available, Superseded, Purged} && !Undated(s, id))
    && (forall id :: Landed(s, id) && s.documents[id].state == Superseded ==>
          id in s.heirs && s.documents[id].supersededBy == Some(s.heirs[id]))
    && (forall id :: id in s.documents ==> (s.documents[id].digest.Some? <==> s.documents[id].landed))
  }

  ghost predicate PurgedSound(s: Store) {
    forall id :: id in s.documents ==>
      && (s.documents[id].purged <==> s.documents[id].state == Purged)
      && (s.documents[id].state == Purged ==> s.documents[id].path.None?)
      && (s.documents[id].state == Purged && !Undated(s, id) ==> s.documents[id].delivery < s.horizon)
  }

  ghost predicate MarksSound(s: Store) {
    forall id :: id in s.documents && s.documents[id].supersededBy.Some? ==>
      s.documents[id].supersededBy.value in s.documents && id.version < s.documents[id].supersededBy.value.version
  }

  ghost predicate AttemptsSound(s: Store) {
    forall id: Id ::
      && (Failures(s.attempts, id) <= MAX_ATTEMPTS_PER_DOCUMENT || Undated(s, id))
      && Successes(s.attempts, id) <= 1
      && (Successes(s.attempts, id) > 0 ==> Landed(s, id))
  }

  ghost predicate WatermarksSound(s: Store) {
    && (forall k :: 0 <= k < |s.watermarks| ==> EvidenceHolds(s, s.watermarks[k].evidence))
    && (forall entity :: WindowOf(s, entity) == LastMark(s.watermarks, entity))
  }

  ghost predicate Inv(accepts: Bytes -> bool, s: Store) {
    && PathsNamed(s)
    && FilesOwned(accepts, s)
    && Kept(s)
    && HeirsSound(s)
    && LandedSound(s)
    && PurgedSound(s)
    && MarksSound(s)
    && AttemptsSound(s)
    && WatermarksSound(s)
  }
}
