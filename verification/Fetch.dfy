/**
 Downloading: a recoverable state machine over two systems that cannot commit together.

 The order of effects is the whole protocol: mark the row, ask the source, record
 the destination, stage the bytes, rename, mark the row available.
 */
module Fetch {
  import opened Base
  import opened Clock
  import opened Listing
  import opened Archive
  import opened Safety
  import opened Traces
  import opened Hosts
  import opened Ownership
  import Naming
  import Cnpj

  datatype Kind = Pdf | Xml

  function Extension(kind: Kind): (e: string)
    ensures '_' !in e && '.' !in e && '/' !in e && e != ""
  {
    match kind case Pdf => "pdf" case Xml => "xml"
  }

  /** What the source makes of one download request. */
  datatype Answer =
    | Silence
    | Reply(content: Bytes, kind: Kind,
            servedDocument: Option<int>, servedVersion: Option<int>, servedCnpj: Option<Cnpj.Spelling>)

  /** Which file-system call of a publication fails, if any. */
  datatype Fault = NoFault | DirectoryFails | WriteFails(torn: Bytes) | RenameFails

  /** Everything one download consults besides the manifest. */
  datatype Setting = Setting(
    decimal: char -> bool,
    unicode: Naming.Unicode,
    prefix: string,
    wanted: set<Kind>,
    clock: int)

  datatype Result = Dateless | Exhausted | Lost | Invalid | Divergent | Declined | Unwritable | Filed

  /** Content validation: the bytes are a document and the served name does not contradict the request. */
  predicate Validates(accepts: Bytes -> bool, id: Id, answer: Answer)
    requires answer.Reply?
  {
    && accepts(answer.content)
    && (answer.servedDocument.Some? ==> answer.servedDocument.value == id.document)
    && (answer.servedVersion.Some? ==> answer.servedVersion.value == id.version)
  }

  /** The served CNPJ matches no entity of the owning scope. */
  predicate Diverges(decimal: char -> bool, owner: Option<Owner>, answer: Answer)
    requires answer.Reply?
  {
    && owner.Some? && answer.servedCnpj.Some?
    && !Cnpj.Same(decimal, answer.servedCnpj, Some(Cnpj.Text(owner.value.entity.cnpj)))
    && !exists e :: e in owner.value.scope.entities && Cnpj.Same(decimal, answer.servedCnpj, Some(Cnpj.Text(e.cnpj)))
  }

  function Target(setting: Setting, row: Row, id: Id, kind: Kind): Path {
    Path(row.delivery, Naming.DocumentFilename(setting.unicode, setting.prefix, row.facts.category, row.facts.species,
                                               id, Extension(kind)))
  }

  /** The outcome, and the attempt it records, as the branches decide it. */
  function Verdict(accepts: Bytes -> bool, setting: Setting, owner: Option<Owner>, delivery: Day, failures: nat, id: Id,
                   answer: Answer, fault: Fault): Result {
    if !Padded(delivery) then Dateless
    else if failures >= MAX_ATTEMPTS_PER_DOCUMENT then Exhausted
    else if answer.Silence? then Lost
    else if !Validates(accepts, id, answer) then Invalid
    else if Diverges(setting.decimal, owner, answer) then Divergent
    else if answer.kind !in setting.wanted then Declined
    else if fault != NoFault then Unwritable
    else Filed
  }

  function OutcomeOf(result: Result): Outcome
    requires result != Exhausted
  {
    match result
    case Dateless => Error
    case Lost => Transient
    case Invalid => InvalidContent
    case Divergent => Error
    case Declined => Filtered
    case Unwritable => Error
    case Filed => Success
  }

  function StateOf(result: Result): State
    requires result != Exhausted
  {
    match result case Filed => Available case Declined => Skipped case _ => Failed
  }

  /** Nothing but publication `id` was touched. */
  ghost predicate OnlyTouches(s: Store, t: Store, id: Id) {
    && t == s.(documents := t.documents, attempts := t.attempts, files := t.files, parts := t.parts,
         requests := t.requests)
    && id in s.documents && id in t.documents && t.documents == s.documents[id := t.documents[id]]
    && t.documents[id].delivery == s.documents[id].delivery && (t.documents[id].purged ==> s.documents[id].purged)
    && (forall path: Path :: Naming.IdentityOf(path.name) != Some(id) ==>
          (path in t.files <==> path in s.files) && (path in s.files ==> t.files[path] == s.files[path]))
    && (forall other: Id :: other != id ==>
          (other in t.parts <==> other in s.parts) && (other in s.parts ==> t.parts[other] == s.parts[other]))
  }

  /** What a download leaves behind, given how it ended. */
  ghost predicate Leaves(s: Store, t: Store, id: Id, result: Result)
    requires id in s.documents && id in t.documents
  {
    if result == Exhausted then t == s
    else
      && t.requests == s.requests + (if result == Dateless then [] else [id])
      && t.attempts == s.attempts + [Attempt(id, OutcomeOf(result))]
      && t.documents[id].state == StateOf(result)
      && (result != Filed ==> t.files == s.files && !t.documents[id].landed)
      && (result == Filed ==> Readable(t, id))
  }

  lemma PendingFacts(accepts: Bytes -> bool, s: Store, id: Id)
    requires Inv(accepts, s) && IsPending(s, id)
    ensures !s.documents[id].landed && !s.documents[id].purged && Successes(s.attempts, id) == 0
  {
    hide PathsNamed, FilesOwned, Kept, HeirsSound, MarksSound, WatermarksSound, LandedSound, Failures, Successes;
    RowFacts(accepts, s, id);
  }

  // ------------------------------------------------------------ the order of effects

  /** The common ending of every download that did not land. */
  function Ending(id: Id, result: Result): seq<Effect>
    requires result != Exhausted
  {
    [Commit([RecordAttempt(id, OutcomeOf(result))]), Commit([SetState(id, StateOf(result))])]
  }

  /** A publication, as far as `fault` lets it come. */
  function Publication(setting: Setting, row: Row, id: Id, answer: Answer, fault: Fault): seq<Effect>
    requires answer.Reply?
  {
    var path := Target(setting, row, id, answer.kind);
    var target := Commit([SetTarget(id, path, Extension(answer.kind))]);
    var empty := WritePart(id, Part("", setting.clock));
    var written := WritePart(id, Part(answer.content, setting.clock));
    match fault
    case DirectoryFails => []
    case WriteFails(torn) => [target, empty, WritePart(id, Part(torn, setting.clock))]
    case RenameFails => [target, empty, written]
    case NoFault =>
      [target, empty, written, Effect.Publish(id, path),
       Commit([MarkAvailable(id, path, Extension(answer.kind), Sha256(answer.content))]),
       Commit([RecordAttempt(id, Success)])]
  }

  /** Everything after the request. */
  function Answered(setting: Setting, row: Row, id: Id, answer: Answer, fault: Fault, result: Result): seq<Effect>
    requires result != Exhausted && (result == Filed || result == Unwritable ==> answer.Reply?)
  {
    (if result == Filed || result == Unwritable then Publication(setting, row, id, answer, fault) else [])
    + (if result == Filed then [] else Ending(id, result))
  }

  /** The whole protocol, effect by effect, for each way it can end. */
  function Steps(setting: Setting, row: Row, id: Id, answer: Answer, fault: Fault, result: Result): seq<Effect>
    requires result == Filed || result == Unwritable ==> answer.Reply?
  {
    if result == Exhausted then []
    else if result == Dateless then Ending(id, result)
    else [Commit([SetState(id, Downloading)]), Request(id)] + Answered(setting, row, id, answer, fault, result)
  }

  /** One attempt, one state. */
  method Conclude(host: Host, id: Id, result: Result)
    requires host.Valid() && IsPending(host.store, id) && !host.store.documents[id].landed
    requires result != Exhausted && result != Filed
    requires Failures(host.store.attempts, id) < MAX_ATTEMPTS_PER_DOCUMENT || Undated(host.store, id)
    modifies host
    ensures host.Valid() && host.log == old(host.log) + Ending(id, result)
    ensures OnlyTouches(old(host.store), host.store, id)
    ensures host.store.requests == old(host.store).requests && host.store.files == old(host.store).files
    ensures host.store.attempts == old(host.store).attempts + [Attempt(id, OutcomeOf(result))]
    ensures host.store.documents[id] == old(host.store).documents[id].(state := StateOf(result))
  {
    hide Inv, Allowed, Replay, OnlyTouches;
    host.RecordAttempt(id, OutcomeOf(result));
    host.SetState(id, StateOf(result));
    FailureTouches(old(host.store), id, OutcomeOf(result), StateOf(result));
  }

  /** Write the staging file: opened empty, then filled -- or torn. */
  method Stage(host: Host, id: Id, content: Bytes, fault: Fault, clock: int) returns (staged: bool)
    requires host.Valid()
    modifies host
    ensures host.Valid() && staged == !fault.WriteFails?
    ensures var reached := if fault.WriteFails? then fault.torn else content;
            && host.log == old(host.log) + [WritePart(id, Part("", clock)), WritePart(id, Part(reached, clock))]
            && host.store == old(host.store).(parts := old(host.store).parts[id := Part(reached, clock)])
  {
    hide Inv, Allowed, Replay;
    host.Perform(WritePart(id, Part("", clock)));
    var reached := if fault.WriteFails? then fault.torn else content;
    host.Perform(WritePart(id, Part(reached, clock)));
    staged := !fault.WriteFails?;
  }

  /** Rename, then commit that fact, then log the success. */
  method Land(host: Host, id: Id, path: Path, extension: string, content: Bytes)
    requires host.Valid() && InState(host.store, id, Downloading) && host.store.documents[id].path == Some(path)
    requires id in host.store.parts && host.store.parts[id].content == content && host.accepts(content)
    modifies host
    ensures host.Valid()
    ensures host.log
            == old(host.log) + [Effect.Publish(id, path), Commit([MarkAvailable(id, path, extension, Sha256(content))]),
                                Commit([RecordAttempt(id, Success)])]
    ensures host.store == old(host.store).(
              documents := old(host.store).documents[id := old(host.store).documents[id].(
                state := Available, extension := Some(extension), digest := Some(Sha256(content)), landed := true,
                purged := false)],
              attempts := old(host.store).attempts + [Attempt(id, Success)],
              files := old(host.store).files[path := content],
              parts := old(host.store).parts - {id})
  {
    hide Inv, Allowed, Replay, Naming.IdentityOf;
    host.Sound();
    PendingFacts(host.accepts, host.store, id);
    host.Perform(Effect.Publish(id, path));
    host.MarkAvailable(id, path, extension, Sha256(content));
    host.RecordAttempt(id, Success);
  }

  lemma TargetDecodes(setting: Setting, row: Row, id: Id, kind: Kind)
    ensures Naming.IdentityOf(Target(setting, row, id, kind).name) == Some(id)
  {
    hide Naming.DocumentFilename, Naming.IdentityOf;
    Naming.FilenameDeterminesIdentity(setting.unicode, setting.prefix, row.facts.category, row.facts.species, id,
                                      Extension(kind));
  }

  lemma TargetIsNamed(setting: Setting, row: Row, id: Id, kind: Kind)
    requires Padded(row.delivery)
    ensures Names(Target(setting, row, id, kind), id, row.delivery)
  {
    hide Naming.DocumentFilename, Naming.IdentityOf;
    TargetDecodes(setting, row, id, kind);
  }

  /** What a publication that came all the way leaves. */
  ghost predicate Published(s: Store, t: Store, id: Id, path: Path, content: Bytes) {
    && Readable(t, id) && t.documents[id].path == Some(path) && t.documents[id].digest == Some(Sha256(content))
    && t.files == s.files[path := content]
    && t.attempts == s.attempts + [Attempt(id, Success)]
  }

  /** The crash-ordered publication of validated bytes. */
  method Publish(host: Host, id: Id, setting: Setting, answer: Answer, fault: Fault) returns (written: bool)
    requires host.Valid() && InState(host.store, id, Downloading) && !host.store.documents[id].landed
    requires Padded(host.store.documents[id].delivery) && answer.Reply? && host.accepts(answer.content)
    modifies host
    ensures host.Valid() && (written <==> fault == NoFault)
    ensures host.log == old(host.log) + Publication(setting, old(host.store).documents[id], id, answer, fault)
    ensures OnlyTouches(old(host.store), host.store, id) && host.store.requests == old(host.store).requests
    ensures !written ==>
      (&& host.store.files == old(host.store).files && host.store.attempts == old(host.store).attempts
       && InState(host.store, id, Downloading) && !host.store.documents[id].landed)
    ensures written ==>
      Published(old(host.store), host.store, id, Target(setting, old(host.store).documents[id], id, answer.kind),
        answer.content)
  {
    hide Inv, Allowed, Replay, Naming.IdentityOf, Target;
    var path := Target(setting, host.store.documents[id], id, answer.kind);
    TargetIsNamed(setting, host.store.documents[id], id, answer.kind);
    if fault == DirectoryFails {
      return false;
    }
    host.SetTarget(id, path, Extension(answer.kind));
    var staged := Stage(host, id, answer.content, fault, setting.clock);
    if !staged || fault == RenameFails {
      return false;
    }
    Land(host, id, path, Extension(answer.kind), answer.content);
    written := true;
  }

  lemma FailureTouches(s: Store, id: Id, outcome: Outcome, state: State)
    requires id in s.documents
    ensures OnlyTouches(s,
        Put(s.(attempts := s.attempts + [Attempt(id, outcome)]), id, s.documents[id].(state := state)), id)
  {
    hide Naming.IdentityOf;
  }

  lemma TouchesTransitive(s: Store, t: Store, u: Store, id: Id)
    requires OnlyTouches(s, t, id) && OnlyTouches(t, u, id)
    ensures OnlyTouches(s, u, id)
  {
    hide Naming.IdentityOf;
  }

  /** From the request on: what the answer leads to. */
  method Handle(host: Host, id: Id, owner: Option<Owner>, setting: Setting, answer: Answer, fault: Fault)
    returns (result: Result)
    requires host.Valid() && InState(host.store, id, Downloading) && !host.store.documents[id].landed
    requires Padded(host.store.documents[id].delivery)
    requires Failures(host.store.attempts, id) < MAX_ATTEMPTS_PER_DOCUMENT
    modifies host
    ensures host.Valid()
    ensures var row := old(host.store).documents[id];
            && result == Verdict(host.accepts, setting, owner, row.delivery, Failures(old(host.store).attempts, id), id,
                 answer, fault)
            && result != Exhausted && result != Dateless && (result == Filed || result == Unwritable ==> answer.Reply?)
            && host.log == old(host.log) + Answered(setting, row, id, answer, fault, result)
    ensures OnlyTouches(old(host.store), host.store, id)
    ensures host.store.requests == old(host.store).requests
    ensures host.store.attempts == old(host.store).attempts + [Attempt(id, OutcomeOf(result))]
    ensures host.store.documents[id].state == StateOf(result)
    ensures result != Filed ==> host.store.files == old(host.store).files && !host.store.documents[id].landed
    ensures result == Filed ==>
      Published(old(host.store), host.store, id, Target(setting, old(host.store).documents[id], id, answer.kind),
        answer.content)
  {
    hide Inv, Allowed, Replay, Naming.IdentityOf, Target, OnlyTouches, Diverges, Validates, Published, Publication;
    if answer.Silence? {
      result := Lost;
    } else if !Validates(host.accepts, id, answer) {
      result := Invalid;
    } else if Diverges(setting.decimal, owner, answer) {
      result := Divergent;
    } else if answer.kind !in setting.wanted {
      result := Declined;
    } else {
      result := PublishOrFail(host, id, setting, answer, fault);
      return;
    }
    Conclude(host, id, result);
  }

  method PublishOrFail(host: Host, id: Id, setting: Setting, answer: Answer, fault: Fault) returns (result: Result)
    requires host.Valid() && InState(host.store, id, Downloading) && !host.store.documents[id].landed
    requires Padded(host.store.documents[id].delivery)
    requires answer.Reply? && Validates(host.accepts, id, answer)
    requires Failures(host.store.attempts, id) < MAX_ATTEMPTS_PER_DOCUMENT
    modifies host
    ensures host.Valid() && result == if fault == NoFault then Filed else Unwritable
    ensures host.log == old(host.log) + Answered(setting, old(host.store).documents[id], id, answer, fault, result)
    ensures OnlyTouches(old(host.store), host.store, id)
    ensures host.store.requests == old(host.store).requests
    ensures host.store.attempts == old(host.store).attempts + [Attempt(id, OutcomeOf(result))]
    ensures host.store.documents[id].state == StateOf(result)
    ensures result != Filed ==> host.store.files == old(host.store).files && !host.store.documents[id].landed
    ensures result == Filed ==>
      Published(old(host.store), host.store, id, Target(setting, old(host.store).documents[id], id, answer.kind),
        answer.content)
  {
    hide Inv, Allowed, Replay, Naming.IdentityOf, Target, OnlyTouches, Validates, OnDisk, Publication;
    ValidatedBytes(host.accepts, id, answer);
    ghost var before, log := host.store, host.log;
    var written := Publish(host, id, setting, answer, fault);
    if written {
      return Filed;
    }
    ghost var middle := host.store;
    Conclude(host, id, Unwritable);
    TouchesTransitive(before, middle, host.store, id);
    result := Unwritable;
  }

  lemma ValidatedBytes(accepts: Bytes -> bool, id: Id, answer: Answer)
    requires answer.Reply? && Validates(accepts, id, answer)
    ensures accepts(answer.content)
  {
  }

  /**
   Download and file one document; every way it can end, the effects that takes, in
   order, and exactly what each leaves behind.
   */
  method FetchOne(host: Host, id: Id, owner: Option<Owner>, setting: Setting, answer: Answer, fault: Fault)
    returns (result: Result)
    requires host.Valid() && IsPending(host.store, id)
    modifies host
    ensures host.Valid()
    ensures var row := old(host.store).documents[id];
            && result == Verdict(host.accepts, setting, owner, row.delivery, Failures(old(host.store).attempts, id), id,
                 answer, fault)
            && (result == Filed || result == Unwritable ==> answer.Reply?)
            && host.log == old(host.log) + Steps(setting, row, id, answer, fault, result)
    ensures OnlyTouches(old(host.store), host.store, id)
    ensures Leaves(old(host.store), host.store, id, result)
    ensures result == Filed ==>
      Published(old(host.store), host.store, id, Target(setting, old(host.store).documents[id], id, answer.kind),
        answer.content)
  {
    hide Inv, Allowed, Replay, Naming.IdentityOf, Diverges, Validates, Readable, Target, Published, Answered, DayText,
         ParseDirName;
    host.Sound();
    PendingFacts(host.accepts, host.store, id);
    TextParses(host.store.documents[id].delivery);
    if ParseDirName(DayText(host.store.documents[id].delivery)).None? {
      Conclude(host, id, Dateless);
      return Dateless;
    }
    if Failures(host.store.attempts, id) >= MAX_ATTEMPTS_PER_DOCUMENT {
      return Exhausted;
    }
    result := Ask(host, id, owner, setting, answer, fault);
  }

  /** Mark the row, ask the source, and deal with the answer. */
  method Ask(host: Host, id: Id, owner: Option<Owner>, setting: Setting, answer: Answer, fault: Fault)
    returns (result: Result)
    requires host.Valid() && IsPending(host.store, id) && !host.store.documents[id].landed
    requires Padded(host.store.documents[id].delivery) && Failures(host.store.attempts, id) < MAX_ATTEMPTS_PER_DOCUMENT
    modifies host
    ensures host.Valid()
    ensures var row := old(host.store).documents[id];
            && result == Verdict(host.accepts, setting, owner, row.delivery, Failures(old(host.store).attempts, id), id,
                 answer, fault)
            && result != Exhausted && result != Dateless && (result == Filed || result == Unwritable ==> answer.Reply?)
            && host.log == old(host.log) + [Commit([SetState(id, Downloading)]), Request(id)]
                           + Answered(setting, row, id, answer, fault, result)
    ensures OnlyTouches(old(host.store), host.store, id)
    ensures Leaves(old(host.store), host.store, id, result)
    ensures result == Filed ==>
      Published(old(host.store), host.store, id, Target(setting, old(host.store).documents[id], id, answer.kind),
        answer.content)
  {
    hide Inv, Allowed, Replay, Naming.IdentityOf, Diverges, Validates, Readable, Target, Published, Answered, Verdict;
    ghost var before, row := host.store, host.store.documents[id];
    host.SetState(id, Downloading);
    host.Perform(Request(id));
    ghost var asked := host.store;
    AskingTouches(before, asked, id);
    result := Handle(host, id, owner, setting, answer, fault);
    TouchesTransitive(before, asked, host.store, id);
    SameDestination(setting, row, asked.documents[id], id, answer, fault, result);
    if result == Filed {
      PublishedLeaves(before, asked, host.store, id, Target(setting, row, id, answer.kind), answer.content);
    }
  }

  lemma AskingTouches(s: Store, t: Store, id: Id)
    requires IsPending(s, id) && t == Put(s, id, s.documents[id].(state := Downloading)).(requests := s.requests + [id])
    ensures OnlyTouches(s, t, id)
  {
    hide Naming.IdentityOf;
  }

  /** Being marked downloading does not change where a row is filed. */
  lemma SameDestination(setting: Setting, row: Row, asked: Row, id: Id, answer: Answer, fault: Fault, result: Result)
    requires asked == row.(state := Downloading)
    requires result != Exhausted && (result == Filed || result == Unwritable ==> answer.Reply?)
    ensures answer.Reply? ==> Target(setting, asked, id, answer.kind) == Target(setting, row, id, answer.kind)
    ensures Answered(setting, asked, id, answer, fault, result) == Answered(setting, row, id, answer, fault, result)
  {
    hide Naming.DocumentFilename, Ending;
  }

  lemma PublishedLeaves(s: Store, asked: Store, t: Store, id: Id, path: Path, content: Bytes)
    requires Published(asked, t, id, path, content) && asked.files == s.files && asked.attempts == s.attempts
    ensures Published(s, t, id, path, content) && Readable(t, id)
  {
  }

  /**
   Where the budget fails: a row whose date does not parse is charged one attempt by
   every run that reaches it, without end, and is never asked for.
   */
  method TryRepeatedly(host: Host, id: Id, owner: Option<Owner>, setting: Setting, answer: Answer, fault: Fault,
                       runs: nat)
    requires host.Valid() && IsPending(host.store, id) && Undated(host.store, id)
    modifies host
    ensures host.Valid() && IsPending(host.store, id) && host.store.requests == old(host.store).requests
    ensures Failures(host.store.attempts, id) == Failures(old(host.store).attempts, id) + runs
  {
    hide Inv, Allowed, Replay, Naming.IdentityOf, Failures, Successes, Published, Steps;
    for k := 0 to runs
      invariant host.Valid() && IsPending(host.store, id) && Undated(host.store, id)
      invariant host.store.requests == old(host.store).requests
      invariant Failures(host.store.attempts, id) == Failures(old(host.store).attempts, id) + k
    {
      ghost var attempts := host.store.attempts;
      var result := FetchOne(host, id, owner, setting, answer, fault);
      AppendAttempt(attempts, Attempt(id, Error), id);
    }
  }

  // ----------------------------------------------------------------- the batch

  /** What one batch is given: how the source and the disk behave for each publication. */
  datatype Batch = Batch(
    settings: Id -> Setting,
    wanted: set<Kind>,
    structured: Facts -> bool,
    answers: Id -> Answer,
    faults: Id -> Fault,
    stop: nat -> bool)

  predicate Wants(wanted: set<Kind>, extension: string) {
    (extension == "pdf" && Pdf in wanted) || (extension == "xml" && Xml in wanted)
  }

  /** The format hint: the recorded extension, or what the listing text suggests. */
  function Predicted(batch: Batch, row: Row): string {
    if row.extension.Some? && row.extension.value != "" then row.extension.value
    else if batch.structured(row.facts) then "xml" else "pdf"
  }

  predicate WorthFetching(batch: Batch, row: Row) {
    {Pdf, Xml} <= batch.wanted || Wants(batch.wanted, Predicted(batch, row))
  }

  /** Only rows of `touched` changed, and only they were asked for. */
  ghost predicate Confined(s: Store, t: Store, touched: set<Id>) {
    && t == s.(documents := t.documents, attempts := t.attempts, files := t.files, parts := t.parts,
         requests := t.requests)
    && t.documents.Keys == s.documents.Keys
    && (forall id :: id in t.documents && t.documents[id].purged ==> s.documents[id].purged)
    && (forall id :: id in s.documents && id !in touched ==> t.documents[id] == s.documents[id])
    && s.requests <= t.requests
    && (forall k :: |s.requests| <= k < |t.requests| ==> t.requests[k] in touched)
  }

  function OwnerOf(owners: map<int, Owner>, row: Row): Option<Owner> {
    if row.entity in owners then Some(owners[row.entity]) else None
  }

  /** The verdict one publication of the batch is due, from where the batch started. */
  function Due(accepts: Bytes -> bool, batch: Batch, owners: map<int, Owner>, s: Store, id: Id): Result
    requires id in s.documents
  {
    Verdict(accepts, batch.settings(id), OwnerOf(owners, s.documents[id]), s.documents[id].delivery,
            Failures(s.attempts, id), id, batch.answers(id), batch.faults(id))
  }

  predicate Concluded(s: Store, t: Store, id: Id, result: Result)
    requires id in s.documents
  {
    id in t.documents && if result == Exhausted then t.documents[id] == s.documents[id]
      else t.documents[id].state == StateOf(result)
  }

  /** Each of `ids` has been brought to the verdict it was due. */
  ghost predicate AllConcluded(accepts: Bytes -> bool, batch: Batch, owners: map<int, Owner>, s: Store, t: Store,
                               ids: set<Id>) {
    forall id :: id in ids ==> id in s.documents && Concluded(s, t, id, Due(accepts, batch, owners, s, id))
  }

  /** The publication can be read, at this place and with these bytes. */
  ghost predicate FiledAt(t: Store, id: Id, path: Path, content: Bytes) {
    Readable(t, id) && t.documents[id].path == Some(path) && t.documents[id].digest == Some(Sha256(content))
  }

  /** Whatever of `ids` was due to land is filed where its own name says, with the bytes the source served. */
  ghost predicate AllFiled(accepts: Bytes -> bool, batch: Batch, owners: map<int, Owner>, s: Store, t: Store,
                           ids: set<Id>) {
    forall id :: id in ids && id in s.documents && Due(accepts, batch, owners, s, id) == Filed ==>
      && batch.answers(id).Reply?
      && FiledAt(t, id, Target(batch.settings(id), s.documents[id], id, batch.answers(id).kind),
                 batch.answers(id).content)
  }

  /** What is filed stays filed while others are touched. */
  lemma StaysFiled(t: Store, u: Store, id: Id, other: Id, path: Path, content: Bytes)
    requires OnlyTouches(t, u, id) && other != id && FiledAt(t, other, path, content)
    requires Naming.IdentityOf(path.name) == Some(other)
    ensures FiledAt(u, other, path, content)
  {
    hide Naming.IdentityOf;
  }

  lemma FileOne(accepts: Bytes -> bool, batch: Batch, owners: map<int, Owner>, s: Store, t: Store, u: Store,
                ids: set<Id>, id: Id)
    requires AllFiled(accepts, batch, owners, s, t, ids) && id !in ids && OnlyTouches(t, u, id) && id in s.documents
    requires Due(accepts, batch, owners, s, id) == Filed ==>
      && batch.answers(id).Reply?
      && FiledAt(u, id, Target(batch.settings(id), s.documents[id], id, batch.answers(id).kind),
                 batch.answers(id).content)
    ensures AllFiled(accepts, batch, owners, s, u, ids + {id})
  {
    hide Due, OnlyTouches, FiledAt, Target, Naming.IdentityOf;
    forall other | other in ids && other in s.documents && Due(accepts, batch, owners, s, other) == Filed
      ensures batch.answers(other).Reply?
      ensures FiledAt(u, other, Target(batch.settings(other), s.documents[other], other, batch.answers(other).kind),
                      batch.answers(other).content)
    {
      var kind := batch.answers(other).kind;
      TargetDecodes(batch.settings(other), s.documents[other], other, kind);
      StaysFiled(t, u, id, other, Target(batch.settings(other), s.documents[other], other, kind),
                 batch.answers(other).content);
    }
  }

  /** Each of `ids` is still waiting, exactly as it was. */
  ghost predicate StillWaiting(s: Store, t: Store, ids: set<Id>) {
    forall id :: id in ids ==>
      && IsPending(s, id) && id in t.documents && t.documents[id] == s.documents[id]
      && Failures(t.attempts, id) == Failures(s.attempts, id)
  }

  function LandedOf(s: Store, ids: set<Id>): set<Id> {
    set id | id in ids && InState(s, id, Available)
  }

  /** An attempt at one publication is not counted against another. */
  lemma FailuresOfOthers(attempts: seq<Attempt>, attempt: Attempt, other: Id)
    requires attempt.id != other
    ensures Failures(attempts + [attempt], other) == Failures(attempts, other)
  {
    assert (attempts + [attempt])[..|attempts|] == attempts;
  }

  lemma WaitOn(s: Store, t: Store, u: Store, ids: set<Id>, id: Id, result: Result)
    requires StillWaiting(s, t, ids) && id !in ids && OnlyTouches(t, u, id) && Leaves(t, u, id, result)
    ensures StillWaiting(s, u, ids)
  {
    hide Naming.IdentityOf, Readable, Failures;
    forall other | other in ids ensures Failures(u.attempts, other) == Failures(s.attempts, other) {
      if result != Exhausted {
        FailuresOfOthers(t.attempts, Attempt(id, OutcomeOf(result)), other);
      }
    }
  }

  lemma ConcludeOne(accepts: Bytes -> bool, batch: Batch, owners: map<int, Owner>, s: Store, t: Store, u: Store,
                    ids: set<Id>, id: Id)
    requires AllConcluded(accepts, batch, owners, s, t, ids) && id !in ids && StillWaiting(s, t, {id})
    requires OnlyTouches(t, u, id) && Leaves(t, u, id, Due(accepts, batch, owners, s, id))
    ensures AllConcluded(accepts, batch, owners, s, u, ids + {id})
    ensures LandedOf(u, ids + {id})
            == LandedOf(t, ids) + if Due(accepts, batch, owners, s, id) == Filed then {id} else {}
  {
    hide Naming.IdentityOf, OnDisk, Due, Failures;
    assert id in {id};
    forall other | other in ids ensures InState(u, other, Available) <==> InState(t, other, Available) {
    }
  }

  lemma ConfinedStep(s: Store, t: Store, u: Store, touched: set<Id>, id: Id)
    requires Confined(s, t, touched) && OnlyTouches(t, u, id) && id in touched
    requires u.requests == t.requests || u.requests == t.requests + [id]
    ensures Confined(s, u, touched)
  {
    hide Naming.IdentityOf;
  }

  /** Only the declined rows changed, and only to skipped. */
  ghost predicate OnlyDeclined(s: Store, m: Store, declined: set<Id>) {
    && m == s.(documents := m.documents) && m.documents.Keys == s.documents.Keys
    && forall id :: id in m.documents ==>
         m.documents[id] == if id in declined then s.documents[id].(state := Skipped) else s.documents[id]
  }

  /** Decline, before any request, what the configured formats exclude. */
  method DeclineAll(host: Host, declined: set<Id>)
    requires host.Valid() && forall id :: id in declined ==> IsPending(host.store, id)
    modifies host
    ensures host.Valid() && old(host.log) <= host.log
    ensures OnlyDeclined(old(host.store), host.store, declined)
  {
    hide Inv, Allowed, Replay;
    ghost var before := host.store;
    var todo := declined;
    while todo != {}
      invariant host.Valid() && old(host.log) <= host.log && todo <= declined
      invariant OnlyDeclined(before, host.store, declined - todo)
      decreases todo
    {
      var id :| id in todo;
      if host.store.documents[id].state != Skipped {
        host.SetState(id, Skipped);
      }
      todo := todo - {id};
    }
  }

  /** The order of the queue: oldest stored delivery date first, then by id and version. */
  predicate Sooner(documents: map<Id, Row>, a: Id, b: Id)
    requires a in documents && b in documents
  {
    var x, y := DayText(documents[a].delivery), DayText(documents[b].delivery);
    || TextLess(x, y)
    || (x == y && (a.document < b.document || (a.document == b.document && a.version < b.version)))
  }

  ghost predicate AllSooner(documents: map<Id, Row>, done: set<Id>, waiting: set<Id>) {
    forall a, b :: a in done && b in waiting && a in documents && b in documents ==> Sooner(documents, a, b)
  }

  lemma SoonerIsTotal(documents: map<Id, Row>, a: Id, b: Id)
    requires a in documents && b in documents && a != b
    ensures Sooner(documents, a, b) || Sooner(documents, b, a)
  {
    hide DayText, TextLess;
    TextLessIsTotal(DayText(documents[a].delivery), DayText(documents[b].delivery));
  }

  lemma SoonerIsTransitive(documents: map<Id, Row>, a: Id, b: Id, c: Id)
    requires a in documents && b in documents && c in documents && Sooner(documents, a, b) && Sooner(documents, b, c)
    ensures Sooner(documents, a, c)
  {
    hide DayText, TextLess;
    var x, y, z := DayText(documents[a].delivery), DayText(documents[b].delivery), DayText(documents[c].delivery);
    if TextLess(x, y) && TextLess(y, z) {
      TextLessIsTransitive(x, y, z);
    }
  }

  /** The head of the queue. */
  method Oldest(documents: map<Id, Row>, ids: set<Id>) returns (id: Id)
    requires ids != {} && ids <= documents.Keys
    ensures id in ids && AllSooner(documents, {id}, ids - {id})
  {
    hide Sooner;
    id := Pick(ids);
    var todo := ids - {id};
    while todo != {}
      invariant todo <= ids && id in ids && id !in todo
      invariant AllSooner(documents, {id}, ids - todo - {id})
      decreases todo
    {
      var other := Pick(todo);
      todo := todo - {other};
      SoonerIsTotal(documents, id, other);
      if !Sooner(documents, id, other) {
        forall b | b in ids - todo - {other} && b != id ensures Sooner(documents, other, b) {
          SoonerIsTransitive(documents, other, id, b);
        }
        id := other;
      }
    }
  }

  /**
   Download what is wanted, oldest first, until told to stop. What was reached has been
   brought to the verdict it is due, what was not is still waiting as it was, and
   everything reached comes before it in the queue.
   */
  method DownloadAll(host: Host, wanted: set<Id>, index: EntityIndex, batch: Batch)
    returns (downloaded: nat, left: set<Id>)
    requires host.Valid() && forall id :: id in wanted ==> IsPending(host.store, id)
    modifies host
    ensures host.Valid() && old(host.log) <= host.log && left <= wanted
    ensures Batching(host.accepts, batch, index.byId, old(host.store), host.store, wanted, left, downloaded)
    ensures (forall position :: !batch.stop(position)) ==> left == {}
  {
    hide Inv, Allowed, Replay, Batching, AllSooner;
    ghost var before := host.store;
    BatchStarts(host.accepts, batch, index.byId, before, wanted);
    downloaded, left := 0, wanted;
    var documents, position := host.store.documents, 0;
    while left != {} && !batch.stop(position)
      invariant host.Valid() && old(host.log) <= host.log && left <= wanted
      invariant Batching(host.accepts, batch, index.byId, before, host.store, wanted, left, downloaded)
      decreases left
    {
      var id := Oldest(documents, left);
      var filed := DownloadOne(host, id, index, batch, before, wanted, left, downloaded);
      downloaded := downloaded + if filed then 1 else 0;
      left, position := left - {id}, position + 1;
    }
  }

  /** How far a batch has come: `todo` is still waiting, the rest is concluded and counted. */
  ghost predicate Batching(accepts: Bytes -> bool, batch: Batch, owners: map<int, Owner>, s: Store, t: Store,
                           wanted: set<Id>, todo: set<Id>, downloaded: nat) {
    && Confined(s, t, wanted)
    && StillWaiting(s, t, todo)
    && AllConcluded(accepts, batch, owners, s, t, wanted - todo)
    && AllFiled(accepts, batch, owners, s, t, wanted - todo)
    && AllSooner(s.documents, wanted - todo, todo)
    && downloaded == |LandedOf(t, wanted - todo)|
  }

  lemma BatchStarts(accepts: Bytes -> bool, batch: Batch, owners: map<int, Owner>, s: Store, wanted: set<Id>)
    requires forall id :: id in wanted ==> IsPending(s, id)
    ensures Batching(accepts, batch, owners, s, s, wanted, wanted, 0)
  {
    hide Failures, Verdict;
    assert wanted - wanted == {};
    assert LandedOf(s, {}) == {};
  }

  method DownloadOne(host: Host, id: Id, index: EntityIndex, batch: Batch,
                     ghost before: Store, ghost wanted: set<Id>, ghost todo: set<Id>, ghost downloaded: nat)
    returns (filed: bool)
    requires host.Valid() && id in todo && todo <= wanted
    requires Batching(host.accepts, batch, index.byId, before, host.store, wanted, todo, downloaded)
    requires AllSooner(before.documents, {id}, todo - {id})
    modifies host
    ensures host.Valid() && old(host.log) <= host.log
    ensures Batching(host.accepts, batch, index.byId, before, host.store, wanted, todo - {id},
                     downloaded + if filed then 1 else 0)
  {
    hide Inv, Allowed, Replay, OnlyTouches, Leaves, Verdict, Failures, Confined, AllConcluded, AllFiled, LandedOf,
         AllSooner, Published, Steps, Target;
    ghost var middle := host.store;
    var owner := index.Get(host.store.documents[id].entity);
    var result := FetchOne(host, id, owner, batch.settings(id), batch.answers(id), batch.faults(id));
    BatchStep(host.accepts, batch, index.byId, before, middle, host.store, wanted, todo, downloaded, id, result);
    filed := result == Filed;
  }

  lemma BatchStep(accepts: Bytes -> bool, batch: Batch, owners: map<int, Owner>, s: Store, t: Store, u: Store,
                  wanted: set<Id>, todo: set<Id>, downloaded: nat, id: Id, result: Result)
    requires Batching(accepts, batch, owners, s, t, wanted, todo, downloaded) && id in todo && todo <= wanted
    requires OnlyTouches(t, u, id) && id in s.documents && result == Due(accepts, batch, owners, s, id)
        && Leaves(t, u, id, result)
    requires result == Filed ==>
      && batch.answers(id).Reply?
      && Published(t, u, id, Target(batch.settings(id), t.documents[id], id, batch.answers(id).kind),
                   batch.answers(id).content)
    requires AllSooner(s.documents, {id}, todo - {id})
    ensures Batching(accepts, batch, owners, s, u, wanted, todo - {id}, downloaded + if result == Filed then 1 else 0)
  {
    hide OnlyTouches, Leaves, Due, Failures, Confined, AllConcluded, AllFiled, LandedOf, Sooner, Target, Readable;
    var done := wanted - todo;
    FileOne(accepts, batch, owners, s, t, u, done, id);
    ConfinedFetch(s, t, u, wanted, id, result);
    assert StillWaiting(s, t, todo - {id});
    WaitOn(s, t, u, todo - {id}, id, result);
    ConcludeOne(accepts, batch, owners, s, t, u, done, id);
    assert wanted - (todo - {id}) == done + {id};
    NotLanded(t, done, id);
  }

  lemma NotLanded(t: Store, ids: set<Id>, id: Id)
    requires id !in ids
    ensures |LandedOf(t, ids) + {id}| == |LandedOf(t, ids)| + 1
  {
  }

  lemma ConfinedFetch(s: Store, t: Store, u: Store, touched: set<Id>, id: Id, result: Result)
    requires Confined(s, t, touched) && OnlyTouches(t, u, id) && id in touched && Leaves(t, u, id, result)
    ensures Confined(s, u, touched)
  {
    hide Confined, OnlyTouches, Readable;
    TouchedRequests(t, u, id, result);
    ConfinedStep(s, t, u, touched, id);
  }

  lemma TouchedRequests(s: Store, t: Store, id: Id, result: Result)
    requires OnlyTouches(s, t, id) && Leaves(s, t, id, result)
    ensures t.requests == s.requests || t.requests == s.requests + [id]
  {
    hide OnlyTouches, Readable;
  }

  /** The pending rows of entities that resolve, split by whether their format is wanted. */
  function Queue(s: Store, known: set<int>, batch: Batch, worth: bool): set<Id> {
    set id | id in s.documents && Pending(s.documents[id].state) && s.documents[id].entity in known
             && WorthFetching(batch, s.documents[id]) == worth
  }

  /** Every id that occurs exactly once across the scopes, and its owner. */
  ghost predicate Resolves(scopes: seq<Scope>, owners: map<int, Owner>) {
    && (forall id :: id in owners <==> Occurrences(Owners(scopes), id) == 1)
    && (forall id :: id in owners ==> owners[id] in Owners(scopes) && owners[id].entity.fundosnetId == id)
  }

  /**
   What one fetch stage does: rows whose entity is absent or ambiguous, and rows
   already filed, are left alone; declined rows end up skipped and are never asked
   for; only wanted rows are requested, the oldest first; all but `left` of them are
   concluded, and `left` is empty unless the stage was told to stop.
   */
  ghost predicate Fetched(accepts: Bytes -> bool, batch: Batch, owners: map<int, Owner>, s: Store, t: Store,
                          left: set<Id>, downloaded: nat) {
    var wanted, declined := Queue(s, owners.Keys, batch, true), Queue(s, owners.Keys, batch, false);
    && Confined(s, t, wanted + declined)
    && (forall k :: |s.requests| <= k < |t.requests| ==> t.requests[k] in wanted)
    && (forall id :: id in declined ==> InState(t, id, Skipped))
    && left <= wanted && ((forall position :: !batch.stop(position)) ==> left == {})
    && AllConcluded(accepts, batch, owners, s, t, wanted - left)
    && AllFiled(accepts, batch, owners, s, t, wanted - left)
    && StillWaiting(s, t, left) && AllSooner(s.documents, wanted - left, left)
    && downloaded == |LandedOf(t, wanted - left)|
  }

  method Run(host: Host, scopes: seq<Scope>, batch: Batch) returns (downloaded: nat, deferred: nat, left: set<Id>)
    requires host.Valid()
    modifies host
    ensures host.Valid() && old(host.log) <= host.log
    ensures exists owners ::
      Resolves(scopes, owners) && Fetched(host.accepts, batch, owners, old(host.store), host.store, left, downloaded)
  {
    hide Inv, Allowed, Replay, Occurrences, Fetched, Batching;
    var index := new EntityIndex(scopes);
    ghost var before := host.store;
    var known := index.byId.Keys;
    var wanted, declined := Queue(host.store, known, batch, true), Queue(host.store, known, batch, false);
    var orphaned := set id | id in host.store.documents && Pending(host.store.documents[id].state)
                             && host.store.documents[id].entity !in known;
    deferred := |orphaned|;
    DeclineAll(host, declined);
    ghost var middle := host.store;
    downloaded, left := DownloadAll(host, wanted, index, batch);
    FetchedInTwoSteps(host.accepts, batch, index.byId, before, middle, host.store, wanted, declined, left, downloaded);
    assert Resolves(scopes, index.byId);
  }

  lemma FetchedInTwoSteps(accepts: Bytes -> bool, batch: Batch, owners: map<int, Owner>, s: Store, m: Store, t: Store,
                          wanted: set<Id>, declined: set<Id>, left: set<Id>, downloaded: nat)
    requires wanted == Queue(s, owners.Keys, batch, true) && declined == Queue(s, owners.Keys, batch, false)
    requires OnlyDeclined(s, m, declined) && left <= wanted
    requires Batching(accepts, batch, owners, m, t, wanted, left, downloaded)
    requires (forall position :: !batch.stop(position)) ==> left == {}
    ensures Fetched(accepts, batch, owners, s, t, left, downloaded)
  {
    hide LandedOf, AllConcluded, AllFiled, WorthFetching, OnlyDeclined, Confined, StillWaiting, AllSooner;
    DeclinedThenConfined(s, m, t, wanted, declined);
    WantedUnchanged(s, m, wanted, declined);
    ConcludedFromTheStart(accepts, batch, owners, s, m, t, wanted - left);
    WaitingFromTheStart(s, m, t, wanted, left);
  }

  lemma WaitingFromTheStart(s: Store, m: Store, t: Store, wanted: set<Id>, left: set<Id>)
    requires StillWaiting(m, t, left) && AllSooner(m.documents, wanted - left, left) && left <= wanted
    requires m.attempts == s.attempts
    requires forall id :: id in wanted ==>
               id in s.documents && id in m.documents && m.documents[id] == s.documents[id]
    ensures StillWaiting(s, t, left) && AllSooner(s.documents, wanted - left, left)
  {
    hide Failures, DayText, TextLess;
    forall a, b | a in wanted - left && b in left && a in s.documents && b in s.documents
      ensures Sooner(s.documents, a, b)
    {
      assert Sooner(m.documents, a, b);
    }
  }

  lemma DeclinedThenConfined(s: Store, m: Store, t: Store, wanted: set<Id>, declined: set<Id>)
    requires OnlyDeclined(s, m, declined) && Confined(m, t, wanted) && wanted !! declined
        && declined <= s.documents.Keys
    ensures Confined(s, t, wanted + declined)
    ensures forall k :: |s.requests| <= k < |t.requests| ==> t.requests[k] in wanted
    ensures forall id :: id in declined ==> InState(t, id, Skipped)
  {
  }

  lemma WantedUnchanged(s: Store, m: Store, wanted: set<Id>, declined: set<Id>)
    requires OnlyDeclined(s, m, declined) && wanted !! declined && wanted <= s.documents.Keys
    ensures m.attempts == s.attempts
    ensures forall id :: id in wanted ==> id in m.documents && m.documents[id] == s.documents[id]
  {
  }

  lemma ConcludedFromTheStart(accepts: Bytes -> bool, batch: Batch, owners: map<int, Owner>, s: Store, m: Store,
                              t: Store, ids: set<Id>)
    requires AllConcluded(accepts, batch, owners, m, t, ids) && m.attempts == s.attempts
    requires forall id :: id in ids ==> id in s.documents && id in m.documents && m.documents[id] == s.documents[id]
    ensures AllConcluded(accepts, batch, owners, s, t, ids)
    ensures AllFiled(accepts, batch, owners, m, t, ids) ==> AllFiled(accepts, batch, owners, s, t, ids)
  {
    hide Verdict, Failures, FiledAt, Target;
    forall id | id in ids ensures Concluded(s, t, id, Due(accepts, batch, owners, s, id)) {
      assert m.documents[id] == s.documents[id];
    }
  }
}
