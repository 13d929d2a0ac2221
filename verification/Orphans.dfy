/**
 Orphans: archived files that no row names.

 A file loses its row in one way only: its publication is given a new destination while
 the file of an earlier try is still on disk. It gets one again when that destination is
 chosen once more, and ceases to be an orphan when its date directory goes. What is an
 orphan after a whole history is characterised exactly.
 */
module Orphans {
  import opened Base
  import opened Clock
  import opened Listing
  import opened Archive
  import opened Safety
  import opened Traces
  import Naming

  predicate NamedByItsRow(s: Store, path: Path) {
    match Naming.IdentityOf(path.name)
    case None => false
    case Some(id) => id in s.documents && s.documents[id].path == Some(path)
  }

  predicate IsOrphan(s: Store, path: Path) {
    path in s.files && !NamedByItsRow(s, path)
  }

  /** Every archived file is named by the row it decodes to -- so by exactly one row. */
  ghost predicate NoOrphans(s: Store) {
    forall path :: path in s.files ==> NamedByItsRow(s, path)
  }

  lemma NamedByExactlyOneRow(accepts: Bytes -> bool, s: Store, path: Path, id: Id)
    requires Inv(accepts, s) && NoOrphans(s) && path in s.files && id in s.documents
    ensures s.documents[id].path == Some(path) <==> Naming.IdentityOf(path.name) == Some(id)
  {
    hide FilesOwned, Kept, HeirsSound, LandedSound, PurgedSound, MarksSound, AttemptsSound, WatermarksSound;
    assert NamedByItsRow(s, path);
    assert s.documents[id].path.Some? ==> Names(s.documents[id].path.value, id, s.documents[id].delivery);
  }

  // ---------------------------------------------------------------- one statement

  /** The statement chooses a destination for a row that is being downloaded. */
  predicate Targets(s: Store, q: Sql) {
    q.SetTarget? && InState(s, q.id, Downloading)
  }

  /** It does so while `path`, the destination of an earlier try, is still on disk. */
  predicate Strands(s: Store, q: Sql, path: Path) {
    Targets(s, q) && s.documents[q.id].path == Some(path) && path in s.files && path != q.path
  }

  lemma PutNames(s: Store, id: Id, now: Row, path: Path)
    requires PathsNamed(s) && id in s.documents
    requires now.path.Some? ==> Naming.IdentityOf(now.path.value.name) == Some(id)
    ensures NamedByItsRow(Put(s, id, now), path) <==>
            now.path == Some(path) || (NamedByItsRow(s, path) && s.documents[id].path != Some(path))
  {
    hide Naming.IdentityOf;
    assert s.documents[id].path.Some? ==> Names(s.documents[id].path.value, id, s.documents[id].delivery);
  }

  lemma SameNames(s: Store, t: Store, path: Path)
    requires forall id :: id in s.documents && s.documents[id].path == Some(path) ==>
               id in t.documents && t.documents[id].path == Some(path)
    requires forall id :: id in t.documents && t.documents[id].path == Some(path) ==>
               id in s.documents && s.documents[id].path == Some(path)
    ensures NamedByItsRow(t, path) <==> NamedByItsRow(s, path)
  {
    hide Naming.IdentityOf;
  }

  /** Marking rows purged takes no path from a file that is still there. */
  lemma PurgeNames(s: Store, before: int, spared: set<int>, path: Path)
    requires PathsNamed(s) && MayExecute(s, MarkPurged(before, spared)) && path in s.files
    ensures NamedByItsRow(Execute(s, MarkPurged(before, spared)), path) <==> NamedByItsRow(s, path)
  {
    hide Naming.IdentityOf, DayText, TextLess;
    var t := Execute(s, MarkPurged(before, spared));
    forall id | id in s.documents && s.documents[id].path == Some(path)
      ensures t.documents[id].path == Some(path)
    {
      assert Names(path, id, s.documents[id].delivery);
      TextOrder(s.documents[id].delivery, before);
    }
    SameNames(s, t, path);
  }

  lemma PathsAreNamed(accepts: Bytes -> bool, s: Store)
    requires Inv(accepts, s)
    ensures PathsNamed(s)
    ensures forall id :: id in s.documents && s.documents[id].path.Some? ==>
      Naming.IdentityOf(s.documents[id].path.value.name) == Some(id)
  {
    hide FilesOwned, Kept, HeirsSound, LandedSound, PurgedSound, MarksSound, AttemptsSound, WatermarksSound,
         Naming.IdentityOf;
    forall id | id in s.documents && s.documents[id].path.Some?
      ensures Naming.IdentityOf(s.documents[id].path.value.name) == Some(id)
    {
      assert Names(s.documents[id].path.value, id, s.documents[id].delivery);
    }
  }

  /** What a change of one row does to one file. */
  lemma RowOrphans(s: Store, id: Id, now: Row, path: Path)
    requires PathsNamed(s) && id in s.documents && path in s.files
    requires now.path.Some? ==> Naming.IdentityOf(now.path.value.name) == Some(id)
    ensures IsOrphan(Put(s, id, now), path) <==>
            now.path != Some(path) && (IsOrphan(s, path) || s.documents[id].path == Some(path))
    ensures s.documents[id].path == Some(path) ==> !IsOrphan(s, path)
  {
    hide Naming.IdentityOf, PathsNamed, NamedByItsRow;
    PutNames(s, id, now, path);
    HolderIsNamed(s, id, path);
  }

  lemma HolderIsNamed(s: Store, id: Id, path: Path)
    requires PathsNamed(s) && id in s.documents
    ensures s.documents[id].path == Some(path) ==> NamedByItsRow(s, path)
  {
    hide Naming.IdentityOf;
    assert s.documents[id].path == Some(path) ==> Names(path, id, s.documents[id].delivery);
  }

  /**
   What one statement does to one file: it becomes an orphan when it is stranded, stops
   being one when it is chosen as a destination again, and nothing else matters.
   */
  lemma OrphanStep(accepts: Bytes -> bool, s: Store, q: Sql, path: Path)
    requires Inv(accepts, s) && MayExecute(s, q) && path in s.files
    ensures IsOrphan(Execute(s, q), path) <==>
            Strands(s, q, path) || (IsOrphan(s, path) && !(Targets(s, q) && q.path == path))
  {
    hide Naming.IdentityOf, Inv, NamedByItsRow, DayText, TextLess;
    match q
    case MarkPurged(before, spared) =>
      PathsAreNamed(accepts, s);
      PurgeNames(s, before, spared, path);
    case AbandonOutside(_) => SameNames(s, Execute(s, q), path);
    case RecordAttempt(_, _) => SameNames(s, Execute(s, q), path);
    case AdvanceWatermark(_, _) => SameNames(s, Execute(s, q), path);
    case RecordError(_) => SameNames(s, Execute(s, q), path);
    case AdvanceCursor(_, _) => SameNames(s, Execute(s, q), path);
    case _ => RowStatementOrphans(accepts, s, q, path);
  }

  lemma RowStatementOrphans(accepts: Bytes -> bool, s: Store, q: Sql, path: Path)
    requires Inv(accepts, s) && MayExecute(s, q) && path in s.files
    requires q.Upsert? || q.SetState? || q.SetTarget? || q.MarkAvailable? || q.MarkSuperseded? || q.MarkRemoved?
    ensures IsOrphan(Execute(s, q), path) <==>
            Strands(s, q, path) || (IsOrphan(s, path) && !(Targets(s, q) && q.path == path))
  {
    hide Naming.IdentityOf, Inv, NamedByItsRow;
    PathsAreNamed(accepts, s);
    match q
    case Upsert(row, entity) =>
      if row.id in s.documents {
        RowOrphans(s, row.id, Rediscovered(s.documents[row.id], row), path);
      } else {
        SameNames(s, Execute(s, q), path);
      }
    case SetState(id, state) => RowOrphans(s, id, s.documents[id].(state := state), path);
    case SetTarget(id, target, extension) =>
      if InState(s, id, Downloading) {
        RowOrphans(s, id, s.documents[id].(path := Some(target), extension := Some(extension)), path);
      }
    case MarkAvailable(id, target, extension, digest) =>
      RowOrphans(s, id, s.documents[id].(state := Available, path := Some(target), extension := Some(extension),
                                         digest := Some(digest), landed := true, purged := false), path);
    case MarkSuperseded(loser, winner) => RowOrphans(s, loser, Marked(s.documents[loser], winner), path);
    case MarkRemoved(id) => RowOrphans(s, id, s.documents[id].(state := Superseded, path := None), path);
    case _ =>
  }

  /** From an archive without orphans, a statement makes one exactly by stranding a file. */
  lemma OrphanedExactlyByRetargeting(accepts: Bytes -> bool, s: Store, q: Sql)
    requires Inv(accepts, s) && MayExecute(s, q) && NoOrphans(s)
    ensures NoOrphans(Execute(s, q)) <==> forall path :: path in s.files ==> !Strands(s, q, path)
  {
    hide Naming.IdentityOf, Inv, NamedByItsRow, Strands, Targets;
    StatementsKeepFiles(s, q);
    forall path | path in s.files ensures NamedByItsRow(Execute(s, q), path) <==> !Strands(s, q, path) {
      OrphanStep(accepts, s, q, path);
      assert !IsOrphan(s, path);
    }
  }

  lemma StatementsKeepFiles(s: Store, q: Sql)
    ensures Execute(s, q).files == s.files
  {
    hide DayText, TextLess;
  }

  // -------------------------------------------------------------------- one effect

  /** Whether `path` is an orphan after a transaction, given whether it was one before. */
  predicate OrphanAfter(s: Store, was: bool, qs: seq<Sql>, path: Path) {
    if qs == [] then was
    else
      var t, q := ExecuteAll(s, qs[..|qs| - 1]), qs[|qs| - 1];
      Strands(t, q, path) || (OrphanAfter(s, was, qs[..|qs| - 1], path) && !(Targets(t, q) && q.path == path))
  }

  /** The effect makes an orphan of `path`. */
  predicate Makes(s: Store, e: Effect, path: Path) {
    e.Commit? && OrphanAfter(s, false, e.statements, path)
  }

  /** The effect ends it: the file is a destination once more, or is removed. */
  predicate Ends(s: Store, e: Effect, path: Path) {
    || (e.Commit? && !OrphanAfter(s, true, e.statements, path))
    || (e.RemoveTree? && path in e.victims)
  }

  lemma {:induction false} OrphanAfterEither(s: Store, was: bool, qs: seq<Sql>, path: Path)
    ensures OrphanAfter(s, was, qs, path) <==>
            OrphanAfter(s, false, qs, path) || (was && OrphanAfter(s, true, qs, path))
  {
    hide Strands, Targets;
    if qs != [] {
      OrphanAfterEither(s, was, qs[..|qs| - 1], path);
    }
  }

  lemma {:induction false} TransactionOrphans(accepts: Bytes -> bool, s: Store, qs: seq<Sql>, path: Path)
    requires Inv(accepts, s) && MayExecuteAll(s, qs) && path in s.files
    ensures ExecuteAll(s, qs).files == s.files
    ensures IsOrphan(ExecuteAll(s, qs), path) <==> OrphanAfter(s, IsOrphan(s, path), qs, path)
  {
    hide Inv, IsOrphan, MayExecute, Execute, Strands, Targets;
    if qs != [] {
      var init := qs[..|qs| - 1];
      TransactionOrphans(accepts, s, init, path);
      TransactionKeeps(accepts, s, init);
      OrphanStep(accepts, ExecuteAll(s, init), qs[|qs| - 1], path);
      StatementsKeepFiles(ExecuteAll(s, init), qs[|qs| - 1]);
    }
  }

  lemma {:induction false} NoFileNoOrphan(s: Store, qs: seq<Sql>, path: Path)
    requires path !in s.files
    ensures ExecuteAll(s, qs).files == s.files && !OrphanAfter(s, false, qs, path)
  {
    hide Execute, Targets;
    if qs != [] {
      NoFileNoOrphan(s, qs[..|qs| - 1], path);
      StatementsKeepFiles(ExecuteAll(s, qs[..|qs| - 1]), qs[|qs| - 1]);
    }
  }

  /** No file operation makes an orphan, and only removing a tree ends one. */
  lemma FileOperationOrphans(accepts: Bytes -> bool, s: Store, e: Effect, path: Path)
    requires Inv(accepts, s) && May(accepts, s, e) && !e.Commit?
    ensures IsOrphan(Apply(s, e), path) <==> IsOrphan(s, path) && !Ends(s, e, path)
  {
    hide Naming.IdentityOf, Inv, NamedByItsRow;
    PathsAreNamed(accepts, s);
    SameNames(s, Apply(s, e), path);
    if e.Publish? || e.Unlink? {
      HolderIsNamed(s, e.id, path);
    }
  }

  lemma EffectOrphans(accepts: Bytes -> bool, s: Store, e: Effect, path: Path)
    requires Inv(accepts, s) && May(accepts, s, e)
    ensures IsOrphan(Apply(s, e), path) <==> Makes(s, e, path) || (IsOrphan(s, path) && !Ends(s, e, path))
  {
    hide Inv, MayExecuteAll, ExecuteAll, NamedByItsRow;
    if !e.Commit? {
      FileOperationOrphans(accepts, s, e, path);
    } else if path in s.files {
      TransactionOrphans(accepts, s, e.statements, path);
      OrphanAfterEither(s, IsOrphan(s, path), e.statements, path);
    } else {
      NoFileNoOrphan(s, e.statements, path);
    }
  }

  // -------------------------------------------------------------- whole histories

  /** Effect `k` of the trace made an orphan of `path`, and no later one ended it. */
  ghost predicate StrandedAt(s: Store, log: seq<Effect>, path: Path, k: nat) {
    && k < |log| && Makes(Replay(s, log[..k]), log[k], path)
    && forall j :: k < j < |log| ==> !Ends(Replay(s, log[..j]), log[j], path)
  }

  /**
   Exactly when a file has no row: after any history that started without orphans, a
   file is one if and only if some effect stranded it and none since has ended that.
   */
  lemma {:induction false} OrphansOfATrace(accepts: Bytes -> bool, s: Store, log: seq<Effect>, path: Path)
    requires Inv(accepts, s) && Allowed(accepts, s, log) && NoOrphans(s)
    ensures IsOrphan(Replay(s, log), path) <==> exists k: nat :: StrandedAt(s, log, path, k)
  {
    hide Inv, NamedByItsRow, May, Apply, Makes, Ends, IsOrphan, StrandedAt;
    if log == [] {
      StartsNamed(s, path);
      NeverStrandedYet(s, path);
    } else {
      var init, e := log[..|log| - 1], log[|log| - 1];
      OrphansOfATrace(accepts, s, init, path);
      EveryCrashPointIsSound(accepts, s, log, |init|);
      EffectOrphans(accepts, Replay(s, init), e, path);
      StrandedSince(s, log, path);
    }
  }

  lemma StartsNamed(s: Store, path: Path)
    requires NoOrphans(s)
    ensures !IsOrphan(s, path)
  {
  }

  lemma NeverStrandedYet(s: Store, path: Path)
    ensures forall k: nat :: !StrandedAt(s, [], path, k)
  {
  }

  lemma StrandedSince(s: Store, log: seq<Effect>, path: Path)
    requires log != []
    ensures var init, e := log[..|log| - 1], log[|log| - 1];
            (exists k: nat :: StrandedAt(s, log, path, k)) <==>
            Makes(Replay(s, init), e, path)
            || ((exists k: nat :: StrandedAt(s, init, path, k)) && !Ends(Replay(s, init), e, path))
  {
    hide Makes, Ends, Replay;
    var init, e := log[..|log| - 1], log[|log| - 1];
    forall j: nat | j < |init| ensures init[..j] == log[..j] && init[j] == log[j] {
    }
    if Makes(Replay(s, init), e, path) {
      assert StrandedAt(s, log, path, |init|);
    }
    if k: nat :| StrandedAt(s, init, path, k) && !Ends(Replay(s, init), e, path) {
      assert StrandedAt(s, log, path, k);
    }
    if k: nat :| StrandedAt(s, log, path, k) {
      if k < |init| {
        assert StrandedAt(s, init, path, k);
      }
    }
  }
}
