/** Keeping only the live version: detect before fetching, sweep after. */
module Supersede {
  import opened Base
  import opened Clock
  import opened Listing
  import opened Archive
  import opened Safety
  import opened Traces
  import opened Hosts
  import opened Correlate
  import Naming

  predicate Correlatable(row: Row, window: Window) {
    && !row.purged && (Pending(row.state) || row.state == Available)
    && ContainsText(window, DayText(row.delivery))
  }

  /** The stored text is in the window exactly when the day is. */
  lemma CorrelatableByDay(row: Row, window: Window)
    requires Padded(window.first) && Padded(window.last) && Padded(row.delivery)
    ensures Correlatable(row, window) <==>
            !row.purged && (Pending(row.state) || row.state == Available) && window.Contains(row.delivery)
  {
    hide ContainsText, DayText;
    WindowAgrees(window, row.delivery);
  }

  function InWindow(s: Store, window: Window): set<Id> {
    set id | id in s.documents && Correlatable(s.documents[id], window)
  }

  ghost predicate Lists(s: Store, ids: set<Id>, docs: seq<Doc>) {
    && DistinctDocs(docs)
    && (forall d :: d in docs ==> d.id in ids && d.id in s.documents && d.row == s.documents[d.id])
    && (forall id :: id in ids && id in s.documents ==> Doc(id, s.documents[id]) in docs)
  }

  method Select(s: Store, ids: set<Id>) returns (docs: seq<Doc>)
    requires ids <= s.documents.Keys
    ensures Lists(s, ids, docs)
  {
    docs := [];
    var todo := ids;
    while todo != {}
      invariant todo <= ids && Lists(s, ids - todo, docs)
      decreases todo
    {
      var id :| id in todo;
      docs := docs + [Doc(id, s.documents[id])];
      todo := todo - {id};
    }
    assert ids - {} == ids;
  }

  // -------------------------------------------------------------------- detect

  /** A loser's row once its replacement is recorded; a pending loser is cancelled. */
  function Replaced(row: Row, winner: Id): Row {
    var marked := Marked(row, winner);
    if Pending(row.state) then marked.(state := Superseded) else marked
  }

  function Detected(s: Store, best: map<Id, Doc>): Store {
    s.(documents := map id | id in s.documents ::
         if id in best then Replaced(s.documents[id], best[id].id) else s.documents[id])
  }

  lemma AppendStatement(s: Store, qs: seq<Sql>, q: Sql)
    ensures ExecuteAll(s, qs + [q]) == Execute(ExecuteAll(s, qs), q)
    ensures MayExecuteAll(s, qs + [q]) <==> MayExecuteAll(s, qs) && MayExecute(ExecuteAll(s, qs), q)
  {
    hide Execute, MayExecute;
    assert (qs + [q])[..|qs|] == qs;
  }

  /** The statements of one loser, appended to the open transaction. */
  method Replace(s: Store, qs: seq<Sql>, ghost staged: Store, loser: Id, winner: Id) returns (more: seq<Sql>)
    requires MayExecuteAll(s, qs) && staged == ExecuteAll(s, qs)
    requires loser in s.documents && loser in staged.documents && staged.documents[loser] == s.documents[loser]
    requires Pending(s.documents[loser].state) || s.documents[loser].state == Available
    requires winner in staged.documents && loser.version < winner.version
    ensures MayExecuteAll(s, more)
    ensures ExecuteAll(s, more) == Put(staged, loser, Replaced(s.documents[loser], winner))
  {
    hide ExecuteAll, MayExecuteAll;
    var mark := MarkSuperseded(loser, winner);
    AppendStatement(s, qs, mark);
    more := qs + [mark];
    if Pending(s.documents[loser].state) {
      var cancel := SetState(loser, Superseded);
      AppendStatement(s, more, cancel);
      more := more + [cancel];
    }
  }

  lemma NoStatements(s: Store)
    ensures MayExecuteAll(s, []) && ExecuteAll(s, []) == s
  {
  }

  /** What a transaction may be asked to record: later versions, of rows that can still lose. */
  ghost predicate Recordable(s: Store, best: map<Id, Doc>) {
    forall loser :: loser in best ==>
      && loser in s.documents && (Pending(s.documents[loser].state) || s.documents[loser].state == Available)
      && best[loser].id in s.documents && loser.version < best[loser].id.version
  }

  function Part(best: map<Id, Doc>, done: set<Id>): map<Id, Doc> {
    map id | id in done && id in best :: best[id]
  }

  lemma DetectedStep(s: Store, best: map<Id, Doc>, done: set<Id>, loser: Id)
    requires loser in best && loser in s.documents && loser !in done
    ensures var t := Detected(s, Part(best, done));
            && t.documents.Keys == s.documents.Keys && t.documents[loser] == s.documents[loser]
            && Put(t, loser, Replaced(s.documents[loser], best[loser].id)) == Detected(s, Part(best, done + {loser}))
  {
    hide Replaced;
    var t := Detected(s, Part(best, done));
    assert Put(t, loser, Replaced(s.documents[loser], best[loser].id)).documents
        == Detected(s, Part(best, done + {loser})).documents;
  }

  /** The statements of all losers, in one transaction. */
  method Statements(s: Store, best: map<Id, Doc>) returns (qs: seq<Sql>)
    requires Recordable(s, best)
    ensures MayExecuteAll(s, qs) && ExecuteAll(s, qs) == Detected(s, best)
  {
    hide ExecuteAll, MayExecuteAll, Replaced, Detected;
    qs := [];
    NoStatements(s);
    DetectedNothing(s, best);
    ghost var done: set<Id> := {};
    var todo := best.Keys;
    while todo != {}
      invariant todo + done == best.Keys && todo !! done
      invariant MayExecuteAll(s, qs) && ExecuteAll(s, qs) == Detected(s, Part(best, done))
      decreases todo
    {
      var loser :| loser in todo;
      DetectedStep(s, best, done, loser);
      qs := Replace(s, qs, Detected(s, Part(best, done)), loser, best[loser].id);
      todo, done := todo - {loser}, done + {loser};
    }
    assert Part(best, done) == best;
  }

  lemma DetectedNothing(s: Store, best: map<Id, Doc>)
    ensures Detected(s, Part(best, {})) == s
  {
    assert Detected(s, Part(best, {})).documents == s.documents;
  }

  /** Record who was replaced, and cancel the losers that were never downloaded, in one transaction. */
  method Detect(host: Host, window: Window, text: Text) returns (best: map<Id, Doc>)
    requires host.Valid()
    modifies host
    ensures host.Valid() && old(host.log) <= host.log
    ensures exists docs :: Lists(old(host.store), InWindow(old(host.store), window), docs) && Exact(text, docs, best)
    ensures host.store == Detected(old(host.store), best)
  {
    hide Inv, Allowed, Replay, Exact, Lists, ExecuteAll, MayExecuteAll, Correlatable, Detected;
    var docs := Select(host.store, InWindow(host.store, window));
    ListsDistinct(host.store, InWindow(host.store, window), docs);
    best := Correlate.Correlate(text, docs);
    assert Lists(host.store, InWindow(host.store, window), docs) && Exact(text, docs, best);
    LosersAreRecordable(host.store, window, text, docs, best);
    var qs := Statements(host.store, best);
    if best != map[] {
      host.Perform(Commit(qs));
    } else {
      DetectedNothing(host.store, best);
      assert Part(best, {}) == best;
    }
  }

  lemma LosersAreRecordable(s: Store, window: Window, text: Text, docs: seq<Doc>, best: map<Id, Doc>)
    requires Lists(s, InWindow(s, window), docs) && Exact(text, docs, best)
    ensures Recordable(s, best)
  {
    hide Lists, Exact, ContainsText;
    forall loser | loser in best
      ensures && loser in s.documents && (Pending(s.documents[loser].state) || s.documents[loser].state == Available)
              && best[loser].id in s.documents && loser.version < best[loser].id.version
    {
      LoserFacts(s, window, text, docs, best, loser);
    }
  }

  lemma ListsDistinct(s: Store, ids: set<Id>, docs: seq<Doc>)
    requires Lists(s, ids, docs)
    ensures DistinctDocs(docs)
  {
  }

  lemma LoserFacts(s: Store, window: Window, text: Text, docs: seq<Doc>, best: map<Id, Doc>, loser: Id)
    requires Lists(s, InWindow(s, window), docs) && Exact(text, docs, best) && loser in best
    ensures loser in s.documents && Correlatable(s.documents[loser], window)
    ensures best[loser].id in s.documents && Correlatable(s.documents[best[loser].id], window)
    ensures loser.version < best[loser].id.version
  {
    hide Related;
    var d :| d in docs && d.id == loser;
    assert d.id in best;
  }

  // --------------------------------------------------------------------- sweep

  /** A loser whose recorded winner is itself available inside the window. */
  predicate Doomed(s: Store, window: Window, id: Id) {
    && id in s.documents && Correlatable(s.documents[id], window) && s.documents[id].state == Available
    && s.documents[id].supersededBy.Some?
    && var winner := s.documents[id].supersededBy.value;
       winner in s.documents && Correlatable(s.documents[winner], window) && s.documents[winner].state == Available
  }

  /** The files of `removed` are gone and their justification is on record; no row changed yet. */
  ghost predicate Unlinked(s: Store, t: Store, removed: set<Id>) {
    && t == s.(files := t.files, heirs := t.heirs)
    && removed <= s.documents.Keys
    && (forall id :: id in removed ==>
          (&& s.documents[id].path.Some? && s.documents[id].path.value !in t.files
           && s.documents[id].supersededBy.Some? && id in t.heirs && t.heirs[id] == s.documents[id].supersededBy.value))
    && (forall path :: path in t.files ==> path in s.files && t.files[path] == s.files[path])
    && (forall path :: path in s.files && path !in t.files ==>
          exists id :: id in removed && s.documents[id].path == Some(path))
    && (forall id :: id in s.heirs ==> id in t.heirs)
  }

  predicate Deletable(s: Store, doomed: set<Id>, stuck: Id -> bool, id: Id) {
    id in doomed && id in s.documents && s.documents[id].path.Some? && !stuck(id)
  }

  /** Try to delete each doomed file; one that cannot be deleted is left out of the answer. */
  method RemoveFiles(host: Host, doomed: set<Id>, window: Window, stuck: Id -> bool) returns (removed: set<Id>)
    requires host.Valid() && forall id :: id in doomed ==> Doomed(host.store, window, id)
    modifies host
    ensures host.Valid() && old(host.log) <= host.log
    ensures removed <= doomed && Unlinked(old(host.store), host.store, removed)
    ensures forall id :: Deletable(old(host.store), doomed, stuck, id) ==> id in removed
  {
    hide Inv, Allowed, Replay, Naming.IdentityOf, Correlatable;
    removed := {};
    ghost var before := host.store;
    var todo := doomed;
    while todo != {}
      invariant host.Valid() && old(host.log) <= host.log && todo <= doomed
      invariant removed <= doomed - todo && Unlinked(before, host.store, removed)
      invariant forall id :: Deletable(before, doomed - todo, stuck, id) ==> id in removed
      decreases todo
    {
      var id :| id in todo;
      assert Doomed(before, window, id);
      if host.store.documents[id].path.Some? && !stuck(id) {
        ghost var middle := host.store;
        host.Perform(Unlink(id));
        UnlinkedStep(before, middle, host.store, removed, id);
        removed := removed + {id};
      }
      todo := todo - {id};
    }
  }

  lemma UnlinkedStep(s: Store, t: Store, u: Store, removed: set<Id>, id: Id)
    requires Unlinked(s, t, removed) && id in s.documents
    requires s.documents[id].path.Some? && s.documents[id].supersededBy.Some?
    requires u == t.(files := t.files - {s.documents[id].path.value},
        heirs := t.heirs[id := s.documents[id].supersededBy.value])
    ensures Unlinked(s, u, removed + {id})
  {
    forall path | path in s.files && path !in u.files
      ensures exists other :: other in removed + {id} && s.documents[other].path == Some(path)
    {
      if path !in t.files {
        var other :| other in removed && s.documents[other].path == Some(path);
        assert other in removed + {id};
      } else {
        assert id in removed + {id} && s.documents[id].path == Some(path);
      }
    }
  }

  /** Mark the removed rows superseded, in one transaction. */
  method Consolidate(host: Host, ghost before: Store, removed: set<Id>)
    requires host.Valid() && Unlinked(before, host.store, removed)
    requires forall id :: id in removed ==> InState(before, id, Available)
    modifies host
    ensures host.Valid() && old(host.log) <= host.log
    ensures host.store == old(host.store).(documents := Consolidated(old(host.store).documents, removed))
  {
    hide Inv, Allowed, Replay, ExecuteAll, MayExecuteAll, Naming.IdentityOf;
    var now := host.store;
    var qs: seq<Sql> := [];
    NoStatements(now);
    var todo := removed;
    ghost var done: set<Id> := {};
    assert Consolidated(now.documents, {}) == now.documents;
    while todo != {}
      invariant todo + done == removed && todo !! done
      invariant host.store == now && host.Valid() && host.log == old(host.log)
      invariant MayExecuteAll(now, qs)
      invariant ExecuteAll(now, qs) == now.(documents := Consolidated(now.documents, done))
      decreases todo
    {
      var id :| id in todo;
      AppendStatement(now, qs, MarkRemoved(id));
      qs := qs + [MarkRemoved(id)];
      todo, done := todo - {id}, done + {id};
      assert ExecuteAll(now, qs).documents == Consolidated(now.documents, done);
    }
    assert done == removed;
    host.Perform(Commit(qs));
  }

  function Consolidated(documents: map<Id, Row>, removed: set<Id>): map<Id, Row> {
    map id | id in documents ::
      if id in removed then documents[id].(state := Superseded, path := None) else documents[id]
  }

  /** What one sweep does: `removed` is a subset of the doomed rows, all of it on record. */
  ghost predicate Swept(s: Store, t: Store, window: Window, removed: set<Id>) {
    && (forall id :: id in removed ==> Doomed(s, window, id))
    && t.documents == Consolidated(s.documents, removed)
    && Unlinked(s, t.(documents := s.documents), removed)
  }

  /** Every doomed row whose file the disk gives up. */
  ghost predicate AllDeletableIn(s: Store, window: Window, stuck: Id -> bool, removed: set<Id>) {
    forall id :: Doomed(s, window, id) && s.documents[id].path.Some? && !stuck(id) ==> id in removed
  }

  method Sweep(host: Host, window: Window, stuck: Id -> bool) returns (removed: set<Id>)
    requires host.Valid()
    modifies host
    ensures host.Valid() && old(host.log) <= host.log
    ensures Swept(old(host.store), host.store, window, removed)
    ensures AllDeletableIn(old(host.store), window, stuck, removed)
  {
    hide Inv, Allowed, Replay, Naming.IdentityOf, Unlinked, Correlatable;
    ghost var before := host.store;
    var doomed := set id | id in host.store.documents && Doomed(host.store, window, id);
    removed := RemoveFiles(host, doomed, window, stuck);
    UnlinkedKeepsRows(before, host.store, removed);
    Consolidate(host, before, removed);
  }

  lemma UnlinkedKeepsRows(s: Store, t: Store, removed: set<Id>)
    requires Unlinked(s, t, removed)
    ensures t.documents == s.documents && t.(documents := s.documents) == t
  {
  }

  /** Every in-window available row has its file. */
  ghost predicate AllReadable(s: Store, window: Window) {
    forall id :: InState(s, id, Available) && Correlatable(s.documents[id], window) ==> OnDisk(s, id)
  }

  /** `chain` follows `superseded_by` through rows this sweep removed, to strictly later versions. */
  ghost predicate Replacements(s: Store, removed: set<Id>, chain: seq<Id>) {
    && chain != []
    && forall i :: 0 <= i < |chain| - 1 ==>
         chain[i] in removed && chain[i] in s.documents && s.documents[chain[i]].supersededBy == Some(chain[i + 1])
         && chain[i].version < chain[i + 1].version
  }

  /** A row this sweep did not remove keeps its file: nobody else's name decodes to it. */
  lemma UnremovedStaysReadable(accepts: Bytes -> bool, s: Store, t: Store, window: Window, removed: set<Id>, id: Id)
    requires Inv(accepts, s) && Swept(s, t, window, removed) && id !in removed
    requires InState(s, id, Available) && OnDisk(s, id)
    ensures Readable(t, id)
  {
    hide FilesOwned, Kept, HeirsSound, LandedSound, PurgedSound, MarksSound, AttemptsSound, WatermarksSound,
         Correlatable;
    var path := s.documents[id].path.value;
    assert Names(path, id, s.documents[id].delivery);
    forall other | other in removed ensures s.documents[other].path != Some(path) {
      assert s.documents[other].path.Some? ==> Names(s.documents[other].path.value, other, s.documents[other].delivery);
    }
  }

  lemma {:induction false} FollowReplacements(accepts: Bytes -> bool, s: Store, t: Store, window: Window,
                                              removed: set<Id>, id: Id, bound: int)
    returns (chain: seq<Id>)
    requires Inv(accepts, s) && Swept(s, t, window, removed) && AllReadable(s, window)
    requires InState(s, id, Available) && Correlatable(s.documents[id], window)
    requires forall other :: other in removed ==> other.version <= bound
    ensures Replacements(s, removed, chain) && chain[0] == id
    ensures Readable(t, chain[|chain| - 1]) && chain[|chain| - 1] !in removed
    decreases id in removed, bound - id.version
  {
    hide Inv, Correlatable, AllReadable, OnDisk;
    if id in removed {
      var winner := s.documents[id].supersededBy.value;
      MarkIsLater(accepts, s, id);
      var rest := FollowReplacements(accepts, s, t, window, removed, winner, bound);
      chain := [id] + rest;
    } else {
      IsReadable(s, window, id);
      UnremovedStaysReadable(accepts, s, t, window, removed, id);
      chain := [id];
    }
  }

  lemma IsReadable(s: Store, window: Window, id: Id)
    requires AllReadable(s, window) && InState(s, id, Available) && Correlatable(s.documents[id], window)
    ensures OnDisk(s, id)
  {
  }

  lemma MarkIsLater(accepts: Bytes -> bool, s: Store, id: Id)
    requires Inv(accepts, s) && id in s.documents && s.documents[id].supersededBy.Some?
    ensures id.version < s.documents[id].supersededBy.value.version
  {
    hide FilesOwned, PathsNamed, Kept, HeirsSound, LandedSound, PurgedSound, AttemptsSound, WatermarksSound;
  }

  /**
   Deletion leaves a survivor. If every available row of the window had its file when
   the sweep began, then from each row it deleted, following `superseded_by` through
   strictly later versions reaches an available row whose file is still there -- even
   when winners were doomed in the same batch, or some files could not be deleted.
   */
  lemma DeletionLeavesASurvivor(accepts: Bytes -> bool, s: Store, t: Store, window: Window, removed: set<Id>, id: Id)
    returns (chain: seq<Id>)
    requires Inv(accepts, s) && Swept(s, t, window, removed) && AllReadable(s, window) && id in removed
    ensures Replacements(s, removed, chain) && chain[0] == id && |chain| > 1
    ensures Readable(t, chain[|chain| - 1]) && id.version < chain[|chain| - 1].version
  {
    hide Inv, Correlatable, AllReadable, OnDisk;
    var bound := VersionBound(removed);
    assert Doomed(s, window, id);
    chain := FollowReplacements(accepts, s, t, window, removed, id, bound);
    ChainRises(s, removed, chain);
  }

  lemma {:induction false} ChainRises(s: Store, removed: set<Id>, chain: seq<Id>)
    requires Replacements(s, removed, chain) && |chain| > 1
    ensures chain[0].version < chain[|chain| - 1].version
  {
    if |chain| > 2 {
      ChainRises(s, removed, chain[1..]);
    }
  }
}
