/** Discovery: one query per entity, persisted in one transaction with its watermark. */
module Discover {
  import opened Base
  import opened Clock
  import opened Listing
  import opened Archive
  import opened Safety
  import opened Traces
  import opened Hosts
  import opened Newest
  import opened Moving
  import opened Supersede

  /**
   Everything outside the process, as functions of time: the listing of each fund type,
   the date a malformed row is listed under, which entity each row belongs to (the
   listing itself never says), what a query for an entity and a window asked at one
   instant is served at another, which requests fail, and when the operator asks to stop.
   */
  datatype World = World(
    feeds: int -> Feed,
    malformed: string -> int,
    owner: DocumentRow -> int,
    serve: (int, int, Window, nat, nat) -> seq<Raw>,
    fails: nat -> bool,
    stop: nat -> bool)

  /** The listing of a fund type, as a query for `window` sees it. */
  function Listed(w: World, fundType: int, window: Window): Feed {
    Windowed(w.feeds(fundType), window, w.malformed)
  }

  /** One entity's rows in the window, held still from `asked` on but in any order. */
  function Served(w: World, fundType: int, entity: int, window: Window, asked: nat): nat -> seq<Raw> {
    (t: nat) => w.serve(fundType, entity, window, asked, t)
  }

  /**
   The source is honest: listings evolve at their newest end, and while one entity is
   being scanned its rows are a fixed set that contains what the listing shows of it in
   the window asked for.
   */
  ghost predicate Honest(w: World, bound: nat) {
    && (forall fundType :: Lives(w.feeds(fundType)))
    && (forall fundType, entity, window, asked: nat, t: nat ::
          multiset(w.serve(fundType, entity, window, asked, t))
            == multiset(w.serve(fundType, entity, window, asked, asked)))
    && (forall fundType, entity, window, asked: nat, t: nat :: |w.serve(fundType, entity, window, asked, t)| <= bound)
    && (forall fundType, entity, window: Window, asked: nat, row ::
          Good(row) in w.feeds(fundType).listing(asked) && w.owner(row) == entity && window.Contains(DayOf(row.at)) ==>
          Good(row) in w.serve(fundType, entity, window, asked, asked))
  }

  // ----------------------------------------------------------- persisting a scan

  function Learned(documents: map<Id, Row>, rows: map<Id, DocumentRow>, entity: int): map<Id, Row> {
    map id | id in documents.Keys + rows.Keys ::
      if id !in rows then documents[id]
      else if id in documents then Rediscovered(documents[id], rows[id])
      else Archive.Fresh(rows[id], entity)
  }

  function Part(rows: map<Id, DocumentRow>, ids: set<Id>): map<Id, DocumentRow> {
    map id | id in ids && id in rows :: rows[id]
  }

  /** The upserts of one transaction, in any order. */
  method UpsertAll(s: Store, rows: map<Id, DocumentRow>, entity: int) returns (qs: seq<Sql>)
    requires forall id :: id in rows ==> rows[id].id == id
    ensures MayExecuteAll(s, qs)
    ensures ExecuteAll(s, qs) == s.(documents := Learned(s.documents, rows, entity))
  {
    hide ExecuteAll, MayExecuteAll;
    qs := [];
    NoStatements(s);
    var todo := rows.Keys;
    ghost var done: set<Id> := {};
    assert Learned(s.documents, Part(rows, {}), entity) == s.documents;
    while todo != {}
      invariant todo + done == rows.Keys && todo !! done
      invariant MayExecuteAll(s, qs)
      invariant ExecuteAll(s, qs) == s.(documents := Learned(s.documents, Part(rows, done), entity))
      decreases todo
    {
      var id :| id in todo;
      ghost var before := Part(rows, done);
      AppendStatement(s, qs, Upsert(rows[id], entity));
      LearnOne(s, before, rows[id], entity);
      qs := qs + [Upsert(rows[id], entity)];
      todo, done := todo - {id}, done + {id};
      assert Part(rows, done) == before[id := rows[id]];
    }
    assert Part(rows, done) == rows;
  }

  lemma LearnOne(s: Store, rows: map<Id, DocumentRow>, row: DocumentRow, entity: int)
    requires row.id !in rows
    ensures Execute(s.(documents := Learned(s.documents, rows, entity)), Upsert(row, entity))
            == s.(documents := Learned(s.documents, rows[row.id := row], entity))
  {
    var t := s.(documents := Learned(s.documents, rows, entity));
    assert Execute(t, Upsert(row, entity)).documents == Learned(s.documents, rows[row.id := row], entity);
  }

  /** What a discovery may do to the manifest: learn rows, write sync state, record watermarks. */
  ghost predicate OnlyLearns(s: Store, t: Store) {
    && t == s.(documents := t.documents, sync := t.sync, watermarks := t.watermarks)
    && s.documents.Keys <= t.documents.Keys
    && s.watermarks <= t.watermarks
    && NoneNewlyPurged(s, t)
  }

  /**
   What a query leaves in the sync table: an incomplete one marks its entity failing, a
   complete one that reached the retention frontier clears that, and a narrower complete
   one changes nothing; no other entity's entry is touched.
   */
  ghost predicate Noted(s: Store, t: Store, entity: int, complete: bool, reached: bool) {
    && (forall other :: other in s.sync && other != entity ==> other in t.sync && t.sync[other] == s.sync[other])
    && (forall other :: other in t.sync && other != entity ==> other in s.sync)
    && (if complete && !reached then t.sync == s.sync else entity in t.sync && t.sync[entity].failing == !complete)
    && (!complete ==> WindowOf(t, entity) == WindowOf(s, entity))
  }

  /** Whatever is new in `t` was served to some query for this window. */
  ghost predicate LearnsFrom(w: World, window: Window, s: Store, t: Store) {
    forall id :: id in t.documents && id !in s.documents ==> WasServed(w, window, id)
  }

  ghost predicate WasServed(w: World, window: Window, id: Id) {
    exists fundType, entity, asked: nat, row: DocumentRow ::
      Good(row) in w.serve(fundType, entity, window, asked, asked) && row.id == id
  }

  /** Everything a completed entity scan has established. */
  ghost predicate Covers(w: World, fundType: int, entity: int, window: Window, asked: nat, s: Store) {
    forall row :: Good(row) in w.serve(fundType, entity, window, asked, asked) ==> row.id in s.documents
  }

  /** From `asked` on, one entity is served in one order, and no two of its rows share a key. */
  ghost predicate SteadyServe(w: World, fundType: int, entity: int, window: Window, asked: nat) {
    && (forall t: nat :: asked <= t ==>
          w.serve(fundType, entity, window, asked, t) == w.serve(fundType, entity, window, asked, asked))
    && |Keys(w.serve(fundType, entity, window, asked, asked))| == |w.serve(fundType, entity, window, asked, asked)|
  }

  /**
   Scan one entity and persist what it found: the rows and, if the scan proved
   complete and reached the retention frontier, the watermark -- in one transaction,
   after all requests. A failed scan changes nothing.
   */
  method DiscoverEntity(host: Host, w: World, ghost bound: nat, fundType: int, entity: int, window: Window,
                        frontier: int, length: nat, now: nat)
    returns (raised: bool, result: ScanResult, began: nat, later: nat)
    requires host.Valid() && Honest(w, bound) && length >= 1
    modifies host
    ensures host.Valid() && old(host.log) <= host.log && |host.log| <= |old(host.log)| + 1
    ensures now < later && OnlyLearns(old(host.store), host.store)
    ensures raised ==> host.store == old(host.store) && w.fails(later - 1)
    ensures !raised ==>
      (&& now <= began && later == began + result.pages
       && ScanOutcome(Served(w, fundType, entity, window, now), began, length, result)
       && host.store.documents == Learned(old(host.store).documents, result.harvest.rows, entity))
    ensures !raised && result.Complete() && window.first <= frontier ==>
      host.store.watermarks
      == old(host.store).watermarks + [Mark(entity, Witness(fundType, window, frontier, length, now, began, result))]
    ensures raised || !result.Complete() || window.first > frontier
        ==> host.store.watermarks == old(host.store).watermarks
    ensures !raised ==> Noted(old(host.store), host.store, entity, result.Complete(), window.first <= frontier)
  {
    hide Inv, Allowed, Replay, ExecuteAll, MayExecuteAll, ScanOutcome, Learned, Lives, HeldAsServed,
         ScanResult.Complete;
    raised, result, began, later := Scan(Served(w, fundType, entity, window, now), w.fails, now, length, bound);
    if raised {
      return;
    }
    var rows := result.harvest.rows;
    ScannedRows(w, bound, fundType, entity, window, now, began, length, result);
    HeldIds(rows, w.serve(fundType, entity, window, now, now));
    var qs := UpsertAll(host.store, rows, entity);
    LearnedRows(host.store.documents, rows, entity);
    if result.Complete() && window.first <= frontier {
      var mark := AdvanceWatermark(entity, Witness(fundType, window, frontier, length, now, began, result));
      AppendStatement(host.store, qs, mark);
      qs := qs + [mark];
    } else if !result.Complete() {
      AppendStatement(host.store, qs, RecordError(entity));
      qs := qs + [RecordError(entity)];
    }
    host.Perform(Commit(qs));
  }

  lemma HeldIds(rows: map<Id, DocumentRow>, raws: seq<Raw>)
    requires HeldAsServed(rows, raws)
    ensures forall id :: id in rows ==> rows[id].id == id
  {
  }

  lemma LearnedRows(documents: map<Id, Row>, rows: map<Id, DocumentRow>, entity: int)
    ensures forall id :: id in Learned(documents, rows, entity) <==> id in documents || id in rows
    ensures forall id :: id in Learned(documents, rows, entity) && Learned(documents, rows, entity)[id].purged ==>
      id in documents && documents[id].purged
  {
  }

  /** What the harvest of a scan is, and what completeness adds, for a set of rows held still. */
  lemma ScannedRows(w: World, bound: nat, fundType: int, entity: int, window: Window, now: nat, began: nat, length: nat,
                    result: ScanResult)
    requires Honest(w, bound) && now <= began
    requires ScanOutcome(Served(w, fundType, entity, window, now), began, length, result)
    ensures HeldAsServed(result.harvest.rows, w.serve(fundType, entity, window, now, now))
    ensures result.Complete() ==>
      forall row :: Good(row) in w.serve(fundType, entity, window, now, now) ==> row.id in result.harvest.rows
    ensures SteadyServe(w, fundType, entity, window, now) ==> result.Complete()
  {
    hide Lives, ScanOutcome, HeldAsServed, Keys, ScanResult.Complete;
    var listing, rows := Served(w, fundType, entity, window, now), w.serve(fundType, entity, window, now, now);
    assert Shuffled(listing, began, began + result.pages, rows);
    HeldRowsAreListed(listing, began, length, result, rows);
    if SteadyServe(w, fundType, entity, window, now) {
      SteadyScanCompletes(listing, began, length, result, rows);
    }
    if result.Complete() {
      CompleteHoldsEveryRow(listing, began, length, result, rows);
    }
  }

  // ------------------------------------------------------------------- watermarks

  /**
   The watermark was earned: by a complete pass of the query for exactly this entity and
   window, which reached the retention frontier of its run, all it yielded in the manifest.
   */
  ghost predicate EarnedMark(w: World, s: Store, mark: Mark) {
    var e := mark.evidence;
    && e.asked <= e.began
    && ScanOutcome(Served(w, e.fundType, mark.entity, e.window, e.asked), e.began, e.length, e.result)
    && e.result.Complete() && e.window.first <= e.frontier
    && forall id :: id in e.result.harvest.rows ==> id in s.documents
  }

  /** Every watermark ever recorded was. */
  ghost predicate Earned(w: World, s: Store) {
    forall k :: 0 <= k < |s.watermarks| ==> EarnedMark(w, s, s.watermarks[k])
  }

  lemma StillEarned(w: World, s: Store, t: Store)
    requires Earned(w, s) && t.watermarks == s.watermarks && s.documents.Keys <= t.documents.Keys
    ensures Earned(w, t)
  {
    hide ScanOutcome, ScanResult.Complete;
    forall k | 0 <= k < |t.watermarks| ensures EarnedMark(w, t, t.watermarks[k]) {
      assert EarnedMark(w, s, s.watermarks[k]);
    }
  }

  lemma OneMoreEarned(w: World, s: Store, t: Store, mark: Mark)
    requires Earned(w, s) && t.watermarks == s.watermarks + [mark] && s.documents.Keys <= t.documents.Keys
    requires EarnedMark(w, t, mark)
    ensures Earned(w, t)
  {
    hide ScanOutcome, ScanResult.Complete;
    forall k | 0 <= k < |t.watermarks| ensures EarnedMark(w, t, t.watermarks[k]) {
      if k < |s.watermarks| {
        assert EarnedMark(w, s, s.watermarks[k]);
      }
    }
  }

  /** A query leaves every watermark earned, teaches only what it was served, and covers the entity if complete. */
  lemma QueryEarns(w: World, bound: nat, s: Store, t: Store, fundType: int, entity: int, window: Window, frontier: int,
                   length: nat, now: nat, began: nat, result: ScanResult)
    requires Honest(w, bound) && Earned(w, s) && now <= began && OnlyLearns(s, t)
    requires ScanOutcome(Served(w, fundType, entity, window, now), began, length, result)
    requires t.documents == Learned(s.documents, result.harvest.rows, entity)
    requires t.watermarks == s.watermarks + if result.Complete() && window.first <= frontier
      then [Mark(entity, Witness(fundType, window, frontier, length, now, began, result))] else []
    ensures Earned(w, t) && LearnsFrom(w, window, s, t)
    ensures result.Complete() ==> Covers(w, fundType, entity, window, now, t)
    ensures SteadyServe(w, fundType, entity, window, now) ==> result.Complete()
  {
    hide Honest, ScanOutcome, ScanResult.Complete, Learned, Earned, SteadyServe, EarnedMark;
    ScannedRows(w, bound, fundType, entity, window, now, began, length, result);
    LearnedRows(s.documents, result.harvest.rows, entity);
    if result.Complete() && window.first <= frontier {
      var mark := Mark(entity, Witness(fundType, window, frontier, length, now, began, result));
      IsEarned(w, t, mark);
      OneMoreEarned(w, s, t, mark);
    } else {
      assert t.watermarks == s.watermarks;
      StillEarned(w, s, t);
    }
    forall id | id in t.documents && id !in s.documents ensures WasServed(w, window, id) {
      var row := result.harvest.rows[id];
      assert row.id == id && Good(row) in w.serve(fundType, entity, window, now, now);
    }
  }

  lemma IsEarned(w: World, s: Store, mark: Mark)
    requires var e := mark.evidence;
             && e.asked <= e.began
             && ScanOutcome(Served(w, e.fundType, mark.entity, e.window, e.asked), e.began, e.length, e.result)
             && e.result.Complete() && e.window.first <= e.frontier
             && forall id :: id in e.result.harvest.rows ==> id in s.documents
    ensures EarnedMark(w, s, mark)
  {
  }

  /** The listing shows the row, as this entity's and inside the window. */
  predicate ShownFor(w: World, fundType: int, entity: int, window: Window, t: nat, row: DocumentRow) {
    Good(row) in w.feeds(fundType).listing(t) && w.owner(row) == entity && window.Contains(DayOf(row.at))
  }

  /**
   Watermark honesty: a recorded `last_window_end` is the last day of a complete scan
   whose window reached that run's retention frontier, and everything the source then
   listed of the entity inside that window is in the manifest.
   */
  lemma WatermarkIsEarned(accepts: Bytes -> bool, w: World, bound: nat, s: Store, entity: int)
    requires Inv(accepts, s) && Honest(w, bound) && Earned(w, s) && WindowOf(s, entity).Some?
    ensures var e := WindowOf(s, entity).value;
            && e.window.first <= e.frontier && e.result.Complete()
            && ScanOutcome(Served(w, e.fundType, entity, e.window, e.asked), e.began, e.length, e.result)
            && Covers(w, e.fundType, entity, e.window, e.asked, s)
            && forall row :: ShownFor(w, e.fundType, entity, e.window, e.asked, row) ==> row.id in s.documents
  {
    hide PathsNamed, FilesOwned, Kept, HeirsSound, LandedSound, PurgedSound, MarksSound, AttemptsSound;
    hide ScanOutcome, ScanResult.Complete, Lives, HeldAsServed, Keys;
    assert WindowOf(s, entity) == LastMark(s.watermarks, entity);
    var k := LastMarkIsRecorded(s.watermarks, entity);
    assert EarnedMark(w, s, s.watermarks[k]);
    var e := WindowOf(s, entity).value;
    ScannedRows(w, bound, e.fundType, entity, e.window, e.asked, e.began, e.length, e.result);
  }

  lemma {:induction false} LastMarkIsRecorded(watermarks: seq<Mark>, entity: int) returns (k: nat)
    requires LastMark(watermarks, entity).Some?
    ensures k < |watermarks| && watermarks[k] == Mark(entity, LastMark(watermarks, entity).value)
  {
    var last := watermarks[|watermarks| - 1];
    if last.entity == entity {
      k := |watermarks| - 1;
    } else {
      k := LastMarkIsRecorded(watermarks[..|watermarks| - 1], entity);
    }
  }
}
