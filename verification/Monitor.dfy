/**
 The monitor's cursor protocol.

 One newest-first read per fund type gates which entities are queried; the cursor
 moves only after a complete read and only if every query it gated was complete.
 The cursor is a promise: every watched row below it is in the manifest.
 */
module Monitor {
  import opened Base
  import opened Clock
  import opened Listing
  import opened Archive
  import opened Safety
  import opened Traces
  import opened Hosts
  import opened Newest
  import opened Moving
  import opened Supersede
  import opened Discover
  import opened Ownership
  import opened Watchlist

  const GATE_PAGE_LENGTH := 200

  /** The watch list of one run, as the gate sees it. */
  datatype Watch = Watch(fold: string -> string, owners: seq<Owner>)

  /** `o` is queried under this fund type and answers to the row's folded name. */
  predicate Hits(watch: Watch, fundType: int, row: DocumentRow, o: Owner) {
    o in watch.owners && o.entity.fundType == fundType && AnswersTo(watch.fold, o, watch.fold(row.description))
  }

  /** The row's folded name is one its own entity answers to, within its fund type. */
  ghost predicate Matches(w: World, watch: Watch, fundType: int, row: DocumentRow) {
    exists o :: Hits(watch, fundType, row, o) && o.entity.fundosnetId == w.owner(row)
  }

  /** The promise of one cursor at time `t`, about rows delivered on `first` or later. */
  ghost predicate Promised(w: World, watch: Watch, fundType: int, first: int, t: nat, documents: set<Id>, cursor: int) {
    && cursor <= w.feeds(fundType).high(t)
    && forall row :: Due(w, watch, fundType, first, t, cursor, row) ==> row.id in documents
  }

  /** A well-formed row still listed, recent enough, before the cursor, whose name matches its owning entity. */
  ghost predicate Due(w: World, watch: Watch, fundType: int, first: int, t: nat, cursor: int, row: DocumentRow) {
    && Good(row) in w.feeds(fundType).listing(t) && first <= DayOf(row.at) && row.at < cursor
    && Matches(w, watch, fundType, row)
  }

  /** Monitor safety at time `t`: what each cursor promises is in the manifest. */
  ghost predicate Safe(w: World, watch: Watch, first: int, t: nat, s: Store) {
    forall fundType :: fundType in s.cursors ==>
      Promised(w, watch, fundType, first, t, s.documents.Keys, s.cursors[fundType])
  }

  /**
   What a run vows, at each of its points: the promises to a watch list about rows
   delivered since `first`; that every watermark was earned; and, if the run is narrow,
   that it records none beyond those it found.
   */
  datatype Vow = Vow(watch: Watch, first: int, narrow: bool, found: seq<Mark>)

  /** The promises hold from the instant the store itself records, hence from any later one. */
  ghost predicate Holds(w: World, vow: Vow, s: Store) {
    && Safe(w, vow.watch, vow.first, s.clock, s)
    && Earned(w, s)
    && (vow.narrow ==> s.watermarks == vow.found)
  }

  /** Time passing and rows being learned never break a promise. */
  lemma PromisedLater(w: World, watch: Watch, fundType: int, first: int, t: nat, later: nat,
                      documents: set<Id>, more: set<Id>, cursor: int)
    requires Lives(w.feeds(fundType)) && t <= later && documents <= more
    requires Promised(w, watch, fundType, first, t, documents, cursor)
    ensures Promised(w, watch, fundType, first, later, more, cursor)
  {
    hide Matches, Lives;
    var f := w.feeds(fundType);
    HighGrows(f, t, later);
    forall row | Due(w, watch, fundType, first, later, cursor, row) ensures row.id in more {
      ListedSince(f, row, t, later);
      assert Good(row) in f.listing(t);
      assert Due(w, watch, fundType, first, t, cursor, row);
    }
  }

  lemma SafeLater(w: World, watch: Watch, first: int, bound: nat, t: nat, later: nat, s: Store, u: Store)
    requires Honest(w, bound) && t <= later && Safe(w, watch, first, t, s)
    requires u.cursors == s.cursors && s.documents.Keys <= u.documents.Keys
    ensures Safe(w, watch, first, later, u)
  {
    hide Promised, Lives;
    forall fundType | fundType in u.cursors
      ensures Promised(w, watch, fundType, first, later, u.documents.Keys, u.cursors[fundType])
    {
      assert Lives(w.feeds(fundType));
      PromisedLater(w, watch, fundType, first, t, later, s.documents.Keys, u.documents.Keys, s.cursors[fundType]);
    }
  }

  /** The vow holds at every point, from `from` on, at which the process might have died. */
  ghost predicate Throughout(w: World, vow: Vow, base: Store, log: seq<Effect>, from: nat) {
    forall k :: from <= k <= |log| ==> Holds(w, vow, Replay(base, log[..k]))
  }

  /** At most one more effect, and the vow holds after it. */
  lemma ThroughoutStep(w: World, vow: Vow, base: Store, log: seq<Effect>, more: seq<Effect>, from: nat)
    requires Throughout(w, vow, base, log, from)
    requires log <= more && |more| <= |log| + 1
    requires Holds(w, vow, Replay(base, more))
    ensures Throughout(w, vow, base, more, from)
  {
    hide Holds, Replay;
    forall k | from <= k <= |more| ensures Holds(w, vow, Replay(base, more[..k])) {
      if k <= |log| {
        assert more[..k] == log[..k];
      } else {
        assert more[..k] == more;
      }
    }
  }

  // ------------------------------------------------------------------ the gate

  /** Rows above the cursor, and rows at it that the manifest does not know. */
  predicate IsCandidate(cursor: Option<int>, known: set<Id>, row: DocumentRow) {
    cursor.None? || row.at > cursor.value || (row.at == cursor.value && row.id !in known)
  }

  method Candidates(rows: seq<DocumentRow>, cursor: Option<int>, known: set<Id>) returns (candidates: seq<DocumentRow>)
    ensures forall row :: row in candidates <==> row in rows && IsCandidate(cursor, known, row)
  {
    candidates := [];
    for k := 0 to |rows|
      invariant forall row :: row in candidates <==> row in rows[..k] && IsCandidate(cursor, known, row)
    {
      assert rows[..k + 1] == rows[..k] + [rows[k]];
      if IsCandidate(cursor, known, rows[k]) {
        candidates := candidates + [rows[k]];
      }
    }
    assert rows[..|rows|] == rows;
  }

  /** Every owner answering to a candidate's name, queried once however often it is hit. */
  method Gate(watch: Watch, index: map<int, Names>, fundType: int, candidates: seq<DocumentRow>)
    returns (gated: set<int>)
    requires Answers(watch.fold, watch.owners, index)
    ensures forall row, o :: row in candidates && Hits(watch, fundType, row, o) ==> o.entity.fundosnetId in gated
    ensures forall id :: id in gated ==> exists o ::
        o in watch.owners && o.entity.fundType == fundType && o.entity.fundosnetId == id
  {
    hide At, AnswersTo, NoRepeats;
    gated := {};
    for k := 0 to |candidates|
      invariant forall j, o :: 0 <= j < k && Hits(watch, fundType, candidates[j], o) ==> o.entity.fundosnetId in gated
      invariant forall id :: id in gated ==> exists o ::
          o in watch.owners && o.entity.fundType == fundType && o.entity.fundosnetId == id
    {
      var hits := At(index, fundType, watch.fold(candidates[k].description));
      var ids := set o | o in hits :: o.entity.fundosnetId;
      gated := gated + ids;
    }
  }

  // ------------------------------------------------- what lets the cursor advance

  /** Every gated entity was completely scanned for the window, at or after `readEnd`. */
  ghost predicate AllScanned(w: World, fundType: int, window: Window, gated: set<int>, begun: map<int, nat>,
                             readEnd: nat, t: nat, s: Store) {
    forall id :: id in gated ==>
      id in begun && readEnd <= begun[id] <= t && Covers(w, fundType, id, window, begun[id], s)
  }

  /** Every watched candidate of the read has its owner among the gated entities. */
  ghost predicate AllGated(w: World, watch: Watch, fundType: int, r: NewestRead, cursor: Option<int>, known: set<Id>,
                           gated: set<int>) {
    forall row :: row in r.rows && IsCandidate(cursor, known, row) && Matches(w, watch, fundType, row) ==>
      w.owner(row) in gated
  }

  /** A complete newest-first read of what one window shows of one fund type. */
  ghost predicate ReadCompletely(w: World, fundType: int, window: Window, now: nat, cursor: Option<int>,
                                 r: NewestRead) {
    CompleteRead(Listed(w, fundType, window).listing, now, GATE_PAGE_LENGTH, cursor, r)
  }

  lemma ListedLives(w: World, bound: nat, fundType: int, window: Window)
    requires Honest(w, bound)
    ensures Lives(Listed(w, fundType, window))
  {
    hide Lives;
    assert Lives(w.feeds(fundType));
    WindowedLives(w.feeds(fundType), window, w.malformed);
  }

  /** The newest instant reported is of a row inside the window. */
  lemma NewestIsInside(w: World, fundType: int, window: Window, now: nat, cursor: Option<int>, r: NewestRead,
                       row: DocumentRow)
    requires ReadCompletely(w, fundType, window, now, cursor, r) && r.newest.Some? && row.at <= r.newest.value
    ensures DayOf(row.at) <= window.last
  {
    hide Orderly, Ended, Steady, AtOrAbove, Those;
    var f := Listed(w, fundType, window);
    var top := Heard(f.listing, now, GATE_PAGE_LENGTH, r.pages)[0];
    var p, k := HeardSource(f.listing, now, GATE_PAGE_LENGTH, r.pages, top);
    assert Good(top) in f.listing(now + p);
    WindowedShows(w.feeds(fundType), window, w.malformed, now + p, Good(top));
    assert DayOf(row.at) <= DayOf(top.at);
  }

  /**
   What entitles the cursor to move: after a complete read of a window that starts no
   later than `first`, with every query it gated complete, all that the new cursor
   promises about rows since `first` is in the manifest.
   */
  lemma MayAdvance(w: World, watch: Watch, first: int, bound: nat, fundType: int, window: Window, cursor: Option<int>,
                   r: NewestRead, now: nat, t: nat, known: set<Id>, gated: set<int>, begun: map<int, nat>, s: Store)
    requires Honest(w, bound) && ReadCompletely(w, fundType, window, now, cursor, r) && window.first <= first
    requires r.newest.Some? && now + r.pages <= t && known <= s.documents.Keys
    requires AllGated(w, watch, fundType, r, cursor, known, gated)
    requires AllScanned(w, fundType, window, gated, begun, now + r.pages, t, s)
    requires cursor.Some? ==> Promised(w, watch, fundType, first, t, s.documents.Keys, cursor.value)
    ensures Promised(w, watch, fundType, first, t, s.documents.Keys, r.newest.value)
  {
    hide Matches, CompleteRead, Covers, Lives, Windowed;
    var f := Listed(w, fundType, window);
    ListedLives(w, bound, fundType, window);
    NewestIsListed(f, now, GATE_PAGE_LENGTH, cursor, r, t);
    SameHigh(w, fundType, window, t);
    forall row | Due(w, watch, fundType, first, t, r.newest.value, row) ensures row.id in s.documents {
      if Below(row, cursor) {
        assert Due(w, watch, fundType, first, t, cursor.value, row);
      } else {
        NewestIsInside(w, fundType, window, now, cursor, r, row);
        WindowedShows(w.feeds(fundType), window, w.malformed, t, Good(row));
        BelowNewestIsCollected(f, now, GATE_PAGE_LENGTH, cursor, r, row, t);
        if IsCandidate(cursor, known, row) {
          var owner := w.owner(row);
          assert owner in gated && owner in begun;
          CandidateIsLearned(w, bound, fundType, window, row, begun[owner], now, r, cursor, t, s);
        }
      }
    }
  }

  lemma SameHigh(w: World, fundType: int, window: Window, t: nat)
    ensures Listed(w, fundType, window).high(t) == w.feeds(fundType).high(t)
  {
  }

  /** A collected row below `newest` was still listed when its owner was scanned, so the scan learned it. */
  lemma CandidateIsLearned(w: World, bound: nat, fundType: int, window: Window, row: DocumentRow, began: nat, now: nat,
                           r: NewestRead, cursor: Option<int>, t: nat, s: Store)
    requires Honest(w, bound) && ReadCompletely(w, fundType, window, now, cursor, r)
    requires r.newest.Some? && row.at < r.newest.value && Good(row) in Listed(w, fundType, window).listing(t)
    requires now + r.pages <= began <= t && Covers(w, fundType, w.owner(row), window, began, s)
    ensures row.id in s.documents
  {
    hide CompleteRead, Lives, Windowed;
    var f := Listed(w, fundType, window);
    ListedLives(w, bound, fundType, window);
    NewestIsListed(f, now, GATE_PAGE_LENGTH, cursor, r, began);
    ListedSince(f, row, began, t);
    assert Good(row) in f.listing(began);
    WindowedShows(w.feeds(fundType), window, w.malformed, began, Good(row));
  }

  /** The next complete read offers every unknown row at or above the cursor that its window goes on showing. */
  lemma UnknownRowIsCandidateNextTime(w: World, bound: nat, fundType: int, window: Window, cursor: int, r: NewestRead,
                                      now: nat, known: set<Id>, row: DocumentRow)
    requires Honest(w, bound) && ReadCompletely(w, fundType, window, now, Some(cursor), r)
    requires Persists(Listed(w, fundType, window), Good(row), now, now + r.pages - 1)
    requires row.at >= cursor && row.id !in known
    ensures row in r.rows && IsCandidate(Some(cursor), known, row)
  {
    hide CompleteRead, Lives, Windowed;
    ListedLives(w, bound, fundType, window);
    CompleteReadCoversPersisting(Listed(w, fundType, window), now, GATE_PAGE_LENGTH, Some(cursor), r, row);
  }

  /** And a row below the cursor is never a candidate again, whatever the window. */
  lemma RowBelowTheCursorIsNeverCandidate(w: World, fundType: int, window: Window, cursor: int, r: NewestRead, now: nat,
                                          row: DocumentRow)
    requires ReadCompletely(w, fundType, window, now, Some(cursor), r) && row.at < cursor
    ensures row !in r.rows
  {
    hide Orderly, Ended, Steady, Windowed, Heard;
    AtOrAboveMember(Some(cursor), Heard(Listed(w, fundType, window).listing, now, GATE_PAGE_LENGTH, r.pages), row);
  }

  // -------------------------------------------------------------- a calm source

  /** From `now` on nothing fails, nobody stops the run, and what the window shows of this type stands still. */
  ghost predicate Calm(w: World, fundType: int, window: Window, now: nat) {
    && (forall t: nat :: now <= t ==> !w.fails(t) && !w.stop(t))
    && (forall t: nat :: now <= t ==>
          Listed(w, fundType, window).listing(t) == Listed(w, fundType, window).listing(now))
    && DistinctIds(Goods(Listed(w, fundType, window).listing(now)))
    && (forall entity, asked: nat :: now <= asked ==> SteadyServe(w, fundType, entity, window, asked))
  }

  lemma CalmLater(w: World, fundType: int, window: Window, now: nat, later: nat)
    requires Calm(w, fundType, window, now) && now <= later
    ensures Calm(w, fundType, window, later)
  {
    hide SteadyServe, DistinctIds, Goods, Windowed;
    assert Listed(w, fundType, window).listing(later) == Listed(w, fundType, window).listing(now);
  }

  lemma {:induction false} CalmHeard(listing: nat -> seq<Raw>, now: nat, length: nat, pages: nat, rows: seq<Raw>)
    requires forall t: nat :: now <= t < now + pages ==> listing(t) == rows
    ensures Heard(listing, now, length, pages) == Goods(rows[..Min(Offset(pages, length), |rows|)])
  {
    hide Goods, Slice, Heard, Offset;
    if pages == 0 {
      NothingHeard(listing, now, length, rows);
    } else {
      CalmHeard(listing, now, length, pages - 1, rows);
      NextPageHeard(listing, now, length, pages - 1);
      assert listing(now + pages - 1) == rows;
      NextSlice(rows, Offset(pages - 1, length), length);
    }
  }

  lemma NothingHeard(listing: nat -> seq<Raw>, now: nat, length: nat, rows: seq<Raw>)
    ensures Heard(listing, now, length, 0) == Goods(rows[..Min(Offset(0, length), |rows|)])
  {
    assert rows[..0] == [];
  }

  lemma NextPageHeard(listing: nat -> seq<Raw>, now: nat, length: nat, pages: nat)
    ensures Heard(listing, now, length, pages + 1)
            == Heard(listing, now, length, pages)
               + Goods(Slice(listing(now + pages), Offset(pages, length), length))
    ensures Offset(pages + 1, length) == Offset(pages, length) + length
  {
  }

  /** What one more page adds to what was heard of a fixed listing. */
  lemma NextSlice(rows: seq<Raw>, start: nat, length: nat)
    ensures Goods(rows[..Min(start + length, |rows|)])
        == Goods(rows[..Min(start, |rows|)]) + Goods(Slice(rows, start, length))
  {
    hide Goods;
    var from, to := Min(start, |rows|), Min(start + length, |rows|);
    GoodsConcat(rows[..from], rows[from..to]);
    assert rows[..from] + rows[from..to] == rows[..to];
  }

  lemma {:induction false} SortedGoods(rows: seq<Raw>)
    requires Sorted(rows)
    ensures Descending(Goods(rows))
  {
    if rows != [] {
      var init, last := rows[..|rows| - 1], rows[|rows| - 1];
      SortedGoods(init);
      if last.Good? {
        forall k | 0 <= k < |Goods(init)| ensures Goods(init)[k].at >= last.row.at {
          GoodsMember(init, Goods(init)[k]);
          var i :| 0 <= i < |init| && init[i] == Good(Goods(init)[k]);
          assert rows[i] == init[i];
        }
      }
    }
  }

  lemma OrderlyPrefix(rows: seq<Raw>, k: nat)
    requires k <= |rows| && Orderly(Goods(rows))
    ensures Orderly(Goods(rows[..k]))
  {
    GoodsConcat(rows[..k], rows[k..]);
    assert rows[..k] + rows[k..] == rows;
    var a, b := Goods(rows[..k]), Goods(rows);
    assert forall i :: 0 <= i < |a| ==> a[i] == b[i];
  }

  /** A read of a listing that stands still meets no violation. */
  lemma CalmReadIsOrderly(w: World, bound: nat, fundType: int, window: Window, now: nat, pages: nat)
    requires Honest(w, bound) && Calm(w, fundType, window, now)
    ensures Orderly(Heard(Listed(w, fundType, window).listing, now, GATE_PAGE_LENGTH, pages))
  {
    hide SteadyServe, Windowed;
    ListedLives(w, bound, fundType, window);
    var rows := Listed(w, fundType, window).listing(now);
    CalmHeard(Listed(w, fundType, window).listing, now, GATE_PAGE_LENGTH, pages, rows);
    SortedGoods(rows);
    OrderlyPrefix(rows, Min(Offset(pages, GATE_PAGE_LENGTH), |rows|));
  }

  /** After a calm, complete read no listed row is above the cursor it leads to. */
  lemma NothingAbove(w: World, bound: nat, fundType: int, window: Window, cursor: Option<int>, r: NewestRead, now: nat,
                     row: DocumentRow)
    requires Honest(w, bound) && Calm(w, fundType, window, now)
    requires ReadCompletely(w, fundType, window, now, cursor, r)
    requires Good(row) in Listed(w, fundType, window).listing(now)
    ensures (cursor.Some? && row.at < cursor.value) || (r.newest.Some? && row.at <= r.newest.value)
  {
    hide SteadyServe, Lives, Windowed;
    var f := Listed(w, fundType, window);
    if !Below(row, cursor) {
      ListedLives(w, bound, fundType, window);
      CompleteReadCoversPersisting(f, now, GATE_PAGE_LENGTH, cursor, r, row);
      var heard := Heard(f.listing, now, GATE_PAGE_LENGTH, r.pages);
      AtOrAboveMember(cursor, heard, row);
      var k :| 0 <= k < |heard| && heard[k] == row;
    }
  }

  // ------------------------------------------------------------- such worlds exist

  /** A source that never changes, never fails, and serves every entity all that is in the window. */
  function StillWorld(rows: int -> seq<Raw>, high: int -> int, malformed: string -> int,
                      owner: DocumentRow -> int): World {
    World(
      fundType => Feed((t: nat) => rows(fundType), (t: nat) => [], (t: nat) => {}, (t: nat) => high(fundType)),
      malformed,
      owner,
      (fundType, entity, window: Window, asked: nat, t: nat) =>
        Those(rows(fundType), (raw: Raw) => Asked(window, malformed, raw)),
      (t: nat) => false,
      (t: nat) => false)
  }

  /** The assumptions about the source can be met, by any sorted listing at all. */
  lemma StillWorldIsHonest(rows: int -> seq<Raw>, high: int -> int, malformed: string -> int, owner: DocumentRow -> int,
                           bound: nat)
    requires forall fundType :: Sorted(rows(fundType)) && |rows(fundType)| <= bound
    requires forall fundType, raw :: raw in rows(fundType) && raw.Good? ==> raw.row.at <= high(fundType)
    ensures Honest(StillWorld(rows, high, malformed, owner), bound)
  {
    hide Those, Lives, Sorted, Windowed;
    var w := StillWorld(rows, high, malformed, owner);
    forall fundType ensures Lives(w.feeds(fundType)) {
      StillFeedLives(rows(fundType), high(fundType));
    }
    forall fundType, entity, window: Window, asked: nat, t: nat
      ensures |w.serve(fundType, entity, window, asked, t)| <= bound
    {
      ThoseAreFewer(rows(fundType), (raw: Raw) => Asked(window, malformed, raw));
    }
    forall fundType, entity, window: Window, asked: nat, row
      | Good(row) in w.feeds(fundType).listing(asked) && w.owner(row) == entity && window.Contains(DayOf(row.at))
      ensures Good(row) in w.serve(fundType, entity, window, asked, asked)
    {
      ThoseMember(rows(fundType), (raw: Raw) => Asked(window, malformed, raw), Good(row));
    }
  }

  lemma {:induction false} ThoseAreFewer(rows: seq<Raw>, p: Raw -> bool)
    ensures |Those(rows, p)| <= |rows|
  {
    if rows != [] {
      ThoseAreFewer(rows[..|rows| - 1], p);
    }
  }

  lemma StillFeedLives(rows: seq<Raw>, high: int)
    requires Sorted(rows) && forall raw :: raw in rows && raw.Good? ==> raw.row.at <= high
    ensures Lives(Feed((t: nat) => rows, (t: nat) => [], (t: nat) => {}, (t: nat) => high))
  {
    hide Sorted;
    NothingGone(rows);
    assert [] + rows == rows;
  }

  lemma {:induction false} NothingGone(rows: seq<Raw>)
    ensures Without(rows, {}) == rows
  {
    if rows != [] {
      NothingGone(rows[..|rows| - 1]);
    }
  }

  // ---------------------------------------------------------------- the firing

  /**
   Between two points of a firing rows of the window are learned, sync state changes,
   time passes, and cursors stand still; a narrow firing records no watermark.
   */
  ghost predicate Quiet(w: World, window: Window, s: Store, t: Store, narrow: bool) {
    && t == s.(documents := t.documents, sync := t.sync, clock := t.clock, watermarks := t.watermarks)
    && s.clock <= t.clock && s.documents.Keys <= t.documents.Keys
    && NoneNewlyPurged(s, t) && LearnsFrom(w, window, s, t)
    && (narrow ==> t.watermarks == s.watermarks)
  }

  lemma QuietTransitive(w: World, window: Window, s: Store, t: Store, u: Store, narrow: bool)
    requires Quiet(w, window, s, t, narrow) && Quiet(w, window, t, u, narrow)
    ensures Quiet(w, window, s, u, narrow)
  {
    hide WasServed;
  }

  lemma QuietSelf(w: World, window: Window, s: Store, narrow: bool)
    ensures Quiet(w, window, s, s, narrow)
  {
  }

  /** It is `t`, and the vow has held at every point since `from`. */
  ghost predicate Watching(w: World, vow: Vow, t: nat, host: Host, from: nat)
    reads host
  {
    && host.Valid() && from <= |host.log| && host.store.clock == t
    && Holds(w, vow, host.store) && Throughout(w, vow, host.base, host.log, from)
  }

  /** A quiet effect keeps the vow at every crash point. */
  lemma Advanced(w: World, vow: Vow, bound: nat, window: Window, base: Store, s: Store, log: seq<Effect>,
                 t: Store, more: seq<Effect>, from: nat, narrow: bool)
    requires Honest(w, bound) && from <= |log| && (vow.narrow ==> narrow)
    requires s == Replay(base, log) && t == Replay(base, more) && log <= more && |more| <= |log| + 1
    requires Holds(w, vow, s) && Throughout(w, vow, base, log, from)
    requires Quiet(w, window, s, t, narrow) && Earned(w, t)
    ensures Holds(w, vow, t) && Throughout(w, vow, base, more, from)
  {
    hide Safe, Throughout, Replay, Honest, Earned, LearnsFrom, NoneNewlyPurged;
    SafeLater(w, vow.watch, vow.first, bound, s.clock, t.clock, s, t);
    ThroughoutStep(w, vow, base, log, more, from);
  }

  /** Let time pass. */
  method Wait(host: Host, w: World, ghost vow: Vow, ghost bound: nat, ghost window: Window, ghost now: nat, later: nat,
              ghost from: nat, ghost narrow: bool)
    requires Honest(w, bound) && Watching(w, vow, now, host, from) && now <= later && (vow.narrow ==> narrow)
    modifies host
    ensures Watching(w, vow, later, host, from) && old(host.log) <= host.log
    ensures host.store == old(host.store).(clock := later) && Quiet(w, window, old(host.store), host.store, narrow)
  {
    hide Inv, Allowed, Replay, Safe, Throughout, Honest, Earned;
    ghost var s, log := host.store, host.log;
    host.Perform(Tick(later));
    StillEarned(w, s, host.store);
    Advanced(w, vow, bound, window, host.base, s, log, host.store, host.log, from, narrow);
  }

  /** Note a failed query. */
  method NoteError(host: Host, w: World, ghost vow: Vow, ghost bound: nat, ghost window: Window, entity: int,
                   ghost now: nat, ghost from: nat, ghost narrow: bool)
    requires Honest(w, bound) && Watching(w, vow, now, host, from) && (vow.narrow ==> narrow)
    modifies host
    ensures Watching(w, vow, now, host, from) && old(host.log) <= host.log
    ensures host.store == Execute(old(host.store), RecordError(entity))
    ensures Quiet(w, window, old(host.store), host.store, narrow)
  {
    hide Inv, Allowed, Replay, Safe, Throughout, Honest, Earned;
    ghost var s, log := host.store, host.log;
    host.Issue(RecordError(entity));
    StillEarned(w, s, host.store);
    Advanced(w, vow, bound, window, host.base, s, log, host.store, host.log, from, narrow);
  }

  /** One entity query of a firing, its failure recorded. */
  method QueryOne(host: Host, w: World, ghost vow: Vow, ghost bound: nat, fundType: int, entity: int, window: Window,
                  frontier: int, length: nat, now: nat, ghost from: nat)
    returns (complete: bool, later: nat)
    requires Honest(w, bound) && length >= 1 && Watching(w, vow, now, host, from)
    requires vow.narrow ==> window.first > frontier
    modifies host
    ensures Watching(w, vow, later, host, from) && old(host.log) <= host.log && now < later
    ensures Quiet(w, window, old(host.store), host.store, window.first > frontier)
    ensures complete ==> Covers(w, fundType, entity, window, now, host.store)
    ensures Noted(old(host.store), host.store, entity, complete, window.first <= frontier)
    ensures Calm(w, fundType, window, now) ==> complete
  {
    hide Inv, Allowed, Replay, Holds, Throughout, Honest, Covers, Quiet, SteadyServe, DistinctIds, Goods, Windowed,
      Noted, ScanOutcome, ScanResult.Complete, Learned, Earned;
    ghost var narrow, s0, log0 := window.first > frontier, host.store, host.log;
    var raised, result, began;
    raised, result, began, later := DiscoverEntity(host, w, bound, fundType, entity, window, frontier, length, now);
    complete := !raised && result.Complete();
    ghost var s1 := host.store;
    HoldsEarned(w, vow, s0);
    if raised {
      QuietSelf(w, window, s0, narrow);
      Advanced(w, vow, bound, window, host.base, s0, log0, s1, host.log, from, narrow);
      NoteError(host, w, vow, bound, window, entity, now, from, narrow);
      ErrorIsNoted(s0, host.store, entity, window.first <= frontier);
    } else {
      QueryEarns(w, bound, s0, s1, fundType, entity, window, frontier, length, now, began, result);
      LearningIsQuiet(w, window, s0, s1, narrow);
      Advanced(w, vow, bound, window, host.base, s0, log0, s1, host.log, from, narrow);
      QuietSelf(w, window, s1, narrow);
    }
    ghost var s2 := host.store;
    QuietTransitive(w, window, s0, s1, s2, narrow);
    Wait(host, w, vow, bound, window, now, later, from, narrow);
    QuietTransitive(w, window, s0, s2, host.store, narrow);
    CoversAreRows(w, fundType, entity, window, now, s2, host.store);
    SameSync(s0, s2, host.store, entity, complete, window.first <= frontier);
  }

  lemma ErrorIsNoted(s: Store, t: Store, entity: int, reached: bool)
    requires t == Execute(s, RecordError(entity))
    ensures Noted(s, t, entity, false, reached)
  {
  }

  lemma SameSync(s: Store, t: Store, u: Store, entity: int, complete: bool, reached: bool)
    requires Noted(s, t, entity, complete, reached) && u.sync == t.sync
    ensures Noted(s, u, entity, complete, reached)
  {
  }

  lemma HoldsEarned(w: World, vow: Vow, s: Store)
    requires Holds(w, vow, s)
    ensures Earned(w, s)
  {
  }

  lemma LearningIsQuiet(w: World, window: Window, s: Store, t: Store, narrow: bool)
    requires OnlyLearns(s, t) && LearnsFrom(w, window, s, t) && (narrow ==> t.watermarks == s.watermarks)
    ensures Quiet(w, window, s, t, narrow)
  {
  }

  lemma CoversAreRows(w: World, fundType: int, entity: int, window: Window, asked: nat, s: Store, t: Store)
    requires s.documents.Keys <= t.documents.Keys
    ensures Covers(w, fundType, entity, window, asked, s) ==> Covers(w, fundType, entity, window, asked, t)
  {
  }

  /** Query every gated entity, unless told to stop. */
  method QueryGated(host: Host, w: World, ghost vow: Vow, ghost bound: nat, fundType: int, gated: set<int>,
                    window: Window, frontier: int, length: nat, now: nat, ghost from: nat)
    returns (stopped: bool, allComplete: bool, ghost begun: map<int, nat>, later: nat)
    requires Honest(w, bound) && length >= 1 && Watching(w, vow, now, host, from)
    requires vow.narrow ==> window.first > frontier
    modifies host
    ensures Watching(w, vow, later, host, from) && old(host.log) <= host.log && now <= later
    ensures Quiet(w, window, old(host.store), host.store, window.first > frontier)
    ensures !stopped && allComplete ==> AllScanned(w, fundType, window, gated, begun, now, later, host.store)
    ensures Calm(w, fundType, window, now) ==> !stopped && allComplete
  {
    hide Inv, Allowed, Replay, Honest, Covers, Quiet, Watching, SteadyServe, DistinctIds, Goods, Windowed;
    stopped, allComplete, begun, later := false, true, map[], now;
    ghost var before := host.store;
    var todo := gated;
    QuietSelf(w, window, before, window.first > frontier);
    while todo != {}
      invariant todo <= gated && now <= later && old(host.log) <= host.log
      invariant Watching(w, vow, later, host, from)
      invariant Quiet(w, window, before, host.store, window.first > frontier)
      invariant allComplete ==> AllScanned(w, fundType, window, gated - todo, begun, now, later, host.store)
      invariant Calm(w, fundType, window, now) ==> allComplete && Calm(w, fundType, window, later)
      decreases todo
    {
      if w.stop(later) {
        stopped := true;
        return;
      }
      var entity := Pick(todo);
      ghost var middle, start := host.store, later;
      var complete;
      complete, later := QueryOne(host, w, vow, bound, fundType, entity, window, frontier, length, later, from);
      QuietTransitive(w, window, before, middle, host.store, window.first > frontier);
      if Calm(w, fundType, window, now) {
        CalmLater(w, fundType, window, now, later);
      }
      if allComplete {
        ScannedMore(w, fundType, window, gated - todo, begun, now, start, later, middle, host.store, entity, complete,
                    window.first > frontier);
      }
      allComplete := allComplete && complete;
      begun := begun[entity := start];
      todo := todo - {entity};
      assert allComplete ==> gated - todo == gated - (todo + {entity}) + {entity};
    }
    assert gated - {} == gated;
  }

  lemma ScannedMore(w: World, fundType: int, window: Window, done: set<int>, begun: map<int, nat>, readEnd: nat,
                    start: nat, later: nat, s: Store, t: Store, entity: int, complete: bool, narrow: bool)
    requires AllScanned(w, fundType, window, done, begun, readEnd, start, s) && Quiet(w, window, s, t, narrow)
    requires readEnd <= start <= later && entity !in done
    requires complete ==> Covers(w, fundType, entity, window, start, t)
    ensures complete ==> AllScanned(w, fundType, window, done + {entity}, begun[entity := start], readEnd, later, t)
  {
    forall id | id in done ensures Covers(w, fundType, id, window, begun[id], t) {
      assert Covers(w, fundType, id, window, begun[id], s);
    }
  }

  /** One fund type of one firing. */
  method MonitorType(host: Host, w: World, ghost vow: Vow, watch: Watch, ghost bound: nat, index: map<int, Names>,
                     fundType: int, window: Window, frontier: int, length: nat, now: nat, ghost from: nat)
    returns (stopped: bool, later: nat)
    requires Honest(w, bound) && length >= 1 && Watching(w, vow, now, host, from)
    requires watch == vow.watch && Answers(watch.fold, watch.owners, index)
    requires window.first <= vow.first && (vow.narrow ==> window.first > frontier)
    modifies host
    ensures Watching(w, vow, later, host, from) && old(host.log) <= host.log && now <= later
    ensures Quiet(w, window, old(host.store), host.store.(cursors := old(host.store).cursors), window.first > frontier)
    ensures OneCursor(old(host.store), host.store, fundType)
    ensures Calm(w, fundType, window, now) ==> !stopped && CaughtUp(w, vow, fundType, window, now, host.store)
  {
    hide Inv, Allowed, Replay, Holds, Throughout, Honest, Covers, Quiet, CompleteRead, Answers, AllGated, AllScanned,
         Calm, CaughtUp, Windowed, Orderly;
    stopped := false;
    ghost var before, narrow := host.store, window.first > frontier;
    QuietSelf(w, window, before, narrow);
    var cursor := if fundType in host.store.cursors then Some(host.store.cursors[fundType]) else None;
    var raised, r;
    raised, r, later := ScanNewest(Listed(w, fundType, window).listing, w.fails, now, GATE_PAGE_LENGTH, cursor);
    Wait(host, w, vow, bound, window, now, later, from, narrow);
    ghost var read := host.store;
    CalmOutcome(w, bound, fundType, window, cursor, raised, r, now, later);
    if raised || !r.complete {
      return;
    }
    var known := host.store.documents.Keys;
    var candidates := Candidates(r.rows, cursor, known);
    var gated := Gate(watch, index, fundType, candidates);
    GateIsComplete(w, watch, fundType, r, cursor, known, candidates, gated);
    ghost var readEnd := later;
    var allComplete;
    ghost var begun;
    stopped, allComplete, begun, later :=
      QueryGated(host, w, vow, bound, fundType, gated, window, frontier, length, later, from);
    QuietTransitive(w, window, before, read, host.store, narrow);
    QuietKeepsKeys(w, window, read, host.store, narrow);
    QuietKeepsKeys(w, window, before, host.store, narrow);
    if Calm(w, fundType, window, now) {
      SafeCursor(w, vow, fundType, later, host.store, cursor);
      CalmKnows(w, vow, bound, fundType, window, cursor, r, now, later, known, gated, begun, host.store);
      CalmCatchesUp(w, vow, bound, fundType, window, cursor, r, now, host.store);
    }
    if stopped || !allComplete || r.newest.None? {
      return;
    }
    AdvanceSafely(host, w, vow, bound, fundType, window, cursor, r, now, later, known, gated, begun, from);
  }

  /** The window shows the row, it was delivered since `vow.first`, and its name matches its owner. */
  ghost predicate Watched(w: World, vow: Vow, fundType: int, window: Window, t: nat, row: DocumentRow) {
    && Good(row) in Listed(w, fundType, window).listing(t) && vow.first <= DayOf(row.at)
    && Matches(w, vow.watch, fundType, row)
  }

  /**
   Nothing is left for the next firing: no row the window shows is above the cursor, and
   every watched one delivered since `vow.first` is known.
   */
  ghost predicate CaughtUp(w: World, vow: Vow, fundType: int, window: Window, now: nat, s: Store) {
    forall row :: Good(row) in Listed(w, fundType, window).listing(now) ==>
      && fundType in s.cursors && row.at <= s.cursors[fundType]
      && (Watched(w, vow, fundType, window, now, row) ==> row.id in s.documents)
  }

  /** Only one type's cursor moved. */
  ghost predicate OneCursor(s: Store, t: Store, fundType: int) {
    forall k :: k != fundType ==>
      (k in t.cursors <==> k in s.cursors) && (k in s.cursors ==> t.cursors[k] == s.cursors[k])
  }

  lemma SafeCursor(w: World, vow: Vow, fundType: int, t: nat, s: Store, cursor: Option<int>)
    requires Holds(w, vow, s) && s.clock == t
    requires cursor == if fundType in s.cursors then Some(s.cursors[fundType]) else None
    ensures cursor.Some? ==> Promised(w, vow.watch, fundType, vow.first, t, s.documents.Keys, cursor.value)
  {
    hide Promised, Earned;
  }

  lemma CalmOutcome(w: World, bound: nat, fundType: int, window: Window, cursor: Option<int>, raised: bool,
                    r: NewestRead, now: nat, later: nat)
    requires Honest(w, bound) && now < later
    requires raised ==> w.fails(later - 1)
    requires !raised ==>
      later == now + r.pages && Newest.Outcome(Listed(w, fundType, window).listing, now, GATE_PAGE_LENGTH, cursor, r)
    ensures Calm(w, fundType, window, now) ==> !raised && r.complete && Calm(w, fundType, window, later)
  {
    hide SteadyServe, DistinctIds, Goods, Lives, Orderly, Windowed, CompleteRead;
    if Calm(w, fundType, window, now) {
      CalmLater(w, fundType, window, now, later);
      CalmReadIsOrderly(w, bound, fundType, window, now, r.pages);
    }
  }

  /** A calm firing learns every watched row its window shows: below, at and above the old cursor. */
  lemma CalmKnows(w: World, vow: Vow, bound: nat, fundType: int, window: Window, cursor: Option<int>, r: NewestRead,
                  now: nat, t: nat, known: set<Id>, gated: set<int>, begun: map<int, nat>, s: Store)
    requires Honest(w, bound) && Calm(w, fundType, window, now) && ReadCompletely(w, fundType, window, now, cursor, r)
    requires now + r.pages <= t && known <= s.documents.Keys
    requires AllGated(w, vow.watch, fundType, r, cursor, known, gated)
    requires AllScanned(w, fundType, window, gated, begun, now + r.pages, t, s)
    requires cursor.Some? ==> Promised(w, vow.watch, fundType, vow.first, t, s.documents.Keys, cursor.value)
    ensures forall row :: Watched(w, vow, fundType, window, now, row) ==> row.id in s.documents
  {
    hide Matches, CompleteRead, Covers, Lives, SteadyServe, DistinctIds, Goods, Windowed;
    var f := Listed(w, fundType, window);
    ListedLives(w, bound, fundType, window);
    assert f.listing(t) == f.listing(now);
    forall row | Watched(w, vow, fundType, window, now, row) ensures row.id in s.documents {
      if Below(row, cursor) {
        WindowedShows(w.feeds(fundType), window, w.malformed, t, Good(row));
        assert Due(w, vow.watch, fundType, vow.first, t, cursor.value, row);
      } else {
        CompleteReadCoversPersisting(f, now, GATE_PAGE_LENGTH, cursor, r, row);
        if IsCandidate(cursor, known, row) {
          var owner := w.owner(row);
          assert owner in gated && owner in begun;
          ServedWhenScanned(w, bound, fundType, window, now, row, begun[owner], s);
        }
      }
    }
  }

  lemma ServedWhenScanned(w: World, bound: nat, fundType: int, window: Window, now: nat, row: DocumentRow, began: nat,
                          s: Store)
    requires Honest(w, bound) && Calm(w, fundType, window, now) && now <= began
    requires Good(row) in Listed(w, fundType, window).listing(now)
    requires Covers(w, fundType, w.owner(row), window, began, s)
    ensures row.id in s.documents
  {
    hide Lives, SteadyServe, DistinctIds, Goods, Windowed;
    assert Listed(w, fundType, window).listing(began) == Listed(w, fundType, window).listing(now);
    WindowedShows(w.feeds(fundType), window, w.malformed, began, Good(row));
  }

  lemma CalmCatchesUp(w: World, vow: Vow, bound: nat, fundType: int, window: Window, cursor: Option<int>, r: NewestRead,
                      now: nat, s: Store)
    requires Honest(w, bound) && Calm(w, fundType, window, now) && ReadCompletely(w, fundType, window, now, cursor, r)
    requires cursor == if fundType in s.cursors then Some(s.cursors[fundType]) else None
    requires forall row :: Watched(w, vow, fundType, window, now, row) ==> row.id in s.documents
    ensures r.newest.None? ==> CaughtUp(w, vow, fundType, window, now, s)
    ensures r.newest.Some? ==>
      CaughtUp(w, vow, fundType, window, now, Execute(s, AdvanceCursor(fundType, r.newest.value)))
  {
    hide Calm, CompleteRead, Lives, Matches, Windowed;
    forall row | Good(row) in Listed(w, fundType, window).listing(now)
      ensures (cursor.Some? && row.at < cursor.value) || (r.newest.Some? && row.at <= r.newest.value)
    {
      NothingAbove(w, bound, fundType, window, cursor, r, now, row);
    }
  }

  lemma QuietKeepsKeys(w: World, window: Window, s: Store, t: Store, narrow: bool)
    requires Quiet(w, window, s, t, narrow)
    ensures s.documents.Keys <= t.documents.Keys && t.cursors == s.cursors && t.(cursors := s.cursors) == t
  {
  }

  lemma GateIsComplete(w: World, watch: Watch, fundType: int, r: NewestRead, cursor: Option<int>, known: set<Id>,
                       candidates: seq<DocumentRow>, gated: set<int>)
    requires forall row :: row in candidates <==> row in r.rows && IsCandidate(cursor, known, row)
    requires forall row, o :: row in candidates && Hits(watch, fundType, row, o) ==> o.entity.fundosnetId in gated
    ensures AllGated(w, watch, fundType, r, cursor, known, gated)
  {
  }

  /** The one write of a cursor, and why it is a promise already kept. */
  method AdvanceSafely(host: Host, w: World, ghost vow: Vow, ghost bound: nat, fundType: int, ghost window: Window,
                       ghost cursor: Option<int>, r: NewestRead, ghost now: nat, ghost t: nat, ghost known: set<Id>,
                       ghost gated: set<int>, ghost begun: map<int, nat>, ghost from: nat)
    requires Honest(w, bound) && Watching(w, vow, t, host, from) && window.first <= vow.first
    requires cursor == if fundType in host.store.cursors then Some(host.store.cursors[fundType]) else None
    requires ReadCompletely(w, fundType, window, now, cursor, r) && r.newest.Some? && now + r.pages <= t
    requires known <= host.store.documents.Keys
    requires AllGated(w, vow.watch, fundType, r, cursor, known, gated)
    requires AllScanned(w, fundType, window, gated, begun, now + r.pages, t, host.store)
    modifies host
    ensures Watching(w, vow, t, host, from) && old(host.log) <= host.log
    ensures host.store == Execute(old(host.store), AdvanceCursor(fundType, r.newest.value))
  {
    hide Inv, Allowed, Replay, Honest, Throughout, CompleteRead, AllGated, AllScanned, Promised, Earned, Windowed;
    ghost var s, log := host.store, host.log;
    host.Issue(AdvanceCursor(fundType, r.newest.value));
    MayAdvance(w, vow.watch, vow.first, bound, fundType, window, cursor, r, now, t, known, gated, begun, s);
    forall other | other in host.store.cursors
      ensures Promised(w, vow.watch, other, vow.first, t, host.store.documents.Keys, host.store.cursors[other])
    {
      if other != fundType {
        assert other in s.cursors;
      }
    }
    StillEarned(w, s, host.store);
    ThroughoutStep(w, vow, host.base, log, host.log, from);
  }

  /**
   One monitor firing. Whatever aborts, fails, comes back short, stops early or dies, the
   vow holds at the end and at every crash point on the way: the cursors' promises, that
   every watermark was earned, and that a narrow firing records none. Undisturbed, every
   type catches up.
   */
  method RunMonitor(host: Host, w: World, ghost vow: Vow, ghost bound: nat, fold: string -> string, scopes: seq<Scope>,
                    window: Window, frontier: int, length: nat, now: nat)
    returns (later: nat)
    requires host.Valid() && Honest(w, bound) && length >= 1
    requires vow.watch == Watch(fold, Owners(scopes)) && window.first <= vow.first
    requires host.store.clock <= now && Holds(w, vow, host.store) && (vow.narrow ==> window.first > frontier)
    modifies host
    ensures now <= later && old(host.log) <= host.log
    ensures Watching(w, vow, later, host, |old(host.log)|)
    ensures Quiet(w, window, old(host.store), host.store.(cursors := old(host.store).cursors), window.first > frontier)
    ensures (forall fundType :: Calm(w, fundType, window, now)) ==>
      forall o :: o in Owners(scopes) ==> CaughtUp(w, vow, o.entity.fundType, window, now, host.store)
  {
    hide Inv, Allowed, Replay, Holds, Honest, Quiet, Answers, Watching, Calm, CaughtUp, OneCursor, Owners;
    var watch := Watch(fold, Owners(scopes));
    var index := MonitoredNames(fold, scopes);
    later := now;
    ghost var before, from, narrow := host.store, |host.log|, window.first > frontier;
    StartWatching(host, w, vow, bound, window, now, narrow);
    QuietModuloSame(w, window, before, host.store, narrow);
    var todo := index.Keys;
    while todo != {} && !w.stop(later)
      invariant now <= later && old(host.log) <= host.log
      invariant Watching(w, vow, later, host, from)
      invariant Quiet(w, window, before, host.store.(cursors := before.cursors), narrow)
      invariant todo <= index.Keys
      invariant (forall fundType :: Calm(w, fundType, window, now)) ==>
        forall fundType :: fundType in index.Keys - todo ==> CaughtUp(w, vow, fundType, window, now, host.store)
      decreases todo
    {
      var fundType := Pick(todo);
      ghost var middle, start := host.store, later;
      var stopped;
      stopped, later :=
        MonitorType(host, w, vow, watch, bound, index, fundType, window, frontier, length, later, from);
      QuietModuloCursors(w, window, before, middle, host.store, narrow);
      if forall any :: Calm(w, any, window, now) {
        CalmLater(w, fundType, window, now, start);
        CaughtUpMore(w, vow, index.Keys - todo, fundType, window, now, start, middle, host.store, narrow);
      }
      if stopped {
        return;
      }
      todo := todo - {fundType};
    }
    TypesAreIndexed(fold, Owners(scopes), index);
    if todo != {} {
      NobodyStopsACalmRun(w, window, now, later);
    }
  }

  lemma TypesAreIndexed(fold: string -> string, owners: seq<Owner>, index: map<int, Names>)
    requires Answers(fold, owners, index)
    ensures forall o :: o in owners ==> o.entity.fundType in index
  {
    hide CellsRight, CellsUnique;
  }

  /** What other types have caught up with stays caught up while one more does. */
  lemma CaughtUpMore(w: World, vow: Vow, done: set<int>, fundType: int, window: Window, now: nat, start: nat,
                     s: Store, t: Store, narrow: bool)
    requires now <= start && fundType !in done && Calm(w, fundType, window, now)
    requires forall other :: other in done ==> CaughtUp(w, vow, other, window, now, s)
    requires Quiet(w, window, s, t.(cursors := s.cursors), narrow) && OneCursor(s, t, fundType)
    ensures forall other :: other in done ==> CaughtUp(w, vow, other, window, now, t)
    ensures CaughtUp(w, vow, fundType, window, start, t) ==> CaughtUp(w, vow, fundType, window, now, t)
  {
    hide Matches, SteadyServe, DistinctIds, Goods, Windowed;
    assert Listed(w, fundType, window).listing(start) == Listed(w, fundType, window).listing(now);
    forall other | other in done ensures CaughtUp(w, vow, other, window, now, t) {
      assert CaughtUp(w, vow, other, window, now, s);
    }
  }

  /** A stage starts: note the time. */
  method StartWatching(host: Host, w: World, ghost vow: Vow, ghost bound: nat, ghost window: Window, now: nat,
                       ghost narrow: bool)
    requires Honest(w, bound) && host.Valid() && host.store.clock <= now && Holds(w, vow, host.store)
    requires vow.narrow ==> narrow
    modifies host
    ensures Watching(w, vow, now, host, |old(host.log)|) && old(host.log) <= host.log
    ensures host.store == old(host.store).(clock := now) && Quiet(w, window, old(host.store), host.store, narrow)
  {
    hide Holds, Inv, Allowed, Replay, Honest;
    assert host.log[..|host.log|] == host.log;
    Wait(host, w, vow, bound, window, host.store.clock, now, |host.log|, narrow);
  }

  lemma QuietModuloSame(w: World, window: Window, s: Store, t: Store, narrow: bool)
    requires Quiet(w, window, s, t, narrow)
    ensures Quiet(w, window, s, t.(cursors := s.cursors), narrow)
  {
    QuietKeepsKeys(w, window, s, t, narrow);
  }

  lemma QuietModuloCursors(w: World, window: Window, s: Store, t: Store, u: Store, narrow: bool)
    requires Quiet(w, window, s, t.(cursors := s.cursors), narrow)
    requires Quiet(w, window, t, u.(cursors := t.cursors), narrow)
    ensures Quiet(w, window, s, u.(cursors := s.cursors), narrow)
  {
    hide WasServed;
  }

  // ------------------------------------------------------------------ the sweep

  /**
   The sweep: every entity of every scope, unconditionally. It shares the query and
   its failure handling with the monitor and never touches a cursor, so it keeps the
   vow too; and, undisturbed, it covers every configured entity.
   */
  method RunSweep(host: Host, w: World, ghost vow: Vow, ghost bound: nat, scopes: seq<Scope>, window: Window,
                  frontier: int, length: nat, now: nat)
    returns (later: nat)
    requires host.Valid() && Honest(w, bound) && length >= 1
    requires host.store.clock <= now && Holds(w, vow, host.store) && (vow.narrow ==> window.first > frontier)
    modifies host
    ensures now <= later && old(host.log) <= host.log
    ensures Watching(w, vow, later, host, |old(host.log)|)
    ensures Quiet(w, window, old(host.store), host.store, window.first > frontier)
    ensures (forall fundType :: Calm(w, fundType, window, now)) ==>
      AllCovered(w, Owners(scopes), window, now, later, host.store)
  {
    hide Inv, Allowed, Replay, Holds, Throughout, Honest, Quiet, Watching, Covers, Calm, Owners;
    var owners := Owners(scopes);
    later := now;
    ghost var before, from, narrow := host.store, |host.log|, window.first > frontier;
    StartWatching(host, w, vow, bound, window, now, narrow);
    for k := 0 to |owners|
      invariant now <= later && old(host.log) <= host.log
      invariant Watching(w, vow, later, host, from)
      invariant Quiet(w, window, before, host.store, narrow)
      invariant (forall fundType :: Calm(w, fundType, window, now)) ==>
        AllCovered(w, owners[..k], window, now, later, host.store)
    {
      if w.stop(later) {
        NobodyStopsACalmRun(w, window, now, later);
        return;
      }
      ghost var middle, start := host.store, later;
      var complete;
      complete, later := QueryOne(host, w, vow, bound, owners[k].entity.fundType, owners[k].entity.fundosnetId, window,
                                  frontier, length, later, from);
      QuietTransitive(w, window, before, middle, host.store, narrow);
      if forall fundType :: Calm(w, fundType, window, now) {
        CalmLater(w, owners[k].entity.fundType, window, now, start);
        CoveredMore(w, owners, k, window, now, start, later, middle, host.store, narrow);
      }
    }
    assert owners[..|owners|] == owners;
  }

  ghost predicate AllCovered(w: World, owners: seq<Owner>, window: Window, from: nat, until: nat, s: Store) {
    forall o :: o in owners ==> CoveredBetween(w, o, window, from, until, s)
  }

  ghost predicate CoveredBetween(w: World, o: Owner, window: Window, from: nat, until: nat, s: Store) {
    exists asked: nat ::
      from <= asked <= until && Covers(w, o.entity.fundType, o.entity.fundosnetId, window, asked, s)
  }

  lemma NobodyStopsACalmRun(w: World, window: Window, now: nat, later: nat)
    requires now <= later && w.stop(later)
    ensures !forall fundType :: Calm(w, fundType, window, now)
  {
    hide SteadyServe, DistinctIds, Windowed;
    assert !Calm(w, 0, window, now);
  }

  lemma CoveredMore(w: World, owners: seq<Owner>, k: nat, window: Window, now: nat, start: nat, later: nat,
                    s: Store, t: Store, narrow: bool)
    requires k < |owners| && now <= start <= later
    requires AllCovered(w, owners[..k], window, now, start, s) && Quiet(w, window, s, t, narrow)
    requires Covers(w, owners[k].entity.fundType, owners[k].entity.fundosnetId, window, start, t)
    ensures AllCovered(w, owners[..k + 1], window, now, later, t)
  {
    hide Covers;
    assert owners[..k + 1] == owners[..k] + [owners[k]];
    forall o | o in owners[..k + 1] ensures CoveredBetween(w, o, window, now, later, t) {
      if o in owners[..k] {
        assert CoveredBetween(w, o, window, now, start, s);
        var asked: nat :| now <= asked <= start
                          && Covers(w, o.entity.fundType, o.entity.fundosnetId, window, asked, s);
        CoversAreRows(w, o.entity.fundType, o.entity.fundosnetId, window, asked, s, t);
      }
    }
  }
}
