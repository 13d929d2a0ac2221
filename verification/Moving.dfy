/**
 What a complete newest-first read proves about a listing that moves.

 Between two requests rows may be withdrawn anywhere, and new rows may only join
 at the newest end, dated no earlier than anything the source ever listed.
 */
module Moving {
  import opened Base
  import opened Clock
  import opened Listing
  import opened Newest

  /** The life of one listing: what it shows at each instant, and how it got there. */
  datatype Feed = Feed(
    listing: nat -> seq<Raw>,
    arrived: nat -> seq<Raw>,
    gone: nat -> set<Raw>,
    high: nat -> int)

  function Without(rows: seq<Raw>, gone: set<Raw>): (kept: seq<Raw>)
    ensures |kept| <= |rows|
    ensures forall raw :: raw in kept ==> raw in rows && raw !in gone
  {
    if rows == [] then []
    else
      var kept := Without(rows[..|rows| - 1], gone);
      var last := rows[|rows| - 1];
      if last in gone then kept else kept + [last]
  }

  ghost predicate Sorted(rows: seq<Raw>) {
    forall i, j :: 0 <= i < j < |rows| && rows[i].Good? && rows[j].Good? ==> rows[i].row.at >= rows[j].row.at
  }

  /** One tick of the source. */
  ghost predicate Ticks(f: Feed, t: nat) {
    && f.listing(t + 1) == f.arrived(t) + Without(f.listing(t), f.gone(t))
    && (forall raw :: raw in f.arrived(t) ==> raw !in f.listing(t))
    && (forall raw :: raw in f.arrived(t) && raw.Good? ==> raw.row.at >= f.high(t))
    && f.high(t) <= f.high(t + 1)
  }

  ghost predicate Lives(f: Feed) {
    && (forall t: nat :: Ticks(f, t))
    && (forall t: nat :: Sorted(f.listing(t)))
    && (forall t: nat, raw :: raw in f.listing(t) && raw.Good? ==> raw.row.at <= f.high(t))
  }

  ghost predicate Persists(f: Feed, raw: Raw, from: nat, until: nat) {
    forall t: nat :: from <= t <= until ==> raw in f.listing(t)
  }

  /** A kept row loses at most as many places as there were rows removed. */
  lemma {:induction false} KeptIndex(rows: seq<Raw>, gone: set<Raw>, i: nat) returns (j: nat)
    requires i < |rows| && rows[i] !in gone
    ensures j < |Without(rows, gone)| && Without(rows, gone)[j] == rows[i]
    ensures j + |rows| >= i + |Without(rows, gone)|
  {
    var init := rows[..|rows| - 1];
    if i == |rows| - 1 {
      j := |Without(init, gone)|;
    } else {
      j := KeptIndex(init, gone, i);
    }
  }

  /** While the count holds still, a row that stays listed never moves towards the newest end. */
  lemma ShiftsDown(f: Feed, t: nat, i: nat) returns (j: nat)
    requires Ticks(f, t)
    requires i < |f.listing(t)| == |f.listing(t + 1)|
    requires f.listing(t)[i] in f.listing(t + 1)
    ensures i <= j < |f.listing(t + 1)| && f.listing(t + 1)[j] == f.listing(t)[i]
  {
    var raw := f.listing(t)[i];
    assert raw in f.listing(t);
    var kept := Without(f.listing(t), f.gone(t));
    assert raw in f.arrived(t) + kept;
    assert raw in kept;
    var k := KeptIndex(f.listing(t), f.gone(t), i);
    j := |f.arrived(t)| + k;
  }

  lemma {:induction false} GoodsMember(raws: seq<Raw>, row: DocumentRow)
    ensures row in Goods(raws) <==> Good(row) in raws
  {
    if raws != [] {
      GoodsMember(raws[..|raws| - 1], row);
      assert raws == raws[..|raws| - 1] + [raws[|raws| - 1]];
    }
  }

  lemma {:induction false} AtOrAboveMember(cursor: Option<int>, rows: seq<DocumentRow>, row: DocumentRow)
    ensures row in AtOrAbove(cursor, rows) <==> row in rows && !Below(row, cursor)
  {
    if rows != [] {
      AtOrAboveMember(cursor, rows[..|rows| - 1], row);
      assert rows == rows[..|rows| - 1] + [rows[|rows| - 1]];
    }
  }

  lemma {:induction false} HeardMember(listing: nat -> seq<Raw>, now: nat, length: nat, pages: nat, p: nat,
                                       row: DocumentRow)
    requires p < pages
    requires Good(row) in Slice(listing(now + p), Offset(p, length), length)
    ensures row in Heard(listing, now, length, pages)
  {
    if p == pages - 1 {
      GoodsMember(Slice(listing(now + pages - 1), Offset(pages - 1, length), length), row);
    } else {
      HeardMember(listing, now, length, pages - 1, p, row);
    }
  }

  lemma {:induction false} HeardSource(listing: nat -> seq<Raw>, now: nat, length: nat, pages: nat, row: DocumentRow)
    returns (p: nat, k: nat)
    requires row in Heard(listing, now, length, pages)
    ensures p < pages && Offset(p, length) <= k < Offset(p + 1, length)
    ensures k < |listing(now + p)| && listing(now + p)[k] == Good(row)
  {
    hide Goods;
    var page := Slice(listing(now + pages - 1), Offset(pages - 1, length), length);
    if row in Goods(page) {
      GoodsMember(page, row);
      var i :| 0 <= i < |page| && page[i] == Good(row);
      p, k := pages - 1, Offset(pages - 1, length) + i;
    } else {
      p, k := HeardSource(listing, now, length, pages - 1, row);
    }
  }

  /** A row at index `i` lies in page `p` exactly when the page starts at or before it and ends after. */
  lemma InPage(rows: seq<Raw>, p: nat, length: nat, i: nat)
    requires Offset(p, length) <= i < Offset(p + 1, length) && i < |rows|
    ensures rows[i] in Slice(rows, Offset(p, length), length)
  {
    var page := Slice(rows, Offset(p, length), length);
    assert page[i - Offset(p, length)] == rows[i];
  }

  lemma NextIndex(f: Feed, now: nat, length: nat, cursor: Option<int>, r: NewestRead, p: nat, i: nat) returns (j: nat)
    requires Lives(f) && CompleteRead(f.listing, now, length, cursor, r) && p + 1 < r.pages
    requires i < |f.listing(now + p)| && f.listing(now + p)[i] in f.listing(now + p + 1)
    ensures i <= j < |f.listing(now + p + 1)| && f.listing(now + p + 1)[j] == f.listing(now + p)[i]
  {
    hide Sorted, Heard, Ended, Orderly;
    assert Ticks(f, now + p);
    assert now + p + 1 < now + r.pages;
    j := ShiftsDown(f, now + p, i);
  }

  lemma CollectedIfHeard(f: Feed, now: nat, length: nat, cursor: Option<int>, r: NewestRead, row: DocumentRow, p: nat)
    requires CompleteRead(f.listing, now, length, cursor, r) && p < r.pages
    requires Good(row) in Slice(f.listing(now + p), Offset(p, length), length) && !Below(row, cursor)
    ensures row in r.rows
  {
    HeardMember(f.listing, now, length, r.pages, p, row);
    AtOrAboveMember(cursor, Heard(f.listing, now, length, r.pages), row);
  }

  /**
   The heart of the matter: a row seen at or after the start of page `p` that then
   stays listed to the end of a complete read is collected, unless it is below the cursor.
   */
  lemma {:induction false} ReadCovers(f: Feed, now: nat, length: nat, cursor: Option<int>, r: NewestRead,
                                      row: DocumentRow, p: nat, i: nat)
    requires Lives(f) && CompleteRead(f.listing, now, length, cursor, r)
    requires p < r.pages && Persists(f, Good(row), now + p, now + r.pages - 1)
    requires Offset(p, length) <= i < |f.listing(now + p)| && f.listing(now + p)[i] == Good(row)
    requires !Below(row, cursor)
    ensures row in r.rows
    decreases r.pages - p
  {
    hide CompleteRead, Lives;
    if i < Offset(p + 1, length) {
      InPage(f.listing(now + p), p, length, i);
      CollectedIfHeard(f, now, length, cursor, r, row, p);
    } else if p + 1 < r.pages {
      var j := NextIndex(f, now, length, cursor, r, p, i);
      ReadCovers(f, now, length, cursor, r, row, p + 1, j);
    } else {
      PastTheEnd(f, now, length, cursor, r, row, i);
    }
  }

  /** The last page of a complete read leaves nothing at or above the cursor behind it. */
  lemma PastTheEnd(f: Feed, now: nat, length: nat, cursor: Option<int>, r: NewestRead, row: DocumentRow, i: nat)
    requires Lives(f) && CompleteRead(f.listing, now, length, cursor, r)
    requires i < |f.listing(now + r.pages - 1)| && f.listing(now + r.pages - 1)[i] == Good(row)
    requires !Below(row, cursor)
    ensures i < Offset(r.pages, length)
  {
    hide Heard, Orderly, Steady, AtOrAbove, Ticks, Goods, Slice, Sorted;
    var rows := f.listing(now + r.pages - 1);
    assert Sorted(rows);
    if Offset(r.pages, length) < |rows| {
      var start := Offset(r.pages - 1, length);
      var k := CrossingIndex(rows, start, length, cursor);
      NotAfter(rows, i, k);
    }
  }

  /** Where in the listing the row that crossed the frontier sits. */
  lemma CrossingIndex(rows: seq<Raw>, start: nat, length: nat, cursor: Option<int>) returns (k: nat)
    requires var last := Goods(Slice(rows, start, length)); last != [] && Below(last[|last| - 1], cursor)
    ensures k < start + length && k < |rows| && rows[k].Good? && Below(rows[k].row, cursor)
  {
    var page := Slice(rows, start, length);
    var last := Goods(page);
    GoodsMember(page, last[|last| - 1]);
    var m :| 0 <= m < |page| && page[m] == Good(last[|last| - 1]);
    k := start + m;
    assert rows[k] == page[m];
  }

  /** In a sorted listing a strictly newer row does not come after an older one. */
  lemma NotAfter(rows: seq<Raw>, i: nat, k: nat)
    requires Sorted(rows) && i < |rows| && k < |rows|
    requires rows[i].Good? && rows[k].Good? && rows[i].row.at > rows[k].row.at
    ensures i < k
  {
  }

  /**
   Newest-first soundness: a read that ends `complete` has collected every row at or
   above the cursor that stayed listed while it ran -- the whole tie group at the
   cursor minute included -- and nothing else than rows it was served.
   */
  lemma CompleteReadCoversPersisting(f: Feed, now: nat, length: nat, cursor: Option<int>, r: NewestRead,
                                     row: DocumentRow)
    requires Lives(f) && length >= 1 && CompleteRead(f.listing, now, length, cursor, r)
    requires Persists(f, Good(row), now, now + r.pages - 1)
    ensures row in r.rows <==> !Below(row, cursor)
  {
    AtOrAboveMember(cursor, Heard(f.listing, now, length, r.pages), row);
    if !Below(row, cursor) {
      assert Good(row) in f.listing(now);
      var i :| 0 <= i < |f.listing(now)| && f.listing(now)[i] == Good(row);
      ReadCovers(f, now, length, cursor, r, row, 0, i);
    }
  }

  /** A row that is listed now and is dated before the source's old high mark was listed ever since. */
  lemma {:induction false} ListedSince(f: Feed, row: DocumentRow, from: nat, until: nat)
    requires Lives(f) && from <= until
    requires Good(row) in f.listing(until) && row.at < f.high(from)
    ensures Persists(f, Good(row), from, until)
    decreases until
  {
    if from < until {
      HighGrows(f, from, until - 1);
      assert Ticks(f, until - 1);
      var kept := Without(f.listing(until - 1), f.gone(until - 1));
      assert Good(row) in f.arrived(until - 1) + kept;
      assert Good(row) in kept;
      ListedSince(f, row, from, until - 1);
    }
  }

  lemma {:induction false} HighGrows(f: Feed, from: nat, until: nat)
    requires Lives(f) && from <= until
    ensures f.high(from) <= f.high(until)
    decreases until
  {
    if from < until {
      assert Ticks(f, until - 1);
      HighGrows(f, from, until - 1);
    }
  }

  /**
   What lets the cursor move to `newest`: any row still listed at some later time
   that is dated in `[cursor, newest)` was collected by the read, even if it arrived
   while the read was under way.
   */
  lemma BelowNewestIsCollected(f: Feed, now: nat, length: nat, cursor: Option<int>, r: NewestRead,
                               row: DocumentRow, later: nat)
    requires Lives(f) && length >= 1 && CompleteRead(f.listing, now, length, cursor, r)
    requires r.newest.Some? && row.at < r.newest.value && !Below(row, cursor)
    requires later >= now + r.pages - 1 && Good(row) in f.listing(later)
    ensures row in r.rows
  {
    var heard := Heard(f.listing, now, length, r.pages);
    var top := heard[0];
    assert top in heard;
    var p, k := HeardSource(f.listing, now, length, r.pages, top);
    assert Good(top) in f.listing(now + p);
    ListedSince(f, row, now + p, later);
    var i :| 0 <= i < |f.listing(now + p)| && f.listing(now + p)[i] == Good(row);
    assert Sorted(f.listing(now + p));
    assert i >= k;
    ReadCovers(f, now, length, cursor, r, row, p, i);
  }

  /** The newest instant reported is one the source listed, so it is not above the high mark. */
  lemma NewestIsListed(f: Feed, now: nat, length: nat, cursor: Option<int>, r: NewestRead, later: nat)
    requires Lives(f) && CompleteRead(f.listing, now, length, cursor, r) && r.newest.Some?
    requires later >= now + r.pages - 1
    ensures r.newest.value <= f.high(later)
  {
    hide Orderly, Ended, Steady, AtOrAbove, Ticks;
    var top := Heard(f.listing, now, length, r.pages)[0];
    var p, k := HeardSource(f.listing, now, length, r.pages, top);
    assert Good(top) in f.listing(now + p);
    HighGrows(f, now + p, later);
  }

  lemma {:induction false} OffsetIsProduct(pages: nat, length: nat)
    ensures Offset(pages, length) == pages * length
  {
    if pages > 0 {
      OffsetIsProduct(pages - 1, length);
    }
  }

  /** A read makes at most `max(1, ceil(total / length))` requests, however it ends. */
  lemma RequestBound(listing: nat -> seq<Raw>, now: nat, length: nat, cursor: Option<int>, r: NewestRead)
    requires length >= 1 && Outcome(listing, now, length, cursor, r)
    ensures r.pages <= Max(1, (r.recordsFiltered + length - 1) / length)
  {
    hide CompleteRead, Orderly, Heard;
    var pages, total := r.pages, r.recordsFiltered;
    if pages > 1 {
      OffsetIsProduct(pages - 1, length);
      var q := (total + length - 1) / length;
      assert q * length > total - 1 by {
        assert total + length - 1 == q * length + (total + length - 1) % length;
      }
      assert (pages - 1) * length < q * length;
      LessFactor(pages - 1, q, length);
    }
  }

  lemma LessFactor(a: nat, b: nat, length: nat)
    requires a * length < b * length
    ensures a < b
  {
    assert (b - a) * length == b * length - a * length;
  }

  // -------------------------------------------------- the part a window asks for

  /** The rows satisfying `p`, in order. */
  function Those(rows: seq<Raw>, p: Raw -> bool): seq<Raw> {
    if rows == [] then []
    else
      var those := Those(rows[..|rows| - 1], p);
      var last := rows[|rows| - 1];
      if p(last) then those + [last] else those
  }

  lemma {:induction false} ThoseMember(rows: seq<Raw>, p: Raw -> bool, raw: Raw)
    ensures raw in Those(rows, p) <==> raw in rows && p(raw)
  {
    if rows != [] {
      ThoseMember(rows[..|rows| - 1], p, raw);
      assert rows == rows[..|rows| - 1] + [rows[|rows| - 1]];
    }
  }

  lemma {:induction false} ThoseConcat(a: seq<Raw>, b: seq<Raw>, p: Raw -> bool)
    ensures Those(a + b, p) == Those(a, p) + Those(b, p)
  {
    if b == [] {
      assert a + b == a;
    } else {
      ThoseConcat(a, b[..|b| - 1], p);
      assert (a + b)[..|a + b| - 1] == a + b[..|b| - 1];
    }
  }

  lemma {:induction false} ThoseWithout(rows: seq<Raw>, gone: set<Raw>, p: Raw -> bool)
    ensures Those(Without(rows, gone), p) == Without(Those(rows, p), gone)
  {
    if rows != [] {
      var init, last := rows[..|rows| - 1], rows[|rows| - 1];
      ThoseWithout(init, gone, p);
      if last !in gone {
        assert (Without(init, gone) + [last])[..|Without(init, gone)|] == Without(init, gone);
      }
      if p(last) {
        assert (Those(init, p) + [last])[..|Those(init, p)|] == Those(init, p);
      }
    }
  }

  lemma {:induction false} ThoseSorted(rows: seq<Raw>, p: Raw -> bool)
    requires Sorted(rows)
    ensures Sorted(Those(rows, p))
  {
    if rows != [] {
      var init, last := rows[..|rows| - 1], rows[|rows| - 1];
      ThoseSorted(init, p);
      var those := Those(init, p);
      forall k | 0 <= k < |those| && those[k].Good? && last.Good? ensures those[k].row.at >= last.row.at {
        ThoseMember(init, p, those[k]);
        var i :| 0 <= i < |init| && init[i] == those[k];
        assert rows[i] == init[i];
      }
    }
  }

  /** What a query by delivery date is about; a malformed row is dated by its fingerprint. */
  predicate Asked(window: Window, malformed: string -> int, raw: Raw) {
    match raw
    case Good(row) => window.Contains(DayOf(row.at))
    case Bad(fingerprint) => window.Contains(malformed(fingerprint))
  }

  /** The same listing as a query for `window` sees it. */
  function Windowed(f: Feed, window: Window, malformed: string -> int): Feed {
    var p := (raw: Raw) => Asked(window, malformed, raw);
    Feed((t: nat) => Those(f.listing(t), p), (t: nat) => Those(f.arrived(t), p), f.gone, f.high)
  }

  /** A window of a listing that lives is a listing that lives. */
  lemma WindowedLives(f: Feed, window: Window, malformed: string -> int)
    requires Lives(f)
    ensures Lives(Windowed(f, window, malformed))
  {
    hide Those, Without, Asked;
    var p, g := (raw: Raw) => Asked(window, malformed, raw), Windowed(f, window, malformed);
    forall t: nat ensures Ticks(g, t) {
      WindowedTicks(f, window, malformed, t);
    }
    forall t: nat ensures Sorted(g.listing(t)) {
      ThoseSorted(f.listing(t), p);
    }
    forall t: nat, raw | raw in g.listing(t) && raw.Good? ensures raw.row.at <= g.high(t) {
      ThoseMember(f.listing(t), p, raw);
    }
  }

  lemma WindowedTicks(f: Feed, window: Window, malformed: string -> int, t: nat)
    requires Lives(f)
    ensures Ticks(Windowed(f, window, malformed), t)
  {
    hide Those, Without, Asked, Sorted;
    var p, g := (raw: Raw) => Asked(window, malformed, raw), Windowed(f, window, malformed);
    assert Ticks(f, t);
    ThoseConcat(f.arrived(t), Without(f.listing(t), f.gone(t)), p);
    ThoseWithout(f.listing(t), f.gone(t), p);
    forall raw | raw in g.arrived(t) ensures raw !in g.listing(t) && (raw.Good? ==> raw.row.at >= g.high(t)) {
      ThoseMember(f.arrived(t), p, raw);
      ThoseMember(f.listing(t), p, raw);
    }
  }

  /** What the windowed listing shows: the rows of the listing that the window asks for. */
  lemma WindowedShows(f: Feed, window: Window, malformed: string -> int, t: nat, raw: Raw)
    ensures raw in Windowed(f, window, malformed).listing(t) <==> raw in f.listing(t) && Asked(window, malformed, raw)
  {
    ThoseMember(f.listing(t), (raw: Raw) => Asked(window, malformed, raw), raw);
  }
}
