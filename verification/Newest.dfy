/**
 The newest-first read: the monitor's gate.

 An early-stopped read cannot compare what it holds with `recordsFiltered`, so it
 validates the order it receives instead.  The second half of this module proves
 what that buys against a listing that moves while it is being paged.
 */
module Newest {
  import opened Base
  import opened Listing

  datatype Failure =
    | CountDrift(before: nat, after: nat)
    | OrderViolated(row: DocumentRow, previous: int)
    | IdentityRepeated(id: Id)

  datatype NewestRead = NewestRead(
    rows: seq<DocumentRow>,
    newest: Option<int>,
    recordsFiltered: nat,
    pages: nat,
    errors: set<string>,
    complete: bool,
    failure: Option<Failure>,
    contractBroken: bool)

  /** The well-formed rows among raw rows, in order. */
  function Goods(raws: seq<Raw>): seq<DocumentRow> {
    if raws == [] then []
    else
      var goods := Goods(raws[..|raws| - 1]);
      match raws[|raws| - 1]
      case Good(row) => goods + [row]
      case Bad(_) => goods
  }

  /** The rows not strictly below the cursor; without a cursor, all of them. */
  function AtOrAbove(cursor: Option<int>, rows: seq<DocumentRow>): seq<DocumentRow> {
    if rows == [] then []
    else
      var kept := AtOrAbove(cursor, rows[..|rows| - 1]);
      var last := rows[|rows| - 1];
      if Below(last, cursor) then kept else kept + [last]
  }

  predicate Below(row: DocumentRow, cursor: Option<int>) {
    cursor.Some? && row.at < cursor.value
  }

  ghost predicate Descending(rows: seq<DocumentRow>) {
    forall i, j :: 0 <= i < j < |rows| ==> rows[i].at >= rows[j].at
  }

  ghost predicate DistinctIds(rows: seq<DocumentRow>) {
    forall i, j :: 0 <= i < j < |rows| ==> rows[i].id != rows[j].id
  }

  ghost predicate Orderly(rows: seq<DocumentRow>) {
    Descending(rows) && DistinctIds(rows)
  }

  /** What the read carries from row to row. */
  datatype Progress = Progress(
    rows: seq<DocumentRow>,
    newest: Option<int>,
    previous: Option<int>,
    seen: set<Id>,
    crossed: bool)

  /** What a read carries once it has heard `goods`. */
  function Tracked(cursor: Option<int>, goods: seq<DocumentRow>): Progress {
    Progress(
      AtOrAbove(cursor, goods),
      if goods == [] then None else Some(goods[0].at),
      if goods == [] then None else Some(goods[|goods| - 1].at),
      set row | row in goods :: row.id,
      goods != [] && Below(goods[|goods| - 1], cursor))
  }

  /** `p` is what an orderly prefix `goods` of the read leaves behind. */
  ghost predicate Tracks(p: Progress, cursor: Option<int>, goods: seq<DocumentRow>) {
    Orderly(goods) && p == Tracked(cursor, goods)
  }

  /** What one more row does to the progress of a read, whether or not it is in order. */
  function Advance(cursor: Option<int>, p: Progress, row: DocumentRow): Progress {
    Progress(
      if Below(row, cursor) then p.rows else p.rows + [row],
      if p.newest.None? || row.at > p.newest.value then Some(row.at) else p.newest,
      Some(row.at),
      p.seen + {row.id},
      p.crossed || Below(row, cursor))
  }

  lemma TrackedStep(cursor: Option<int>, goods: seq<DocumentRow>, row: DocumentRow)
    requires Descending(goods) && (goods != [] ==> row.at <= goods[|goods| - 1].at)
    ensures Tracked(cursor, goods + [row]) == Advance(cursor, Tracked(cursor, goods), row)
  {
    var more := goods + [row];
    assert more[..|goods|] == goods;
    assert (set r | r in more :: r.id) == (set r | r in goods :: r.id) + {row.id};
  }

  /** Accept one more row, or say which rule of the descending contract it breaks. */
  method Accept(cursor: Option<int>, row: DocumentRow, p0: Progress, ghost goods: seq<DocumentRow>)
    returns (p: Progress, failure: Option<Failure>)
    requires Tracks(p0, cursor, goods)
    ensures failure.None? ==> Tracks(p, cursor, goods + [row])
    ensures failure.Some? ==> !failure.value.CountDrift? && !Orderly(goods + [row])
  {
    p, failure := p0, None;
    if p0.previous.Some? && row.at > p0.previous.value {
      Misplaced(goods, row, |goods| - 1);
      return p, Some(OrderViolated(row, p0.previous.value));
    }
    if row.id in p0.seen {
      ghost var i :| 0 <= i < |goods| && goods[i].id == row.id;
      Misplaced(goods, row, i);
      return p, Some(IdentityRepeated(row.id));
    }
    p := Advance(cursor, p0, row);
    TrackedStep(cursor, goods, row);
    OrderlyExtend(goods, row);
  }

  lemma Misplaced(goods: seq<DocumentRow>, row: DocumentRow, i: nat)
    requires i < |goods| && (goods[i].at < row.at || goods[i].id == row.id)
    ensures !Orderly(goods + [row])
  {
    var more := goods + [row];
    assert more[i] == goods[i] && more[|goods|] == row;
  }

  lemma OrderlyExtend(goods: seq<DocumentRow>, row: DocumentRow)
    requires Orderly(goods)
    requires goods != [] ==> row.at <= goods[|goods| - 1].at
    requires forall i :: 0 <= i < |goods| ==> goods[i].id != row.id
    ensures Orderly(goods + [row])
  {
  }

  /** Accept the rows of one page, stopping at the first that breaks the contract. */
  method AcceptRows(cursor: Option<int>, rows: seq<DocumentRow>, p0: Progress, ghost goods: seq<DocumentRow>)
    returns (p: Progress, failure: Option<Failure>)
    requires Tracks(p0, cursor, goods)
    ensures failure.None? ==> Tracks(p, cursor, goods + rows)
    ensures failure.Some? ==> !failure.value.CountDrift? && !Orderly(goods + rows)
  {
    hide Tracked, Descending, DistinctIds;
    p, failure := p0, None;
    assert goods + rows[..0] == goods;
    for k := 0 to |rows|
      invariant failure.None? && Tracks(p, cursor, goods + rows[..k])
    {
      assert goods + rows[..k] + [rows[k]] == goods + rows[..k + 1];
      p, failure := Accept(cursor, rows[k], p, goods + rows[..k]);
      if failure.Some? {
        DisorderlyPrefix(goods + rows[..k + 1], goods + rows);
        return;
      }
    }
    assert rows[..|rows|] == rows;
  }

  lemma DisorderlyPrefix(a: seq<DocumentRow>, b: seq<DocumentRow>)
    requires a <= b && !Orderly(a)
    ensures !Orderly(b)
  {
    if !Descending(a) {
      var i, j :| 0 <= i < j < |a| && a[i].at < a[j].at;
      assert b[i] == a[i] && b[j] == a[j];
    } else {
      var i, j :| 0 <= i < j < |a| && a[i].id == a[j].id;
      assert b[i] == a[i] && b[j] == a[j];
    }
  }

  lemma {:induction false} GoodsConcat(a: seq<Raw>, b: seq<Raw>)
    ensures Goods(a + b) == Goods(a) + Goods(b)
  {
    if b != [] {
      GoodsConcat(a, b[..|b| - 1]);
      assert (a + b)[..|a + b| - 1] == a + b[..|b| - 1];
    } else {
      assert a + b == a;
    }
  }

  /** The good rows of the first `pages` pages, in the order they arrived. */
  function Heard(listing: nat -> seq<Raw>, now: nat, length: nat, pages: nat): seq<DocumentRow> {
    if pages == 0 then []
    else Heard(listing, now, length, pages - 1)
         + Goods(Slice(listing(now + pages - 1), Offset(pages - 1, length), length))
  }

  /** `recordsFiltered` held still over the first `pages` requests. */
  ghost predicate Steady(listing: nat -> seq<Raw>, now: nat, pages: nat, total: nat) {
    forall t: nat :: now <= t < now + pages ==> |listing(t)| == total
  }

  /** The two ways a read may end well: the frontier was crossed, or the listing ended. */
  ghost predicate Ended(listing: nat -> seq<Raw>, now: nat, length: nat, cursor: Option<int>, r: NewestRead)
    requires r.pages >= 1
  {
    var last := Goods(Slice(listing(now + r.pages - 1), Offset(r.pages - 1, length), length));
    || (last != [] && Below(last[|last| - 1], cursor))
    || Offset(r.pages, length) >= |listing(now + r.pages - 1)|
  }

  /** Everything a complete read has established about the requests it made. */
  ghost predicate CompleteRead(listing: nat -> seq<Raw>, now: nat, length: nat, cursor: Option<int>, r: NewestRead) {
    var heard := Heard(listing, now, length, r.pages);
    && r.pages >= 1
    && Orderly(heard)
    && Steady(listing, now, r.pages, r.recordsFiltered)
    && Ended(listing, now, length, cursor, r)
    && r.rows == AtOrAbove(cursor, heard)
    && r.newest == (if heard == [] then None else Some(heard[0].at))
  }

  /** One request's worth of rows, validated against everything heard before. */
  method AcceptPage(cursor: Option<int>, batch: seq<Raw>, p0: Progress, ghost heard0: seq<DocumentRow>)
    returns (p: Progress, failure: Option<Failure>, ghost heard: seq<DocumentRow>)
    requires Tracks(p0, cursor, heard0)
    ensures heard == heard0 + Goods(batch)
    ensures failure.None? ==> Tracks(p, cursor, heard)
    ensures failure.Some? ==> !failure.value.CountDrift? && !Orderly(heard)
  {
    p, failure := AcceptRows(cursor, Goods(batch), p0, heard0);
    heard := heard0 + Goods(batch);
  }

  /** What the loop of a read has established before its next request. */
  ghost predicate Reading(listing: nat -> seq<Raw>, now: nat, length: nat, cursor: Option<int>,
                          pages: nat, total: nat, p: Progress, heard: seq<DocumentRow>) {
    && heard == Heard(listing, now, length, pages)
    && Tracks(p, cursor, heard)
    && Steady(listing, now, pages, total)
  }

  lemma NextPage(listing: nat -> seq<Raw>, now: nat, length: nat, cursor: Option<int>, pages: nat, total: nat,
                 p0: Progress, heard0: seq<DocumentRow>, p: Progress, heard: seq<DocumentRow>)
    requires pages >= 1 && Reading(listing, now, length, cursor, pages - 1, if pages == 1 then 0 else total, p0, heard0)
    requires |listing(now + pages - 1)| == total
    requires heard == heard0 + Goods(Slice(listing(now + pages - 1), Offset(pages - 1, length), length))
    requires Tracks(p, cursor, heard)
    ensures Reading(listing, now, length, cursor, pages, total, p, heard)
  {
  }

  /** What a read that was not cut short by a failed request reports. */
  ghost predicate Outcome(listing: nat -> seq<Raw>, now: nat, length: nat, cursor: Option<int>, r: NewestRead) {
    && r.pages >= 1
    && (r.complete ==> r.failure.None? && !r.contractBroken && CompleteRead(listing, now, length, cursor, r))
    && (!r.complete ==> r.failure.Some? && (r.contractBroken <==> !r.failure.value.CountDrift?))
    && (r.contractBroken ==> !Orderly(Heard(listing, now, length, r.pages)))
    && (!r.complete && !r.contractBroken ==> |listing(now + r.pages - 1)| != |listing(now)|)
    && (r.pages == 1 || Offset(r.pages - 1, length) < r.recordsFiltered == |listing(now)|)
  }

  function Finished(p: Progress, total: nat, pages: nat, errors: set<string>): NewestRead {
    NewestRead(p.rows, p.newest, total, pages, errors, true, None, false)
  }

  function Aborted(p: Progress, total: nat, pages: nat, errors: set<string>, failure: Failure): NewestRead {
    NewestRead(p.rows, p.newest, total, pages, errors, false, Some(failure), !failure.CountDrift?)
  }

  /** Where request number `pages` stands: the first, or one the listing was long enough to need. */
  ghost predicate Needed(listing: nat -> seq<Raw>, now: nat, length: nat, pages: nat, total: nat) {
    pages == 1 || (pages > 1 && Offset(pages - 1, length) < total == |listing(now)|)
  }

  /** Crossing the frontier happened on the last page, not before. */
  lemma CrossedHere(cursor: Option<int>, heard0: seq<DocumentRow>, page: seq<DocumentRow>)
    requires !Tracked(cursor, heard0).crossed && Tracked(cursor, heard0 + page).crossed
    ensures page != [] && Below(page[|page| - 1], cursor)
  {
    assert heard0 + [] == heard0;
  }

  lemma Finish(listing: nat -> seq<Raw>, now: nat, length: nat, cursor: Option<int>, p0: Progress,
               heard0: seq<DocumentRow>, p: Progress, heard: seq<DocumentRow>, total: nat, pages: nat,
               errors: set<string>)
    requires pages >= 1 && Reading(listing, now, length, cursor, pages, total, p, heard)
    requires Tracks(p0, cursor, heard0) && !p0.crossed
    requires heard == heard0 + Goods(Slice(listing(now + pages - 1), Offset(pages - 1, length), length))
    requires p.crossed || Offset(pages, length) >= total
    ensures CompleteRead(listing, now, length, cursor, Finished(p, total, pages, errors))
  {
    hide Orderly, Goods, Slice, Heard, Below, AtOrAbove;
    assert |listing(now + pages - 1)| == total;
    if p.crossed {
      CrossedHere(cursor, heard0, Goods(Slice(listing(now + pages - 1), Offset(pages - 1, length), length)));
    }
  }

  lemma Broken(listing: nat -> seq<Raw>, now: nat, length: nat, pages: nat, heard0: seq<DocumentRow>,
               heard: seq<DocumentRow>)
    requires pages >= 1 && heard0 == Heard(listing, now, length, pages - 1) && !Orderly(heard)
    requires heard == heard0 + Goods(Slice(listing(now + pages - 1), Offset(pages - 1, length), length))
    ensures !Orderly(Heard(listing, now, length, pages))
  {
    hide Orderly, Goods;
  }

  /** One answered request: its rows, and whether the read may end here. */
  method ReadPage(listing: nat -> seq<Raw>, ghost now: nat, length: nat, cursor: Option<int>, batch: seq<Raw>,
                  pages: nat, total: nat, p0: Progress, ghost heard0: seq<DocumentRow>, ghost errors: set<string>)
    returns (p: Progress, failure: Option<Failure>, ghost heard: seq<DocumentRow>)
    requires pages >= 1 && !p0.crossed
    requires Reading(listing, now, length, cursor, pages - 1, if pages == 1 then 0 else total, p0, heard0)
    requires |listing(now + pages - 1)| == total
        && batch == Slice(listing(now + pages - 1), Offset(pages - 1, length), length)
    ensures failure.None? ==> Reading(listing, now, length, cursor, pages, total, p, heard)
    ensures failure.None? && (p.crossed || Offset(pages, length) >= total) ==>
      CompleteRead(listing, now, length, cursor, Finished(p, total, pages, errors))
    ensures failure.Some? ==> !failure.value.CountDrift? && !Orderly(Heard(listing, now, length, pages))
  {
    hide Orderly, Tracked, Goods;
    p, failure, heard := AcceptPage(cursor, batch, p0, heard0);
    if failure.Some? {
      Broken(listing, now, length, pages, heard0, heard);
      return;
    }
    NextPage(listing, now, length, cursor, pages, total, p0, heard0, p, heard);
    if p.crossed || Offset(pages, length) >= total {
      Finish(listing, now, length, cursor, p0, heard0, p, heard, total, pages, errors);
    }
  }

  lemma ReadingStarts(listing: nat -> seq<Raw>, now: nat, length: nat, cursor: Option<int>)
    ensures Reading(listing, now, length, cursor, 0, 0, Progress([], None, None, {}, false), [])
  {
  }

  method ScanNewest(listing: nat -> seq<Raw>, fails: nat -> bool, now: nat, length: nat, cursor: Option<int>)
    returns (raised: bool, r: NewestRead, later: nat)
    requires length >= 1
    ensures now < later
    ensures raised ==> fails(later - 1)
    ensures !raised ==> later == now + r.pages && Outcome(listing, now, length, cursor, r)
  {
    hide Reading, CompleteRead, Orderly, Heard, Tracked;
    raised, later := false, now;
    var p := Progress([], None, None, {}, false);
    ReadingStarts(listing, now, length, cursor);
    var start: nat, pages: nat, recordsFiltered: nat, errors := 0, 0, 0, {};
    ghost var heard := [];
    while true
      invariant later == now + pages && start == Offset(pages, length)
      invariant pages > 0 ==> start < recordsFiltered
      invariant Needed(listing, now, length, pages + 1, recordsFiltered)
      invariant Reading(listing, now, length, cursor, pages, recordsFiltered, p, heard) && !p.crossed
      decreases pages == 0, recordsFiltered - start
    {
      r := NewestRead([], None, 0, 0, {}, false, None, false);
      later := later + 1;
      if fails(later - 1) {
        raised := true;
        return;
      }
      var batch, total := Slice(listing(later - 1), start, length), |listing(later - 1)|;
      pages := pages + 1;
      if pages > 1 && total != recordsFiltered {
        r := Aborted(p, recordsFiltered, pages, errors, CountDrift(recordsFiltered, total));
        return;
      }
      recordsFiltered := total;
      errors := errors + ErrorsOf(batch);
      var failure;
      p, failure, heard := ReadPage(listing, now, length, cursor, batch, pages, total, p, heard, errors);
      if failure.Some? {
        r := Aborted(p, recordsFiltered, pages, errors, failure.value);
        return;
      }
      if p.crossed || |batch| < length || start + |batch| >= recordsFiltered {
        r := Finished(p, recordsFiltered, pages, errors);
        return;
      }
      start := start + length;
    }
  }
}
