/**
 Why the cursors' promises are about rows since the latest start of a monitor window.

 A firing looks back one day; the next is told to look back two. A watched row of the
 day before is now inside the window, but below the cursor, and no monitor firing will
 ever consider it. The firing is the real one, on a source that misbehaves in no way.
 */
module Widening {
  import opened Base
  import opened Clock
  import opened Listing
  import opened Archive
  import opened Safety
  import opened Traces
  import opened Hosts
  import opened Newest
  import opened Moving
  import opened Discover
  import opened Ownership
  import opened Watchlist
  import opened Monitor

  /** A source that lists `a`, and `b` of an earlier day, both of the entity of `o`, for ever. */
  function TwoRows(o: Owner, a: DocumentRow, b: DocumentRow): World {
    StillWorld(Pair(o, a, b), _ => a.at, _ => 0, _ => o.entity.fundosnetId)
  }

  function Pair(o: Owner, a: DocumentRow, b: DocumentRow): int -> seq<Raw> {
    fundType => if fundType == o.entity.fundType then [Good(a), Good(b)] else []
  }

  /** What a window of the day of `a` alone shows. */
  lemma NarrowWindowShows(o: Owner, a: DocumentRow, b: DocumentRow, window: Window, fundType: int)
    requires window.Contains(DayOf(a.at)) && !window.Contains(DayOf(b.at))
    ensures Those(Pair(o, a, b)(fundType), (raw: Raw) => Asked(window, _ => 0, raw))
            == if fundType == o.entity.fundType then [Good(a)] else []
  {
    var p := (raw: Raw) => Asked(window, _ => 0, raw);
    var one, two: seq<Raw> := [Good(a)], [Good(a), Good(b)];
    assert one[..0] == [] && two[..1] == one;
    assert Those(one, p) == [] + [Good(a)];
    assert Those(two, p) == Those(one, p);
  }

  lemma WorldIsHonest(o: Owner, a: DocumentRow, b: DocumentRow)
    requires b.at <= a.at
    ensures Honest(TwoRows(o, a, b), 2)
  {
    hide Honest, StillWorld;
    StillWorldIsHonest(Pair(o, a, b), _ => a.at, _ => 0, _ => o.entity.fundosnetId, 2);
  }

  lemma WorldIsCalm(o: Owner, a: DocumentRow, b: DocumentRow, window: Window, fundType: int, now: nat)
    requires window.Contains(DayOf(a.at)) && !window.Contains(DayOf(b.at))
    ensures Calm(TwoRows(o, a, b), fundType, window, now)
  {
    var w := TwoRows(o, a, b);
    NarrowWindowShows(o, a, b, window, fundType);
    var shown := Listed(w, fundType, window).listing(now);
    SingletonIsDistinct(shown, a);
    forall entity, asked: nat ensures SteadyServe(w, fundType, entity, window, asked) {
      hide Keys, Those;
    }
  }

  lemma SingletonIsDistinct(rows: seq<Raw>, a: DocumentRow)
    requires rows == [] || rows == [Good(a)]
    ensures |Keys(rows)| == |rows| && DistinctIds(Goods(rows))
  {
    if rows != [] {
      assert rows[..0] == [];
      assert Keys(rows) == {} + {KeyOf(Good(a))};
      assert Goods(rows) == [] + [a];
    }
  }

  /** Nothing but `a` is ever served for the narrow window. */
  lemma OnlyTheNewRowIsServed(o: Owner, a: DocumentRow, b: DocumentRow, window: Window)
    requires window.Contains(DayOf(a.at)) && !window.Contains(DayOf(b.at)) && a.id != b.id
    ensures !WasServed(TwoRows(o, a, b), window, b.id)
  {
    var w := TwoRows(o, a, b);
    forall fundType, entity, asked: nat, row: DocumentRow
      | Good(row) in w.serve(fundType, entity, window, asked, asked)
      ensures row.id != b.id
    {
      NarrowWindowShows(o, a, b, window, fundType);
    }
  }

  /** No complete read of the window from this cursor, whenever it starts, holds the row. */
  ghost predicate NeverOffered(w: World, fundType: int, window: Window, cursor: int, row: DocumentRow) {
    forall now: nat, r: NewestRead | ReadCompletely(w, fundType, window, now, Some(cursor), r) :: row !in r.rows
  }

  /**
   One undisturbed firing on the day of `a`; then a window that also asks for the day
   before. Since that day the promise is broken -- and no complete read of the wider
   window, at any time, will offer `b` as a candidate.
   */
  method WideningHidesARow(accepts: Bytes -> bool, fold: string -> string, scopes: seq<Scope>, o: Owner,
                           a: DocumentRow, b: DocumentRow, frontier: int, length: nat)
    returns (s: Store)
    requires o in Owners(scopes) && Hits(Watch(fold, Owners(scopes)), o.entity.fundType, b, o)
    requires DayOf(b.at) == DayOf(a.at) - 1 && a.id != b.id && length >= 1
    ensures Safe(TwoRows(o, a, b), Watch(fold, Owners(scopes)), DayOf(a.at), s.clock, s)
    ensures !Safe(TwoRows(o, a, b), Watch(fold, Owners(scopes)), DayOf(b.at), s.clock, s)
    ensures b.id !in s.documents && o.entity.fundType in s.cursors
    ensures NeverOffered(TwoRows(o, a, b), o.entity.fundType, Window(DayOf(b.at), DayOf(a.at)),
                         s.cursors[o.entity.fundType], b)
  {
    hide Inv, Allowed, Replay, Honest, Calm, Matches, Owners, StillWorld, Windowed, CompleteRead, Promised;
    var w, fundType, window := TwoRows(o, a, b), o.entity.fundType, Window(DayOf(a.at), DayOf(a.at));
    ghost var watch := Watch(fold, Owners(scopes));
    ghost var vow := Vow(watch, window.first, false, []);
    EmptyIsSound(accepts);
    WorldIsHonest(o, a, b);
    var host := new Host(accepts, EMPTY);
    var later := RunMonitor(host, w, vow, 2, fold, scopes, window, frontier, length, 0);
    s := host.store;
    forall any ensures Calm(w, any, window, 0) {
      WorldIsCalm(o, a, b, window, any, 0);
    }
    assert CaughtUp(w, vow, fundType, window, 0, s);
    PairIsListed(o, a, b, 0);
    WindowedShows(w.feeds(fundType), window, w.malformed, 0, Good(a));
    OnlyTheNewRowIsServed(o, a, b, window);
    PairIsListed(o, a, b, s.clock);
    assert Matches(w, watch, fundType, b) by {
      OwnerOfPair(o, a, b, watch);
    }
    BrokenPromise(w, watch, fundType, DayOf(b.at), s.clock, s, b);
    PassedOver(w, fundType, Window(DayOf(b.at), DayOf(a.at)), s.cursors[fundType], b);
  }

  lemma PassedOver(w: World, fundType: int, window: Window, cursor: int, row: DocumentRow)
    requires row.at < cursor
    ensures NeverOffered(w, fundType, window, cursor, row)
  {
    forall now: nat, r: NewestRead | ReadCompletely(w, fundType, window, now, Some(cursor), r)
      ensures row !in r.rows
    {
      RowBelowTheCursorIsNeverCandidate(w, fundType, window, cursor, r, now, row);
    }
  }

  lemma PairIsListed(o: Owner, a: DocumentRow, b: DocumentRow, t: nat)
    ensures Good(a) in TwoRows(o, a, b).feeds(o.entity.fundType).listing(t)
    ensures Good(b) in TwoRows(o, a, b).feeds(o.entity.fundType).listing(t)
  {
  }

  lemma OwnerOfPair(o: Owner, a: DocumentRow, b: DocumentRow, watch: Watch)
    requires Hits(watch, o.entity.fundType, b, o)
    ensures Matches(TwoRows(o, a, b), watch, o.entity.fundType, b)
  {
  }

  lemma BrokenPromise(w: World, watch: Watch, fundType: int, first: int, t: nat, s: Store, row: DocumentRow)
    requires fundType in s.cursors && Due(w, watch, fundType, first, t, s.cursors[fundType], row)
    requires row.id !in s.documents
    ensures !Safe(w, watch, first, t, s)
  {
    hide Matches;
    assert !Promised(w, watch, fundType, first, t, s.documents.Keys, s.cursors[fundType]);
  }
}
