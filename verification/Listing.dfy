/**
 Paged reads of the public listing.

 The source is a function from request time to the listing it would serve then;
 a request returns an honest slice of the listing of that moment, and the clock
 ticks once per request.  Nothing else is assumed: two consecutive requests may
 see unrelated orders.
 */
module Listing {
  import opened Base
  import opened Clock

  /** One well-formed listing row, normalised. `at` is the delivery minute. */
  datatype DocumentRow = DocumentRow(
    id: Id,
    at: Instant,
    description: string,
    category: string,
    docType: string,
    species: string,
    reference: string,
    referenceFormat: string)

  /** A row on the wire either parses or is reported under its fingerprint. */
  datatype Raw = Good(row: DocumentRow) | Bad(fingerprint: string)

  /** What coverage counts: a publication once, a malformed row once. */
  datatype Key = Publication(id: Id) | Malformed(fingerprint: string)

  const MAX_SCAN_ATTEMPTS := 3

  function Slice<T>(s: seq<T>, start: nat, length: nat): (page: seq<T>)
    ensures |page| <= length
    ensures |page| < length ==> start + |page| >= |s|
    ensures page != [] ==> start + |page| <= |s|
  {
    s[Min(start, |s|)..Min(start + length, |s|)]
  }

  /** Where page number `pages` starts: `pages * length`, kept linear. */
  function Offset(pages: nat, length: nat): nat {
    if pages == 0 then 0 else Offset(pages - 1, length) + length
  }

  function KeyOf(raw: Raw): Key {
    match raw
    case Good(row) => Publication(row.id)
    case Bad(fingerprint) => Malformed(fingerprint)
  }

  function Keys(batch: seq<Raw>): (keys: set<Key>)
    ensures |keys| <= |batch|
  {
    if batch == [] then {}
    else Keys(batch[..|batch| - 1]) + {KeyOf(batch[|batch| - 1])}
  }

  /** What a pass keeps: rows by identity, malformed rows by fingerprint. */
  datatype Harvest = Harvest(rows: map<Id, DocumentRow>, errors: set<string>)
  {
    function Add(raw: Raw): Harvest {
      match raw
      case Good(row) => Harvest(rows[row.id := row], errors)
      case Bad(fingerprint) => Harvest(rows, errors + {fingerprint})
    }
  }

  /** A repeated identity keeps the row served last. */
  function HarvestOf(raws: seq<Raw>): Harvest {
    if raws == [] then Harvest(map[], {})
    else HarvestOf(raws[..|raws| - 1]).Add(raws[|raws| - 1])
  }

  /** The fingerprints of the malformed rows. */
  function ErrorsOf(raws: seq<Raw>): set<string> {
    set raw | raw in raws && raw.Bad? :: raw.fingerprint
  }

  /** Everything the first `pages` pages of a read starting at `now` contained. */
  function Transcript(listing: nat -> seq<Raw>, now: nat, length: nat, pages: nat): seq<Raw> {
    if pages == 0 then []
    else Transcript(listing, now, length, pages - 1)
         + Slice(listing(now + pages - 1), Offset(pages - 1, length), length)
  }

  /** The largest count reported by the requests of `[from, until)`. */
  function Peak(listing: nat -> seq<Raw>, from: nat, until: nat): nat {
    if until <= from then 0
    else Max(Peak(listing, from, until - 1), |listing(until - 1)|)
  }

  // ---------------------------------------------------------------- full scan

  datatype ScanResult = ScanResult(
    harvest: Harvest,
    recordsFiltered: nat,
    pages: nat,
    attempts: nat)
  {
    predicate Complete() { |harvest.rows| + |harvest.errors| >= recordsFiltered }
  }

  /** Page until the set is covered. `bound` caps how large the listing ever gets. */
  method Pages(listing: nat -> seq<Raw>, fails: nat -> bool, now: nat, length: nat, ghost bound: nat)
    returns (raised: bool, heard: seq<Raw>, recordsFiltered: nat, pages: nat, later: nat)
    requires length >= 1
    requires forall t: nat :: |listing(t)| <= bound
    ensures now < later
    ensures raised ==> fails(later - 1)
    ensures !raised ==> later == now + pages
    ensures !raised ==> heard == Transcript(listing, now, length, pages)
    ensures !raised ==> recordsFiltered == Peak(listing, now, later)
    ensures !raised ==> Offset(pages, length) >= |listing(later - 1)|
  {
    hide Slice, Peak, Transcript, Offset;
    NoRequestYet(listing, now, length);
    raised, heard, recordsFiltered, pages, later := false, [], 0, 0, now;
    var start, seen, covered := 0, 0, false;
    while !covered
      invariant later == now + pages
      invariant covered || start == seen == Offset(pages, length)
      invariant pages > 0 && !covered ==> seen < bound
      invariant covered ==> pages > 0 && Offset(pages, length) >= |listing(later - 1)|
      invariant heard == Transcript(listing, now, length, pages)
      invariant recordsFiltered == Peak(listing, now, later)
      decreases !covered, bound + length - seen
    {
      later := later + 1;
      if fails(later - 1) {
        return true, heard, recordsFiltered, pages, later;
      }
      var batch, total := Slice(listing(later - 1), start, length), |listing(later - 1)|;
      NextRequest(listing, now, length, pages, later);
      heard, recordsFiltered := heard + batch, Max(recordsFiltered, total);
      pages := pages + 1;
      seen := seen + |batch|;
      covered := |batch| == 0 || seen >= total || |batch| < length;
      start := start + length;
    }
  }

  /** What one more request adds to the transcript and to the peak. */
  lemma NextRequest(listing: nat -> seq<Raw>, now: nat, length: nat, pages: nat, later: nat)
    requires later == now + pages + 1
    ensures Transcript(listing, now, length, pages + 1)
            == Transcript(listing, now, length, pages) + Slice(listing(later - 1), Offset(pages, length), length)
    ensures Peak(listing, now, later) == Max(Peak(listing, now, later - 1), |listing(later - 1)|)
    ensures Offset(pages + 1, length) == Offset(pages, length) + length
  {
  }

  lemma NoRequestYet(listing: nat -> seq<Raw>, now: nat, length: nat)
    ensures Transcript(listing, now, length, 0) == [] && Peak(listing, now, now) == 0 && Offset(0, length) == 0
  {
  }

  /** Fold what was heard, row by row, into what the pass keeps. */
  method Reap(heard: seq<Raw>) returns (harvest: Harvest)
    ensures harvest == HarvestOf(heard)
  {
    harvest := Harvest(map[], {});
    for k := 0 to |heard|
      invariant harvest == HarvestOf(heard[..k])
    {
      assert heard[..k + 1][..k] == heard[..k];
      harvest := harvest.Add(heard[k]);
    }
    assert heard[..|heard|] == heard;
  }

  method ScanOnce(listing: nat -> seq<Raw>, fails: nat -> bool, now: nat, length: nat, attempt: nat, ghost bound: nat)
    returns (raised: bool, result: ScanResult, later: nat)
    requires length >= 1
    requires forall t: nat :: |listing(t)| <= bound
    ensures now < later
    ensures raised ==> fails(later - 1)
    ensures !raised ==> later == now + result.pages && ScanOutcome(listing, now, length, result)
    ensures !raised ==> result.attempts == attempt
  {
    var heard, recordsFiltered, pages;
    raised, heard, recordsFiltered, pages, later := Pages(listing, fails, now, length, bound);
    var harvest := Reap(heard);
    result := ScanResult(harvest, recordsFiltered, pages, attempt);
  }

  /** The whole scan: retried until coverage is proved, at most three times. */
  method Scan(listing: nat -> seq<Raw>, fails: nat -> bool, now: nat, length: nat, ghost bound: nat)
    returns (raised: bool, result: ScanResult, began: nat, later: nat)
    requires length >= 1
    requires forall t: nat :: |listing(t)| <= bound
    ensures now < later
    ensures raised ==> fails(later - 1)
    ensures !raised ==> 1 <= result.attempts <= MAX_SCAN_ATTEMPTS
    ensures !raised ==> now <= began && later == began + result.pages && ScanOutcome(listing, began, length, result)
    ensures !raised && !result.Complete() ==> result.attempts == MAX_SCAN_ATTEMPTS
  {
    raised, later, began := false, now, now;
    result := ScanResult(Harvest(map[], {}), 0, 0, 0);
    var attempt := 1;
    while attempt <= MAX_SCAN_ATTEMPTS
      invariant 1 <= attempt <= MAX_SCAN_ATTEMPTS + 1
      invariant attempt > 1
          ==> result.attempts == attempt - 1 && now <= began && later == began + result.pages && now < later
      invariant attempt > 1 ==> ScanOutcome(listing, began, length, result) && !result.Complete()
      invariant attempt == 1 ==> later == now
    {
      began := later;
      raised, result, later := ScanOnce(listing, fails, began, length, attempt, bound);
      if raised {
        return;
      }
      if result.Complete() {
        return;
      }
      attempt := attempt + 1;
    }
  }

  /** `result` is exactly what a pass of `result.pages` requests starting at `began` yields. */
  ghost predicate ScanOutcome(listing: nat -> seq<Raw>, began: nat, length: nat, result: ScanResult) {
    && result.pages >= 1
    && result.harvest == HarvestOf(Transcript(listing, began, length, result.pages))
    && result.recordsFiltered == Peak(listing, began, began + result.pages)
    && Offset(result.pages, length) >= |listing(began + result.pages - 1)|
  }

  // ------------------------------------------------- what a complete scan means

  /** The same rows at every request of `[from, until)`, in whatever order. */
  ghost predicate Shuffled(listing: nat -> seq<Raw>, from: nat, until: nat, rows: seq<Raw>) {
    forall t: nat :: from <= t < until ==> multiset(listing(t)) == multiset(rows)
  }

  lemma {:induction false} KeyMembership(raws: seq<Raw>, key: Key)
    ensures key in Keys(raws) <==> exists k :: 0 <= k < |raws| && KeyOf(raws[k]) == key
  {
    if raws != [] {
      var init := raws[..|raws| - 1];
      KeyMembership(init, key);
      if k :| 0 <= k < |raws| && KeyOf(raws[k]) == key {
        assert k == |raws| - 1 || init[k] == raws[k];
      }
    }
  }

  /** One more row adds its key to the harvest, and its size follows. */
  lemma HarvestGrows(h: Harvest, keys: set<Key>, raw: Raw)
    requires Tally(h, keys)
    ensures Tally(h.Add(raw), keys + {KeyOf(raw)})
  {
    match raw {
      case Good(row) =>
        MapInsertSize(h.rows, row.id, row);
        assert row.id in h.rows ==> keys + {Publication(row.id)} == keys;
      case Bad(e) =>
        assert e in h.errors ==> h.errors + {e} == h.errors && keys + {Malformed(e)} == keys;
    }
  }

  /** `keys` is exactly what is held, counted once each. */
  ghost predicate Tally(h: Harvest, keys: set<Key>) {
    && (forall id :: id in h.rows <==> Publication(id) in keys)
    && (forall e :: e in h.errors <==> Malformed(e) in keys)
    && |h.rows| + |h.errors| == |keys|
  }

  lemma {:induction false} HarvestTally(raws: seq<Raw>)
    ensures Tally(HarvestOf(raws), Keys(raws))
  {
    if raws != [] {
      HarvestTally(raws[..|raws| - 1]);
      HarvestGrows(HarvestOf(raws[..|raws| - 1]), Keys(raws[..|raws| - 1]), raws[|raws| - 1]);
    }
  }

  /** Every row held was served, as is, under its own identity. */
  ghost predicate HeldAsServed(rows: map<Id, DocumentRow>, raws: seq<Raw>) {
    forall id :: id in rows ==> rows[id].id == id && Good(rows[id]) in raws
  }

  lemma HeldStep(h: Harvest, raws: seq<Raw>, raw: Raw)
    requires HeldAsServed(h.rows, raws)
    ensures HeldAsServed(h.Add(raw).rows, raws + [raw])
  {
    var more := raws + [raw];
    assert raw in more && forall other :: other in raws ==> other in more;
  }

  lemma {:induction false} HarvestServed(raws: seq<Raw>)
    ensures HeldAsServed(HarvestOf(raws).rows, raws)
  {
    if raws != [] {
      hide HeldAsServed;
      var init, last := raws[..|raws| - 1], raws[|raws| - 1];
      HarvestServed(init);
      HeldStep(HarvestOf(init), init, last);
      assert init + [last] == raws;
    } else {
      assert HarvestOf(raws).rows == map[];
    }
  }

  lemma {:induction false} ServedIsListed(listing: nat -> seq<Raw>, began: nat, length: nat, pages: nat, rows: seq<Raw>)
    requires Shuffled(listing, began, began + pages, rows)
    ensures forall raw :: raw in Transcript(listing, began, length, pages) ==> raw in rows
  {
    if pages > 0 {
      ServedIsListed(listing, began, length, pages - 1, rows);
      var page := listing(began + pages - 1);
      assert multiset(page) == multiset(rows);
      forall raw | raw in page ensures raw in rows {
        assert raw in multiset(page);
      }
    }
  }

  lemma PeakOfShuffled(listing: nat -> seq<Raw>, from: nat, until: nat, rows: seq<Raw>)
    requires from < until && Shuffled(listing, from, until, rows)
    ensures Peak(listing, from, until) == |rows|
    decreases until
  {
    SameSize(listing(until - 1), rows);
    if from < until - 1 {
      PeakOfShuffled(listing, from, until - 1, rows);
    }
  }

  lemma SameSize(a: seq<Raw>, b: seq<Raw>)
    requires multiset(a) == multiset(b)
    ensures |a| == |b|
  {
    assert |multiset(a)| == |a| && |multiset(b)| == |b|;
  }

  /** What a pass over a fixed set of rows, in whatever order, amounts to in keys and counts. */
  lemma PassInKeys(listing: nat -> seq<Raw>, began: nat, length: nat, result: ScanResult, rows: seq<Raw>)
    requires ScanOutcome(listing, began, length, result)
    requires Shuffled(listing, began, began + result.pages, rows)
    ensures var keys := Keys(Transcript(listing, began, length, result.pages));
            && Tally(result.harvest, keys) && keys <= Keys(rows) && result.recordsFiltered == |rows|
  {
    hide Keys, HarvestOf, Tally, Transcript, Peak, Offset;
    var served := Transcript(listing, began, length, result.pages);
    HarvestTally(served);
    ServedIsListed(listing, began, length, result.pages, rows);
    KeysMonotone(served, rows);
    PeakOfShuffled(listing, began, began + result.pages, rows);
  }

  /** A pass that accounts for every row the source claimed has left no key out. */
  lemma CompleteLeavesNothingOut(served: set<Key>, listed: set<Key>, count: nat)
    requires served <= listed && |listed| <= count
    ensures |served| >= count <==> |listed| == count && served == listed
  {
    if |served| >= count {
      SubsetOfEqualSize(served, listed);
    }
  }

  /**
   Soundness of coverage: whatever order each request used, a scan of a fixed set
   of rows is complete exactly when nothing is missing -- which needs the rows to
   have distinct keys, and then every publication and every malformed row is held.
   */
  lemma CompleteMeansEverything(listing: nat -> seq<Raw>, began: nat, length: nat, result: ScanResult, rows: seq<Raw>)
    requires ScanOutcome(listing, began, length, result)
    requires Shuffled(listing, began, began + result.pages, rows)
    ensures result.Complete() <==>
            |Keys(rows)| == |rows| && Keys(Transcript(listing, began, length, result.pages)) == Keys(rows)
  {
    hide ScanOutcome, Shuffled, Keys, Transcript;
    PassInKeys(listing, began, length, result, rows);
    CompleteLeavesNothingOut(Keys(Transcript(listing, began, length, result.pages)), Keys(rows), |rows|);
  }

  /** The same, row by row: a complete scan holds every publication and every malformed row. */
  lemma CompleteHoldsEveryRow(listing: nat -> seq<Raw>, began: nat, length: nat, result: ScanResult, rows: seq<Raw>)
    requires ScanOutcome(listing, began, length, result)
    requires Shuffled(listing, began, began + result.pages, rows)
    requires result.Complete()
    ensures forall raw :: raw in rows ==>
      match raw case Good(row) => row.id in result.harvest.rows case Bad(e) => e in result.harvest.errors
    ensures HeldAsServed(result.harvest.rows, rows)
  {
    CompleteMeansEverything(listing, began, length, result, rows);
    PassInKeys(listing, began, length, result, rows);
    HeldRowsAreListed(listing, began, length, result, rows);
    hide ScanOutcome, Shuffled, Keys, Transcript, HeldAsServed;
    forall raw | raw in rows
      ensures match raw case Good(row) => row.id in result.harvest.rows case Bad(e) => e in result.harvest.errors
    {
      KeyMembership(rows, KeyOf(raw));
    }
  }

  /** Complete or not, a pass holds nothing but rows of the set. */
  lemma HeldRowsAreListed(listing: nat -> seq<Raw>, began: nat, length: nat, result: ScanResult, rows: seq<Raw>)
    requires ScanOutcome(listing, began, length, result)
    requires Shuffled(listing, began, began + result.pages, rows)
    ensures HeldAsServed(result.harvest.rows, rows)
  {
    hide HarvestOf, Transcript, Peak, Offset, Shuffled;
    var served := Transcript(listing, began, length, result.pages);
    HarvestServed(served);
    ServedIsListed(listing, began, length, result.pages, rows);
  }

  lemma KeysMonotone(a: seq<Raw>, b: seq<Raw>)
    requires forall raw :: raw in a ==> raw in b
    ensures Keys(a) <= Keys(b)
  {
    forall key | key in Keys(a) ensures key in Keys(b) {
      KeyMembership(a, key);
      KeyMembership(b, key);
      var k :| 0 <= k < |a| && KeyOf(a[k]) == key;
      assert a[k] in b;
    }
  }

  /** A source that keeps one order is covered on the first pass. */
  lemma {:induction false} SteadyTranscript(listing: nat -> seq<Raw>, began: nat, length: nat, pages: nat,
                                            rows: seq<Raw>)
    requires forall t: nat :: began <= t < began + pages ==> listing(t) == rows
    ensures Transcript(listing, began, length, pages) == rows[..Min(Offset(pages, length), |rows|)]
  {
    if pages > 0 {
      SteadyTranscript(listing, began, length, pages - 1, rows);
      assert listing(began + pages - 1) == rows;
    }
  }

  lemma SteadyScanCompletes(listing: nat -> seq<Raw>, began: nat, length: nat, result: ScanResult, rows: seq<Raw>)
    requires ScanOutcome(listing, began, length, result)
    requires forall t: nat :: began <= t < began + result.pages ==> listing(t) == rows
    ensures result.Complete() <==> |Keys(rows)| == |rows|
  {
    SteadyTranscript(listing, began, length, result.pages, rows);
    assert listing(began + result.pages - 1) == rows;
    assert rows[..|rows|] == rows;
    CompleteMeansEverything(listing, began, length, result, rows);
  }

  // ------------------------------------------------ what a row count would admit

  /** How many rows, repeats included, a pass was handed. */
  function RowCount(listing: nat -> seq<Raw>, began: nat, length: nat, pages: nat): nat {
    |Transcript(listing, began, length, pages)|
  }

  /** Two rows that every second request serves in the opposite order. */
  function Opposed(a: DocumentRow, b: DocumentRow): nat -> seq<Raw> {
    t => if t == 0 then [Good(a), Good(b)] else [Good(b), Good(a)]
  }

  /**
   The check this rule replaced: two rows, one per page, served in opposite
   orders. Two rows arrive for a count of two, and one is lost. Coverage by key
   refuses the same pass.
   */
  lemma RowCountAdmitsLoss(a: DocumentRow, b: DocumentRow)
    requires a.id != b.id
    ensures var listing := Opposed(a, b);
            var result := ScanResult(HarvestOf(Transcript(listing, 0, 1, 2)), Peak(listing, 0, 2), 2, 1);
            && Shuffled(listing, 0, 2, [Good(a), Good(b)])
            && ScanOutcome(listing, 0, 1, result)
            && RowCount(listing, 0, 1, 2) == result.recordsFiltered == 2
            && b.id !in result.harvest.rows
            && !result.Complete()
  {
    var listing, rows := Opposed(a, b), [Good(a), Good(b)];
    var served := Transcript(listing, 0, 1, 2);
    TwoPages(listing);
    assert served == [Good(a), Good(a)];
    OnlyOne(a);
    forall t: nat | t < 2 ensures multiset(listing(t)) == multiset(rows) {
    }
    PeakOfShuffled(listing, 0, 2, rows);
    assert Offset(2, 1) == 2 by {
      assert Offset(1, 1) == 1;
    }
  }

  lemma OnlyOne(a: DocumentRow)
    ensures HarvestOf([Good(a), Good(a)]) == Harvest(map[a.id := a], {})
  {
    var one: seq<Raw> := [Good(a)];
    var two: seq<Raw> := [Good(a), Good(a)];
    assert one[..0] == [] && two[..1] == one;
    assert HarvestOf(one) == HarvestOf([]).Add(Good(a));
    assert HarvestOf(two) == HarvestOf(one).Add(Good(a));
  }

  lemma TwoPages(listing: nat -> seq<Raw>)
    ensures Transcript(listing, 0, 1, 2) == Slice(listing(0), 0, 1) + Slice(listing(1), 1, 1)
  {
    assert Transcript(listing, 0, 1, 1) == [] + Slice(listing(0), 0, 1);
    assert Offset(1, 1) == Offset(0, 1) + 1;
  }
}
