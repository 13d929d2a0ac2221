/** Who loses to whom among related publications, and what of that the input order decides. */
module Correlate {
  import opened Base
  import opened Archive

  /** A manifest row with its identity. */
  datatype Doc = Doc(id: Id, row: Row)

  /** Text normalisation: `fold` strips and case-folds, `trim` only strips. */
  datatype Text = Text(fold: string -> string, trim: string -> string)

  datatype GroupKey =
    | SameId(document: int)
    | SameFiling(entity: int, category: string, docType: string, species: string, reference: string, format: string)

  /** The re-filing key, or nothing when the document has no reference date. */
  function FilingKey(text: Text, d: Doc): (key: Option<GroupKey>)
    ensures key.Some? ==> key.value.SameFiling?
  {
    if text.trim(d.row.reference) == "" then None
    else Some(SameFiling(d.row.entity, text.fold(d.row.facts.category), text.fold(d.row.facts.docType),
                         text.fold(d.row.facts.species), text.trim(d.row.reference), text.trim(d.row.referenceFormat)))
  }

  predicate InGroup(text: Text, d: Doc, key: GroupKey) {
    key == SameId(d.id.document) || FilingKey(text, d) == Some(key)
  }

  /** Two documents that may replace one another: same id, or same filing. */
  predicate Related(text: Text, a: Doc, b: Doc) {
    a.id.document == b.id.document || (FilingKey(text, a).Some? && FilingKey(text, a) == FilingKey(text, b))
  }

  ghost predicate DistinctDocs(docs: seq<Doc>) {
    forall i, j :: 0 <= i < j < |docs| ==> docs[i].id != docs[j].id
  }

  /** `groups` files every document under each of its keys, in order, and holds nothing else. */
  ghost predicate Grouped(text: Text, docs: seq<Doc>, groups: map<GroupKey, seq<Doc>>) {
    && (forall key :: key in groups ==>
          groups[key] != [] && forall d :: d in groups[key] ==> d in docs && InGroup(text, d, key))
    && (forall d, key :: d in docs && InGroup(text, d, key) ==> key in groups && d in groups[key])
  }

  function Filed(groups: map<GroupKey, seq<Doc>>, key: GroupKey, d: Doc): map<GroupKey, seq<Doc>> {
    groups[key := (if key in groups then groups[key] else []) + [d]]
  }

  method Group(text: Text, docs: seq<Doc>) returns (groups: map<GroupKey, seq<Doc>>)
    ensures Grouped(text, docs, groups)
  {
    groups := map[];
    for k := 0 to |docs|
      invariant Grouped(text, docs[..k], groups)
    {
      assert docs[..k + 1] == docs[..k] + [docs[k]];
      ghost var before := groups;
      groups := Filed(groups, SameId(docs[k].id.document), docs[k]);
      var key := FilingKey(text, docs[k]);
      if key.Some? {
        groups := Filed(groups, key.value, docs[k]);
      }
      GroupedStep(text, docs[..k], docs[k], before, groups);
    }
    assert docs[..|docs|] == docs;
  }

  lemma GroupedStep(text: Text, docs: seq<Doc>, d: Doc, before: map<GroupKey, seq<Doc>>, after: map<GroupKey, seq<Doc>>)
    requires Grouped(text, docs, before)
    requires var first := Filed(before, SameId(d.id.document), d);
             after == match FilingKey(text, d) case None => first case Some(key) => Filed(first, key, d)
    ensures Grouped(text, docs + [d], after)
  {
    forall e, key | e in docs + [d] && InGroup(text, e, key) ensures key in after && e in after[key] {
      if e in docs {
        assert key in before && e in before[key];
      }
    }
  }

  predicate Beats(a: Doc, b: Doc) {
    a.id.version > b.id.version || (a.id.version == b.id.version && a.id.document >= b.id.document)
  }

  /** The highest version wins its group; a tie goes to the later filing. */
  method Winner(members: seq<Doc>) returns (winner: Doc)
    requires members != []
    ensures winner in members && forall m :: m in members ==> Beats(winner, m)
  {
    winner := members[0];
    for k := 1 to |members|
      invariant winner in members && forall m :: m in members[..k] ==> Beats(winner, m)
    {
      assert members[..k + 1] == members[..k] + [members[k]];
      if !Beats(winner, members[k]) {
        winner := members[k];
      }
    }
    assert members[..|members|] == members;
  }

  /** `winner` leads one of the groups `d` is in. */
  ghost predicate Leads(text: Text, docs: seq<Doc>, d: Doc, winner: Doc) {
    exists key :: InGroup(text, d, key) && InGroup(text, winner, key) && Chief(text, docs, key, winner)
  }

  ghost predicate Chief(text: Text, docs: seq<Doc>, key: GroupKey, winner: Doc) {
    forall e :: e in docs && InGroup(text, e, key) ==> Beats(winner, e)
  }

  /** `winner` leads a group of the document called `id`, and outranks it. */
  ghost predicate Justified(text: Text, docs: seq<Doc>, id: Id, winner: Doc) {
    winner in docs && exists d :: d in docs && d.id == id && Outranks(text, winner, d) && Leads(text, docs, d, winner)
  }

  ghost predicate AllJustified(text: Text, docs: seq<Doc>, best: map<Id, Doc>) {
    forall id :: id in best ==> Justified(text, docs, id, best[id])
  }

  /** `best` answers for every pair of members of one group. */
  ghost predicate Settles(members: seq<Doc>, best: map<Id, Doc>) {
    forall d, e :: d in members && e in members && d.id.version < e.id.version ==>
      d.id in best && e.id.version <= best[d.id].id.version
  }

  /** What is known once the groups of `done` have been compared. */
  ghost predicate Compared(text: Text, docs: seq<Doc>, groups: map<GroupKey, seq<Doc>>, done: set<GroupKey>,
                           best: map<Id, Doc>) {
    AllJustified(text, docs, best) && forall key :: key in done && key in groups ==> Settles(groups[key], best)
  }

  predicate Outranks(text: Text, winner: Doc, loser: Doc) {
    Related(text, loser, winner) && loser.id.version < winner.id.version
  }

  /** Recorded winners are only ever replaced by higher versions. */
  ghost predicate Improves(before: map<Id, Doc>, after: map<Id, Doc>) {
    forall id :: id in before ==> id in after && before[id].id.version <= after[id].id.version
  }

  /** Record the losers of one group, keeping the highest version seen for each. */
  method CompareGroup(text: Text, docs: seq<Doc>, members: seq<Doc>, ghost key: GroupKey, best0: map<Id, Doc>)
    returns (best: map<Id, Doc>)
    requires members != [] && forall d :: d in members <==> d in docs && InGroup(text, d, key)
    requires AllJustified(text, docs, best0)
    ensures AllJustified(text, docs, best) && Improves(best0, best) && Settles(members, best)
  {
    hide FilingKey, Justified, InGroup, Settles;
    var winner := Winner(members);
    best := best0;
    for k := 0 to |members|
      invariant AllJustified(text, docs, best) && Improves(best0, best)
      invariant forall j :: 0 <= j < k && members[j].id.version < winner.id.version ==>
        members[j].id in best && winner.id.version <= best[members[j].id].id.version
    {
      var member := members[k];
      if member.id.version < winner.id.version {
        if member.id !in best || winner.id.version > best[member.id].id.version {
          Justify(text, docs, members, key, member, winner);
          best := best[member.id := winner];
        }
      }
    }
    SettledByWinner(members, winner, best);
  }

  lemma Justify(text: Text, docs: seq<Doc>, members: seq<Doc>, key: GroupKey, member: Doc, winner: Doc)
    requires forall d :: d in members <==> d in docs && InGroup(text, d, key)
    requires member in members && winner in members && member.id.version < winner.id.version
    requires forall m :: m in members ==> Beats(winner, m)
    ensures Justified(text, docs, member.id, winner)
  {
    hide FilingKey, InGroup;
    SameGroup(text, member, winner, key);
    assert Chief(text, docs, key, winner);
    assert Outranks(text, winner, member);
  }

  lemma SettledByWinner(members: seq<Doc>, winner: Doc, best: map<Id, Doc>)
    requires forall m :: m in members ==> Beats(winner, m)
    requires forall j :: 0 <= j < |members| && members[j].id.version < winner.id.version ==>
      members[j].id in best && winner.id.version <= best[members[j].id].id.version
    ensures Settles(members, best)
  {
  }

  lemma ImprovedStillSettles(members: seq<Doc>, before: map<Id, Doc>, after: map<Id, Doc>)
    requires Settles(members, before) && Improves(before, after)
    ensures Settles(members, after)
  {
  }

  lemma SameGroup(text: Text, a: Doc, b: Doc, key: GroupKey)
    requires InGroup(text, a, key) && InGroup(text, b, key)
    ensures Related(text, a, b)
  {
  }

  /**
   What `best` says of one document: it loses if and only if a related document has a
   higher version, and then to one that leads one of its groups and has the highest
   version in both.
   */
  ghost predicate Settled(text: Text, docs: seq<Doc>, best: map<Id, Doc>, d: Doc) {
    && (d.id in best <==> exists e :: e in docs && Outranks(text, e, d))
    && (d.id in best ==>
          && best[d.id] in docs && Outranks(text, best[d.id], d) && Leads(text, docs, d, best[d.id])
          && forall e :: e in docs && Related(text, d, e) ==> e.id.version <= best[d.id].id.version)
  }

  /** `best` is the exact answer: who loses, and to whom. */
  ghost predicate Exact(text: Text, docs: seq<Doc>, best: map<Id, Doc>) {
    && (forall d :: d in docs ==> Settled(text, docs, best, d))
    && (forall id :: id in best ==> exists d :: d in docs && d.id == id)
  }

  method Correlate(text: Text, docs: seq<Doc>) returns (best: map<Id, Doc>)
    requires DistinctDocs(docs)
    ensures Exact(text, docs, best)
  {
    hide Beats, Related, InGroup, FilingKey, AllJustified, Settles, Improves, Exact, Leads;
    var groups := Group(text, docs);
    best := map[];
    NothingYet(text, docs);
    var todo, done := groups.Keys, {};
    while todo != {}
      invariant todo + done == groups.Keys
      invariant Compared(text, docs, groups, done, best)
      decreases todo
    {
      var key :| key in todo;
      ghost var before := best;
      best := CompareGroup(text, docs, groups[key], key, best);
      forall other | other in done && other in groups ensures Settles(groups[other], best) {
        ImprovedStillSettles(groups[other], before, best);
      }
      todo, done := todo - {key}, done + {key};
    }
    ComparedIsExact(text, docs, groups, best);
  }

  lemma NothingYet(text: Text, docs: seq<Doc>)
    ensures AllJustified(text, docs, map[])
  {
  }

  lemma ComparedIsExact(text: Text, docs: seq<Doc>, groups: map<GroupKey, seq<Doc>>, best: map<Id, Doc>)
    requires DistinctDocs(docs) && Grouped(text, docs, groups) && Compared(text, docs, groups, groups.Keys, best)
    ensures Exact(text, docs, best)
  {
    hide Related, Grouped, Compared, Settled;
    forall d | d in docs ensures Settled(text, docs, best, d) {
      SettledByComparison(text, docs, groups, best, d);
    }
    forall id | id in best ensures exists d :: d in docs && d.id == id {
      LoserExists(text, docs, groups, best, id);
    }
  }

  lemma SettledByComparison(text: Text, docs: seq<Doc>, groups: map<GroupKey, seq<Doc>>, best: map<Id, Doc>, d: Doc)
    requires DistinctDocs(docs) && Grouped(text, docs, groups) && Compared(text, docs, groups, groups.Keys, best)
        && d in docs
    ensures Settled(text, docs, best, d)
  {
    hide Related, Grouped, Compared, Leads, DistinctDocs;
    if d.id in best {
      WinnerOutranks(text, docs, groups, best, d);
      forall e | e in docs && Related(text, d, e) ensures e.id.version <= best[d.id].id.version {
        if d.id.version < e.id.version {
          RivalIsBeaten(text, docs, groups, best, d, e);
        }
      }
    } else {
      forall e | e in docs ensures !Outranks(text, e, d) {
        if Outranks(text, e, d) {
          RivalIsBeaten(text, docs, groups, best, d, e);
        }
      }
    }
  }

  lemma LoserExists(text: Text, docs: seq<Doc>, groups: map<GroupKey, seq<Doc>>, best: map<Id, Doc>, id: Id)
    requires Compared(text, docs, groups, groups.Keys, best) && id in best
    ensures exists d :: d in docs && d.id == id && Outranks(text, best[id], d)
  {
    hide Outranks, Settles, Leads;
    assert Justified(text, docs, id, best[id]);
  }

  lemma WinnerOutranks(text: Text, docs: seq<Doc>, groups: map<GroupKey, seq<Doc>>, best: map<Id, Doc>, d: Doc)
    requires DistinctDocs(docs) && Compared(text, docs, groups, groups.Keys, best) && d in docs && d.id in best
    ensures best[d.id] in docs && Outranks(text, best[d.id], d) && Leads(text, docs, d, best[d.id])
  {
    hide Outranks, Settles, Leads;
    assert Justified(text, docs, d.id, best[d.id]);
    var e :| e in docs && e.id == d.id && Outranks(text, best[d.id], e) && Leads(text, docs, e, best[d.id]);
    assert e == d;
  }

  lemma RivalIsBeaten(text: Text, docs: seq<Doc>, groups: map<GroupKey, seq<Doc>>, best: map<Id, Doc>, d: Doc, e: Doc)
    requires Grouped(text, docs, groups) && Compared(text, docs, groups, groups.Keys, best)
    requires d in docs && e in docs && Outranks(text, e, d)
    ensures d.id in best && e.id.version <= best[d.id].id.version
  {
    hide AllJustified, Grouped;
    CommonGroup(text, docs, groups, d, e);
    var key :| key in groups && d in groups[key] && e in groups[key];
    assert Settles(groups[key], best);
  }

  lemma CommonGroup(text: Text, docs: seq<Doc>, groups: map<GroupKey, seq<Doc>>, d: Doc, e: Doc)
    requires Grouped(text, docs, groups) && d in docs && e in docs && Related(text, d, e)
    ensures exists key :: key in groups && d in groups[key] && e in groups[key]
  {
    var key := if d.id.document == e.id.document then SameId(d.id.document) else FilingKey(text, d).value;
    assert InGroup(text, d, key) && InGroup(text, e, key);
  }

  /** The losers and the winning versions do not depend on the order of the input. */
  lemma OrderIndependent(text: Text, a: seq<Doc>, b: seq<Doc>, bestA: map<Id, Doc>, bestB: map<Id, Doc>)
    requires Exact(text, a, bestA) && Exact(text, b, bestB)
    requires forall d :: d in a <==> d in b
    ensures bestA.Keys == bestB.Keys
    ensures forall id :: id in bestA ==> bestA[id].id.version == bestB[id].id.version
  {
    hide Settled;
    forall id ensures id in bestA ==> id in bestB && bestA[id].id.version == bestB[id].id.version {
      if id in bestA {
        var d :| d in a && d.id == id;
        SameVerdict(text, a, b, bestA, bestB, d);
      }
    }
    forall id ensures id in bestB ==> id in bestA {
      if id in bestB {
        var d :| d in b && d.id == id;
        SameVerdict(text, a, b, bestA, bestB, d);
      }
    }
  }

  lemma SameVerdict(text: Text, a: seq<Doc>, b: seq<Doc>, bestA: map<Id, Doc>, bestB: map<Id, Doc>, d: Doc)
    requires Settled(text, a, bestA, d) && Settled(text, b, bestB, d)
    requires forall e :: e in a <==> e in b
    ensures d.id in bestA <==> d.id in bestB
    ensures d.id in bestA ==> bestA[d.id].id.version == bestB[d.id].id.version
  {
    hide Related, Leads;
  }

  /** `e` leads the versions of `d`'s own id and `f` its filing, on equal terms. */
  ghost predicate Tie(text: Text, docs: seq<Doc>, d: Doc, e: Doc, f: Doc) {
    && e in docs && f in docs && e != f && e.id.version == f.id.version
    && e.id.document == d.id.document && Chief(text, docs, SameId(d.id.document), e)
    && FilingKey(text, d).Some? && FilingKey(text, f) == FilingKey(text, d)
    && Chief(text, docs, FilingKey(text, d).value, f)
  }

  /**
   Which document is named as winner may depend on the order, but only when the
   loser's two groups have different leaders of the same version ...
   */
  lemma OnlyTiesDependOnOrder(text: Text, a: seq<Doc>, b: seq<Doc>, bestA: map<Id, Doc>, bestB: map<Id, Doc>, d: Doc)
    requires Exact(text, a, bestA) && Exact(text, b, bestB) && DistinctDocs(a)
    requires forall e :: e in a <==> e in b
    requires d in a && d.id in bestA && d.id in bestB && bestA[d.id] != bestB[d.id]
    ensures exists e, f :: Tie(text, a, d, e, f)
  {
    OrderIndependent(text, a, b, bestA, bestB);
    WinnerLeads(text, a, bestA, d);
    WinnerLeads(text, b, bestB, d);
    hide Exact, Beats, FilingKey, DistinctDocs, Chief, Tie, InGroup;
    var p, q := bestA[d.id], bestB[d.id];
    assert p.id.version == q.id.version && q in a;
    var j :| InGroup(text, d, j) && InGroup(text, p, j) && Chief(text, a, j, p);
    var k :| InGroup(text, d, k) && InGroup(text, q, k) && Chief(text, b, k, q);
    ChiefAnyway(text, a, b, k, q);
    DifferentLeaders(text, a, d, p, q, j, k);
  }

  lemma ChiefAnyway(text: Text, a: seq<Doc>, b: seq<Doc>, key: GroupKey, winner: Doc)
    requires Chief(text, b, key, winner) && forall e :: e in a <==> e in b
    ensures Chief(text, a, key, winner)
  {
    hide InGroup, Beats;
  }

  lemma DifferentLeaders(text: Text, docs: seq<Doc>, d: Doc, p: Doc, q: Doc, j: GroupKey, k: GroupKey)
    requires DistinctDocs(docs) && p in docs && q in docs && p != q && p.id.version == q.id.version
    requires InGroup(text, d, j) && InGroup(text, p, j) && Chief(text, docs, j, p)
    requires InGroup(text, d, k) && InGroup(text, q, k) && Chief(text, docs, k, q)
    ensures exists e, f :: Tie(text, docs, d, e, f)
  {
    hide Chief, FilingKey, DistinctDocs;
    if j == k {
      OneChief(text, docs, j, p, q);
    } else if j == SameId(d.id.document) {
      assert Tie(text, docs, d, p, q);
    } else {
      assert Tie(text, docs, d, q, p);
    }
  }

  lemma WinnerLeads(text: Text, docs: seq<Doc>, best: map<Id, Doc>, d: Doc)
    requires Exact(text, docs, best) && d in docs && d.id in best
    ensures best[d.id] in docs && Leads(text, docs, d, best[d.id])
  {
    hide Related, Leads;
  }

  lemma OneChief(text: Text, docs: seq<Doc>, key: GroupKey, p: Doc, q: Doc)
    requires DistinctDocs(docs) && p in docs && q in docs && InGroup(text, p, key) && InGroup(text, q, key)
    requires Chief(text, docs, key, p) && Chief(text, docs, key, q)
    ensures p == q
  {
    hide InGroup;
    assert Beats(p, q) && Beats(q, p);
    assert p.id == q.id;
  }

  /** ... and then either will do: any leader of the right version is an exact answer. */
  lemma EitherLeaderWillDo(text: Text, docs: seq<Doc>, best: map<Id, Doc>, d: Doc, winner: Doc)
    requires Exact(text, docs, best) && DistinctDocs(docs) && d in docs && d.id in best
    requires winner in docs && winner.id.version == best[d.id].id.version && Leads(text, docs, d, winner)
    ensures Exact(text, docs, best[d.id := winner])
  {
    hide Settled, Leads, Tie;
    LeaderSettles(text, docs, best, d, winner);
    forall other | other in docs ensures Settled(text, docs, best[d.id := winner], other) {
      if other != d {
        OthersStaySettled(text, docs, best, d, other, winner);
      }
    }
  }

  lemma OthersStaySettled(text: Text, docs: seq<Doc>, best: map<Id, Doc>, d: Doc, other: Doc, winner: Doc)
    requires DistinctDocs(docs) && d in docs && other in docs && other != d && Settled(text, docs, best, other)
    ensures Settled(text, docs, best[d.id := winner], other)
  {
    hide Leads, Related;
    assert other.id != d.id;
  }

  lemma LeaderSettles(text: Text, docs: seq<Doc>, best: map<Id, Doc>, d: Doc, winner: Doc)
    requires Settled(text, docs, best, d) && d in docs && d.id in best
    requires winner in docs && winner.id.version == best[d.id].id.version && Leads(text, docs, d, winner)
    ensures Settled(text, docs, best[d.id := winner], d)
  {
    hide Chief, FilingKey;
  }
}
