/**
 Safety over whole histories.

 A run is the sequence of effects it would issue; a crash keeps a prefix of it.
 A history is any number of such runs, each starting where the last one died.
 */
module Traces {
  import opened Base
  import opened Clock
  import opened Listing
  import opened Archive
  import opened Safety
  import Naming

  function Replay(s: Store, log: seq<Effect>): Store {
    if log == [] then s else Apply(Replay(s, log[..|log| - 1]), log[|log| - 1])
  }

  ghost predicate Allowed(accepts: Bytes -> bool, s: Store, log: seq<Effect>) {
    log == [] || (Allowed(accepts, s, log[..|log| - 1]) && May(accepts, Replay(s, log[..|log| - 1]), log[|log| - 1]))
  }

  lemma {:induction false} ReplayConcat(s: Store, a: seq<Effect>, b: seq<Effect>)
    ensures Replay(s, a + b) == Replay(Replay(s, a), b)
  {
    if b == [] {
      assert a + b == a;
    } else {
      ReplayConcat(s, a, b[..|b| - 1]);
      assert (a + b)[..|a + b| - 1] == a + b[..|b| - 1];
    }
  }

  lemma {:induction false} AllowedConcat(accepts: Bytes -> bool, s: Store, a: seq<Effect>, b: seq<Effect>)
    ensures Allowed(accepts, s, a + b) <==> Allowed(accepts, s, a) && Allowed(accepts, Replay(s, a), b)
  {
    hide May, Apply;
    if b == [] {
      assert a + b == a;
    } else {
      AllowedConcat(accepts, s, a, b[..|b| - 1]);
      ReplayConcat(s, a, b[..|b| - 1]);
      assert (a + b)[..|a + b| - 1] == a + b[..|b| - 1];
    }
  }

  lemma AllowedPrefix(accepts: Bytes -> bool, s: Store, log: seq<Effect>, k: nat)
    requires Allowed(accepts, s, log) && k <= |log|
    ensures Allowed(accepts, s, log[..k])
    ensures Allowed(accepts, Replay(s, log[..k]), log[k..]) && Replay(s, log) == Replay(Replay(s, log[..k]), log[k..])
  {
    assert log == log[..k] + log[k..];
    AllowedConcat(accepts, s, log[..k], log[k..]);
    ReplayConcat(s, log[..k], log[k..]);
  }

  /** The invariant holds at every point at which a run may die. */
  lemma {:induction false} EveryCrashPointIsSound(accepts: Bytes -> bool, s: Store, log: seq<Effect>, k: nat)
    requires Inv(accepts, s) && Allowed(accepts, s, log) && k <= |log|
    ensures Inv(accepts, Replay(s, log[..k]))
  {
    hide Inv, May, Apply;
    if k > 0 {
      EveryCrashPointIsSound(accepts, s, log, k - 1);
      AllowedPrefix(accepts, s, log, k);
      assert log[..k][..k - 1] == log[..k - 1];
      EffectKeeps(accepts, Replay(s, log[..k - 1]), log[k - 1]);
    }
  }

  // ------------------------------------------------------------------ histories

  /** One process: what it would have done, and how far it got. */
  datatype Run = Run(log: seq<Effect>, cut: nat)

  function Survived(run: Run): seq<Effect> {
    run.log[..Min(run.cut, |run.log|)]
  }

  function After(runs: seq<Run>): Store {
    if runs == [] then EMPTY else Replay(After(runs[..|runs| - 1]), Survived(runs[|runs| - 1]))
  }

  ghost predicate History(accepts: Bytes -> bool, runs: seq<Run>) {
    runs == [] || (History(accepts, runs[..|runs| - 1])
      && Allowed(accepts, After(runs[..|runs| - 1]), runs[|runs| - 1].log))
  }

  lemma EmptyIsSound(accepts: Bytes -> bool)
    ensures Inv(accepts, EMPTY)
  {
  }

  /** Any number of runs, each dying anywhere, leaves a sound store. */
  lemma {:induction false} HistoryIsSound(accepts: Bytes -> bool, runs: seq<Run>)
    requires History(accepts, runs)
    ensures Inv(accepts, After(runs))
  {
    hide Inv;
    if runs == [] {
      EmptyIsSound(accepts);
    } else {
      HistoryIsSound(accepts, runs[..|runs| - 1]);
      var run := runs[|runs| - 1];
      EveryCrashPointIsSound(accepts, After(runs[..|runs| - 1]), run.log, Min(run.cut, |run.log|));
    }
  }

  /** The effects that actually happened, over all runs. */
  function Happened(runs: seq<Run>): seq<Effect> {
    if runs == [] then [] else Happened(runs[..|runs| - 1]) + Survived(runs[|runs| - 1])
  }

  /** A history is one allowed trace from the empty store. */
  lemma {:induction false} HistoryIsATrace(accepts: Bytes -> bool, runs: seq<Run>)
    requires History(accepts, runs)
    ensures Allowed(accepts, EMPTY, Happened(runs)) && Replay(EMPTY, Happened(runs)) == After(runs)
  {
    if runs != [] {
      var init, run := runs[..|runs| - 1], runs[|runs| - 1];
      HistoryIsATrace(accepts, init);
      AllowedPrefix(accepts, After(init), run.log, Min(run.cut, |run.log|));
      AllowedConcat(accepts, EMPTY, Happened(init), Survived(run));
      ReplayConcat(EMPTY, Happened(init), Survived(run));
    }
  }

  // ------------------------------------------------------------- what only grows

  /** How far along its one-way street a filed row is. */
  function Rank(state: State): nat {
    match state
    case Available => 1
    case Superseded => 2
    case Purged => 3
    case _ => 0
  }

  predicate MarkGrows(was: Option<Id>, now: Option<Id>) {
    was.None? ||
    (now.Some? && (was.value.version < now.value.version
                   || (was.value.version == now.value.version && was.value.document <= now.value.document)))
  }

  predicate RowGrows(was: Row, now: Row) {
    && now.entity == was.entity && now.delivery == was.delivery
    && now.reference == was.reference && now.referenceFormat == was.referenceFormat
    && (was.landed ==> now.landed && Rank(was.state) <= Rank(now.state))
    && (was.purged ==> now == was.(facts := now.facts, supersededBy := now.supersededBy))
    && MarkGrows(was.supersededBy, now.supersededBy)
  }

  /** Rows are never deleted, filed rows never go back, and no ledger is rewritten. */
  ghost predicate Grows(s: Store, t: Store) {
    && (forall id :: id in s.documents ==> id in t.documents && RowGrows(s.documents[id], t.documents[id]))
    && s.attempts <= t.attempts
    && s.requests <= t.requests
    && s.horizon <= t.horizon
    && s.clock <= t.clock
    && s.watermarks <= t.watermarks
    && (forall k :: k in s.cursors ==> k in t.cursors && s.cursors[k] <= t.cursors[k])
    && (forall id :: id in s.heirs ==> id in t.heirs)
  }

  lemma GrowsTransitive(s: Store, t: Store, u: Store)
    requires Grows(s, t) && Grows(t, u)
    ensures Grows(s, u)
  {
    hide RowGrows;
    forall id | id in s.documents ensures id in u.documents && RowGrows(s.documents[id], u.documents[id]) {
      RowGrowsTransitive(s.documents[id], t.documents[id], u.documents[id]);
    }
  }

  lemma RowGrowsTransitive(a: Row, b: Row, c: Row)
    requires RowGrows(a, b) && RowGrows(b, c)
    ensures RowGrows(a, c)
  {
  }

  lemma PutGrows(s: Store, id: Id, now: Row)
    requires id in s.documents ==> RowGrows(s.documents[id], now)
    ensures Grows(s, Put(s, id, now))
  {
  }

  lemma StatementGrows(accepts: Bytes -> bool, s: Store, q: Sql)
    requires Inv(accepts, s) && MayExecute(s, q)
    ensures Grows(s, Execute(s, q))
  {
    hide Inv, Grows;
    match q
    case Upsert(row, entity) =>
      if row.id in s.documents {
        RowFacts(accepts, s, row.id);
        PutGrows(s, row.id, Rediscovered(s.documents[row.id], row));
      } else {
        PutGrows(s, row.id, Fresh(row, entity));
      }
    case SetState(id, state) =>
      RowFacts(accepts, s, id);
      PutGrows(s, id, s.documents[id].(state := state));
    case SetTarget(id, path, extension) =>
      RowFacts(accepts, s, id);
      PutGrows(s, id, if s.documents[id].state == Downloading
                      then s.documents[id].(path := Some(path), extension := Some(extension)) else s.documents[id]);
      SelfGrows(s);
    case MarkAvailable(id, path, extension, digest) =>
      RowFacts(accepts, s, id);
      PutGrows(s, id, s.documents[id].(state := Available, path := Some(path), extension := Some(extension),
                                       digest := Some(digest), landed := true, purged := false));
    case MarkSuperseded(loser, winner) =>
      PutGrows(s, loser, Marked(s.documents[loser], winner));
    case MarkRemoved(id) =>
      RowFacts(accepts, s, id);
      PutGrows(s, id, s.documents[id].(state := Superseded, path := None));
    case MarkPurged(before, spared) => PurgeGrows(accepts, s, before, spared);
    case AbandonOutside(keep) => AbandonGrows(accepts, s, keep);
    case RecordAttempt(_, _) => LedgerGrows(s, Execute(s, q));
    case AdvanceWatermark(_, _) => LedgerGrows(s, Execute(s, q));
    case RecordError(_) => LedgerGrows(s, Execute(s, q));
    case AdvanceCursor(_, _) => LedgerGrows(s, Execute(s, q));
  }

  lemma LedgerGrows(s: Store, t: Store)
    requires t == s.(attempts := t.attempts, sync := t.sync, cursors := t.cursors, watermarks := t.watermarks)
    requires s.attempts <= t.attempts && s.watermarks <= t.watermarks
    requires forall k :: k in s.cursors ==> k in t.cursors && s.cursors[k] <= t.cursors[k]
    ensures Grows(s, t)
  {
  }

  lemma SelfGrows(s: Store)
    ensures Grows(s, s)
  {
  }

  lemma PurgeGrows(accepts: Bytes -> bool, s: Store, before: int, spared: set<int>)
    requires Inv(accepts, s)
    ensures Grows(s, Execute(s, MarkPurged(before, spared)))
  {
    hide Inv, DayText, TextLess;
    forall id | id in s.documents ensures RowGrows(s.documents[id], Purge(s.documents[id], before, spared)) {
      RowFacts(accepts, s, id);
    }
  }

  lemma AbandonGrows(accepts: Bytes -> bool, s: Store, keep: set<int>)
    requires Inv(accepts, s)
    ensures Grows(s, Execute(s, AbandonOutside(keep)))
  {
    hide Inv;
    forall id | id in s.documents ensures RowGrows(s.documents[id], Abandon(s.documents[id], keep)) {
      RowFacts(accepts, s, id);
    }
  }

  lemma OneStatement(s: Store, q: Sql)
    ensures ExecuteAll(s, [q]) == Execute(s, q)
    ensures MayExecuteAll(s, [q]) <==> MayExecute(s, q)
  {
    hide Execute, MayExecute;
    var one := [q];
    assert one[..0] == [] && one[|one| - 1] == q;
  }

  lemma {:induction false} TransactionGrows(accepts: Bytes -> bool, s: Store, qs: seq<Sql>)
    requires Inv(accepts, s) && MayExecuteAll(s, qs)
    ensures Grows(s, ExecuteAll(s, qs))
  {
    hide Inv, Grows, MayExecute, Execute;
    if qs == [] {
      SelfGrows(s);
    } else {
      var init := qs[..|qs| - 1];
      TransactionGrows(accepts, s, init);
      TransactionKeeps(accepts, s, init);
      StatementGrows(accepts, ExecuteAll(s, init), qs[|qs| - 1]);
      GrowsTransitive(s, ExecuteAll(s, init), ExecuteAll(s, qs));
    }
  }

  lemma EffectGrows(accepts: Bytes -> bool, s: Store, e: Effect)
    requires Inv(accepts, s) && May(accepts, s, e)
    ensures Grows(s, Apply(s, e))
  {
    hide Inv, MayExecuteAll, ExecuteAll;
    if e.Commit? {
      TransactionGrows(accepts, s, e.statements);
    }
  }

  lemma {:induction false} TraceGrows(accepts: Bytes -> bool, s: Store, log: seq<Effect>)
    requires Inv(accepts, s) && Allowed(accepts, s, log)
    ensures Grows(s, Replay(s, log))
  {
    hide Inv, Grows, May, Apply;
    if log == [] {
      SelfGrows(s);
    } else {
      var init := log[..|log| - 1];
      TraceGrows(accepts, s, init);
      EveryCrashPointIsSound(accepts, s, log, |log| - 1);
      EffectGrows(accepts, Replay(s, init), log[|log| - 1]);
      GrowsTransitive(s, Replay(s, init), Replay(s, log));
    }
  }

  /** The store after `k` effects of a trace precedes, in every ledger, the store after `j >= k`. */
  lemma PointsGrow(accepts: Bytes -> bool, s: Store, log: seq<Effect>, k: nat, j: nat)
    requires Inv(accepts, s) && Allowed(accepts, s, log) && k <= j <= |log|
    ensures Grows(Replay(s, log[..k]), Replay(s, log[..j]))
  {
    hide Inv, Grows;
    AllowedPrefix(accepts, s, log, j);
    AllowedPrefix(accepts, s, log[..j], k);
    assert log[..j][..k] == log[..k];
    EveryCrashPointIsSound(accepts, s, log, k);
    TraceGrows(accepts, Replay(s, log[..k]), log[..j][k..]);
  }

  // --------------------------------------------------------- filed at most once

  /**
   Filed at most once. Once a publication is available it is only ever available,
   superseded or purged, in that order; it is never requested again; and whatever
   happens it has at most one recorded success.
   */
  lemma FiledAtMostOnce(accepts: Bytes -> bool, s: Store, log: seq<Effect>, k: nat, j: nat, id: Id)
    requires Inv(accepts, s) && Allowed(accepts, s, log) && k <= j <= |log|
    requires InState(Replay(s, log[..k]), id, Available)
    ensures var t := Replay(s, log[..j]);
            && Landed(t, id) && t.documents[id].state in {Available, Superseded, Purged}
            && (t.documents[id].state == Available ==>
                  forall m :: k <= m <= j ==> InState(Replay(s, log[..m]), id, Available))
            && Successes(t.attempts, id) <= 1
            && (t.documents[id].purged <==> t.documents[id].state == Purged)
    ensures j < |log| ==> log[j] != Request(id)
  {
    hide Inv, Allowed;
    EveryCrashPointIsSound(accepts, s, log, k);
    EveryCrashPointIsSound(accepts, s, log, j);
    PointsGrow(accepts, s, log, k, j);
    var t := Replay(s, log[..j]);
    LandedFacts(accepts, Replay(s, log[..k]), id);
    LandedFacts(accepts, t, id);
    if t.documents[id].state == Available {
      forall m | k <= m <= j ensures InState(Replay(s, log[..m]), id, Available) {
        StaysBetween(accepts, s, log, k, m, j, id);
      }
    }
    if j < |log| {
      NextIsAllowed(accepts, s, log, j);
    }
  }

  lemma LandedFacts(accepts: Bytes -> bool, s: Store, id: Id)
    requires Inv(accepts, s)
    ensures InState(s, id, Available) ==> Landed(s, id)
    ensures Landed(s, id) ==> s.documents[id].state in {Available, Superseded, Purged} && !IsPending(s, id)
    ensures id in s.documents ==> (s.documents[id].purged <==> s.documents[id].state == Purged)
    ensures Failures(s.attempts, id) <= MAX_ATTEMPTS_PER_DOCUMENT || Undated(s, id)
    ensures Landed(s, id) ==> !Undated(s, id)
    ensures Successes(s.attempts, id) <= 1
  {
    hide PathsNamed, FilesOwned, Kept, HeirsSound, MarksSound, WatermarksSound, Failures, Successes;
  }

  lemma StaysBetween(accepts: Bytes -> bool, s: Store, log: seq<Effect>, k: nat, m: nat, j: nat, id: Id)
    requires Inv(accepts, s) && Allowed(accepts, s, log) && k <= m <= j <= |log|
    requires InState(Replay(s, log[..k]), id, Available) && InState(Replay(s, log[..j]), id, Available)
    ensures InState(Replay(s, log[..m]), id, Available)
  {
    hide Inv;
    PointsGrow(accepts, s, log, k, m);
    PointsGrow(accepts, s, log, m, j);
    EveryCrashPointIsSound(accepts, s, log, k);
    EveryCrashPointIsSound(accepts, s, log, m);
    LandedFacts(accepts, Replay(s, log[..k]), id);
    LandedFacts(accepts, Replay(s, log[..m]), id);
  }

  lemma NextIsAllowed(accepts: Bytes -> bool, s: Store, log: seq<Effect>, j: nat)
    requires Allowed(accepts, s, log) && j < |log|
    ensures May(accepts, Replay(s, log[..j]), log[j])
  {
    hide May, Apply;
    AllowedPrefix(accepts, s, log, j + 1);
    assert log[..j + 1][..j] == log[..j];
  }

  // --------------------------------------------------------------- retry budget

  lemma {:induction false} FailuresGrow(a: seq<Attempt>, b: seq<Attempt>, id: Id)
    requires a <= b
    ensures Failures(a, id) <= Failures(b, id)
  {
    if |a| < |b| {
      FailuresGrow(a, b[..|b| - 1], id);
    } else {
      assert a == b;
    }
  }

  /**
   The failure budget over all runs and crashes: unless its date is unusable, at most
   five attempts that consume it; and a publication that has used them up, or has no
   usable date, is never requested again.
   */
  lemma ExhaustedIsFinal(accepts: Bytes -> bool, s: Store, log: seq<Effect>, k: nat, j: nat, id: Id)
    requires Inv(accepts, s) && Allowed(accepts, s, log) && k <= j <= |log|
    ensures !Undated(Replay(s, log[..j]), id)
        ==> Failures(Replay(s, log[..j]).attempts, id) <= MAX_ATTEMPTS_PER_DOCUMENT
    ensures j < |log| && Undated(Replay(s, log[..k]), id) ==> log[j] != Request(id)
    ensures j < |log| && Failures(Replay(s, log[..k]).attempts, id) >= MAX_ATTEMPTS_PER_DOCUMENT
        ==> log[j] != Request(id)
  {
    hide Inv;
    EveryCrashPointIsSound(accepts, s, log, j);
    LandedFacts(accepts, Replay(s, log[..j]), id);
    PointsGrow(accepts, s, log, k, j);
    FailuresGrow(Replay(s, log[..k]).attempts, Replay(s, log[..j]).attempts, id);
    if j < |log| {
      NextIsAllowed(accepts, s, log, j);
    }
  }

  /** `count` attempts, one after another, that consume the budget of a publication without a usable date. */
  function Tries(id: Id, count: nat): seq<Effect> {
    if count == 0 then [] else Tries(id, count - 1) + [Commit([RecordAttempt(id, Error)])]
  }

  lemma TryOnce(accepts: Bytes -> bool, s: Store, id: Id)
    requires Undated(s, id)
    ensures var e := Commit([RecordAttempt(id, Error)]);
            && May(accepts, s, e) && Apply(s, e) == s.(attempts := Apply(s, e).attempts)
            && Failures(Apply(s, e).attempts, id) == Failures(s.attempts, id) + 1
  {
    hide Failures, Successes, ExecuteAll, MayExecuteAll;
    OneStatement(s, RecordAttempt(id, Error));
    AppendAttempt(s.attempts, Attempt(id, Error), id);
  }

  lemma {:induction false} TriesAddUp(accepts: Bytes -> bool, s: Store, id: Id, count: nat)
    requires Undated(s, id)
    ensures var t := Replay(s, Tries(id, count));
            && Allowed(accepts, s, Tries(id, count)) && t == s.(attempts := t.attempts)
            && Failures(t.attempts, id) == Failures(s.attempts, id) + count
  {
    hide Failures, Successes, May, Apply;
    if count > 0 {
      TriesAddUp(accepts, s, id, count - 1);
      assert Tries(id, count)[..|Tries(id, count - 1)|] == Tries(id, count - 1);
      TryOnce(accepts, Replay(s, Tries(id, count - 1)), id);
    }
  }

  /** Where a row was delivered, and so whether its date is usable, never changes. */
  lemma DatesStand(accepts: Bytes -> bool, s: Store, log: seq<Effect>, id: Id)
    requires Inv(accepts, s) && Allowed(accepts, s, log) && id in s.documents
    ensures Undated(Replay(s, log), id) <==> Undated(s, id)
  {
    hide Inv, Replay, Allowed;
    TraceGrows(accepts, s, log);
    assert RowGrows(s.documents[id], Replay(s, log).documents[id]);
  }

  /**
   Exactly when the budget holds: the attempts a pending publication can accumulate are
   bounded by it if and only if its delivery date has a four-digit year.
   */
  lemma BudgetHoldsExactlyWhenDated(accepts: Bytes -> bool, s: Store, id: Id)
    requires Inv(accepts, s) && IsPending(s, id)
    ensures Padded(s.documents[id].delivery) <==>
            forall log :: Allowed(accepts, s, log)
              ==> Failures(Replay(s, log).attempts, id) <= MAX_ATTEMPTS_PER_DOCUMENT
  {
    hide Inv, Replay, Allowed, Failures;
    if Undated(s, id) {
      var log := Tries(id, MAX_ATTEMPTS_PER_DOCUMENT + 1);
      TriesAddUp(accepts, s, id, MAX_ATTEMPTS_PER_DOCUMENT + 1);
      assert Allowed(accepts, s, log);
    } else {
      forall log | Allowed(accepts, s, log) ensures Failures(Replay(s, log).attempts, id) <= MAX_ATTEMPTS_PER_DOCUMENT {
        assert log[..|log|] == log;
        ExhaustedIsFinal(accepts, s, log, |log|, |log|, id);
        DatesStand(accepts, s, log, id);
      }
    }
  }

  // ----------------------------------------------------------------- survivors

  /** A publication a reader can open right now. */
  predicate Readable(s: Store, id: Id) {
    InState(s, id, Available) && OnDisk(s, id)
  }

  predicate AgedOut(s: Store, id: Id) {
    id in s.documents && s.documents[id].delivery < s.horizon
  }

  /** `chain` follows the recorded heirs, one strictly later version after another. */
  ghost predicate Succession(heirs: map<Id, Id>, chain: seq<Id>) {
    && chain != []
    && forall i :: 0 <= i < |chain| - 1 ==>
         chain[i] in heirs && chain[i + 1] == heirs[chain[i]] && chain[i].version < chain[i + 1].version
  }

  lemma {:induction false} VersionBound(ids: set<Id>) returns (bound: int)
    ensures forall id :: id in ids ==> id.version <= bound
    decreases |ids|
  {
    if ids == {} {
      bound := 0;
    } else {
      var id :| id in ids;
      var rest := VersionBound(ids - {id});
      bound := Max(rest, id.version);
      forall other | other in ids ensures other.version <= bound {
        assert other == id || other in ids - {id};
      }
    }
  }

  lemma {:induction false} FollowHeirs(accepts: Bytes -> bool, s: Store, id: Id, bound: int) returns (chain: seq<Id>)
    requires Inv(accepts, s) && Landed(s, id)
    requires forall other :: other in s.heirs ==> s.heirs[other].version <= bound
    ensures Succession(s.heirs, chain) && chain[0] == id
    ensures var last := chain[|chain| - 1]; Readable(s, last) || AgedOut(s, last)
    decreases bound - id.version
  {
    hide Inv, OnDisk;
    if AgedOut(s, id) || Readable(s, id) {
      chain := [id];
    } else {
      HeirOf(accepts, s, id);
      var rest := FollowHeirs(accepts, s, s.heirs[id], bound);
      chain := [id] + rest;
    }
  }

  /** A filed row that cannot be read and has not aged out was deleted for a landed heir. */
  lemma HeirOf(accepts: Bytes -> bool, s: Store, id: Id)
    requires Inv(accepts, s) && Landed(s, id) && !AgedOut(s, id) && !Readable(s, id)
    ensures id in s.heirs && Landed(s, s.heirs[id]) && id.version < s.heirs[id].version
  {
    hide PathsNamed, FilesOwned, MarksSound, AttemptsSound, WatermarksSound;
    assert s.documents[id].state in {Available, Superseded, Purged};
    assert InState(s, id, Available) ==> id in s.heirs;
  }

  /**
   Never left with neither copy, at any instant of any history: from every
   publication that was ever filed, following the recorded heirs through strictly
   later versions reaches one that is readable now, or one that retention took.
   */
  lemma SomethingSurvives(accepts: Bytes -> bool, s: Store, id: Id) returns (chain: seq<Id>)
    requires Inv(accepts, s) && Landed(s, id)
    ensures Succession(s.heirs, chain) && chain[0] == id
    ensures var last := chain[|chain| - 1]; Readable(s, last) || AgedOut(s, last)
  {
    hide Inv;
    var bound := VersionBound(s.heirs.Values);
    chain := FollowHeirs(accepts, s, id, bound);
  }

  /** For rows whose deletion was consolidated the heir is the recorded `superseded_by`. */
  lemma SweptRowsNameTheirHeir(accepts: Bytes -> bool, s: Store, id: Id)
    requires Inv(accepts, s) && Landed(s, id) && s.documents[id].state == Superseded
    ensures id in s.heirs && s.documents[id].supersededBy == Some(s.heirs[id])
    ensures var heir := s.heirs[id]; Landed(s, heir) && s.documents[heir].state in {Available, Superseded, Purged}
  {
    hide PathsNamed, FilesOwned, MarksSound, AttemptsSound, WatermarksSound, Kept, PurgedSound;
  }

  /**
   The same in the manifest's own columns: from a row that was swept, following
   `superseded_by` through swept rows reaches one that is available or aged out.
   */
  lemma FollowMarks(accepts: Bytes -> bool, s: Store, id: Id) returns (chain: seq<Id>)
    requires Inv(accepts, s) && Landed(s, id)
    ensures chain != [] && chain[0] == id
    ensures forall i :: 0 <= i < |chain| - 1 ==>
              InState(s, chain[i], Superseded) && s.documents[chain[i]].supersededBy == Some(chain[i + 1])
    ensures var last := chain[|chain| - 1];
            InState(s, last, Available) || (InState(s, last, Purged) && AgedOut(s, last))
  {
    hide Inv;
    var bound := VersionBound(s.heirs.Values);
    chain := FollowMarksUpTo(accepts, s, id, bound);
  }

  lemma {:induction false} FollowMarksUpTo(accepts: Bytes -> bool, s: Store, id: Id, bound: int)
    returns (chain: seq<Id>)
    requires Inv(accepts, s) && Landed(s, id)
    requires forall other :: other in s.heirs ==> s.heirs[other].version <= bound
    ensures chain != [] && chain[0] == id
    ensures forall i :: 0 <= i < |chain| - 1 ==>
              InState(s, chain[i], Superseded) && s.documents[chain[i]].supersededBy == Some(chain[i + 1])
    ensures var last := chain[|chain| - 1];
            InState(s, last, Available) || (InState(s, last, Purged) && AgedOut(s, last))
    decreases bound - id.version
  {
    hide Inv;
    LandedFacts(accepts, s, id);
    if s.documents[id].state == Superseded {
      SweptRowsNameTheirHeir(accepts, s, id);
      HeirIsLater(accepts, s, id);
      var rest := FollowMarksUpTo(accepts, s, s.heirs[id], bound);
      chain := [id] + rest;
    } else {
      if s.documents[id].state == Purged {
        PurgedIsAged(accepts, s, id);
      }
      chain := [id];
    }
  }

  lemma HeirIsLater(accepts: Bytes -> bool, s: Store, id: Id)
    requires Inv(accepts, s) && id in s.heirs
    ensures id.version < s.heirs[id].version
  {
    hide PathsNamed, FilesOwned, MarksSound, AttemptsSound, WatermarksSound, Kept, PurgedSound, LandedSound;
  }

  lemma PurgedIsAged(accepts: Bytes -> bool, s: Store, id: Id)
    requires Inv(accepts, s) && InState(s, id, Purged) && !Undated(s, id)
    ensures AgedOut(s, id)
  {
    hide PathsNamed, FilesOwned, MarksSound, AttemptsSound, WatermarksSound, Kept, HeirsSound, LandedSound;
  }
}
