/**
 One run of the pipeline, and a life made of such runs.

 Only the order of the stages lives here. An exception that escapes a stage ends
 the run where it stands, so it is one more crash point.
 */
module Runs {
  import opened Base
  import opened Clock
  import opened Listing
  import opened Archive
  import opened Safety
  import opened Traces
  import opened Hosts
  import opened Moving
  import opened Supersede
  import opened Correlate
  import opened Discover
  import opened Ownership
  import opened Monitor
  import Config
  import Fetch
  import Purge
  import Reconcile

  /** Everything one run is started with or meets on its way. */
  datatype Plan = Plan(
    config: Config.Config,
    monitor: bool,
    dryRun: bool,
    today: int,
    laterToday: int,
    pause: nat,
    env: Reconcile.Surroundings,
    configured: set<int>,
    scopes: seq<Scope>,
    fold: string -> string,
    text: Text,
    length: nat,
    batch: Fetch.Batch,
    stuck: Id -> bool,
    rootExists: bool,
    bare: set<int>,
    removals: int -> Purge.Removal)

  /** The retention window, from the first reading of today. */
  function Retained(plan: Plan): Window {
    WindowEnding(plan.today, plan.config.retentionDays)
  }

  /** The discovery window, from the second. */
  function Sought(plan: Plan): Window {
    WindowEnding(plan.laterToday, Config.SweepDays(plan.config, plan.monitor))
  }

  /** An accepted configuration, and dates whose directory names sort. */
  predicate Acceptable(plan: Plan) {
    && Config.Refused(plan.config).None? && plan.length >= 1
    && plan.today <= plan.laterToday && Padded(Retained(plan).first)
  }

  predicate ReachesDiscovery(plan: Plan) {
    plan.scopes != [] && !plan.dryRun
  }

  /** A run that reaches discovery works for this watch list; if it is a monitor, on a window no later than `first`. */
  ghost predicate WorksFor(plan: Plan, watch: Watch, first: int) {
    ReachesDiscovery(plan) ==>
      watch == Watch(plan.fold, Owners(plan.scopes)) && (plan.monitor ==> Sought(plan).first <= first)
  }

  /** The run does not look back as far as retention. */
  predicate Narrow(plan: Plan) {
    Sought(plan).first > Retained(plan).first
  }

  /** What the run that starts from `s` vows. */
  function VowOf(plan: Plan, watch: Watch, first: int, s: Store): Vow {
    Vow(watch, first, Narrow(plan), s.watermarks)
  }

  // ---------------------------------------------------------- stages that only file

  /** What every stage but discovery leaves alone: cursors, sync state, watermarks, and rows' existence. */
  ghost predicate Aside(s: Store, t: Store) {
    && t.cursors == s.cursors && t.sync == s.sync && t.watermarks == s.watermarks && t.clock == s.clock
    && s.documents.Keys <= t.documents.Keys
  }

  /** Sound, and the vow kept, at every crash point since `from`. */
  ghost predicate Standing(w: World, vow: Vow, host: Host, from: nat)
    reads host
  {
    host.Valid() && from <= |host.log| && Throughout(w, vow, host.base, host.log, from)
  }

  /** A stage that moves no cursor and records no watermark keeps the vow at every point inside it. */
  lemma AsideKeeps(accepts: Bytes -> bool, w: World, vow: Vow, bound: nat, base: Store,
                   log: seq<Effect>, more: seq<Effect>, from: nat)
    requires Inv(accepts, base) && Allowed(accepts, base, more) && Honest(w, bound)
    requires log <= more && from <= |log| && Throughout(w, vow, base, log, from)
    requires Aside(Replay(base, log), Replay(base, more))
    ensures Throughout(w, vow, base, more, from)
  {
    hide Inv, Allowed, Replay, Honest, Holds;
    assert log[..|log|] == log && more[..|log|] == log && more[..|more|] == more;
    forall k | from <= k <= |more| ensures Holds(w, vow, Replay(base, more[..k])) {
      if k <= |log| {
        assert more[..k] == log[..k];
      } else {
        PointsGrow(accepts, base, more, |log|, k);
        PointsGrow(accepts, base, more, k, |more|);
        Between(w, vow, bound, Replay(base, log), Replay(base, more[..k]), Replay(base, more));
      }
    }
  }

  lemma Between(w: World, vow: Vow, bound: nat, s: Store, m: Store, t: Store)
    requires Honest(w, bound) && Holds(w, vow, s) && Aside(s, t) && Grows(s, m) && Grows(m, t)
    ensures Holds(w, vow, m)
  {
    hide Safe, Honest, Earned, RowGrows;
    forall k | k in m.cursors ensures k in s.cursors && m.cursors[k] == s.cursors[k] {
      assert k in t.cursors;
    }
    assert forall k :: k in s.cursors ==> k in m.cursors;
    assert m.cursors.Keys == s.cursors.Keys;
    assert m.cursors == s.cursors;
    assert s.watermarks <= m.watermarks <= t.watermarks;
    SafeLater(w, vow.watch, vow.first, bound, s.clock, m.clock, s, m);
    StillEarned(w, s, m);
  }

  /** Recovery and standing down, as one function of what the run found. */
  function Recovered(accepts: Bytes -> bool, plan: Plan, s: Store): Store {
    Archive.Execute(Reconcile.Settled(accepts, plan.env, s), AbandonOutside(plan.configured))
  }

  lemma RecoveredIsAside(accepts: Bytes -> bool, plan: Plan, s: Store)
    ensures Aside(s, Recovered(accepts, plan, s)) && Recovered(accepts, plan, s).horizon == s.horizon
  {
  }

  lemma DetectedIsAside(s: Store, best: map<Id, Doc>)
    ensures var t := Detected(s, best); Aside(s, t) && t.horizon == s.horizon && NoneNewlyPurged(s, t)
  {
    hide Pending;
  }

  lemma SweptIsAside(s: Store, t: Store, window: Window, removed: set<Id>)
    requires Swept(s, t, window, removed)
    ensures Aside(s, t) && t.horizon == s.horizon && NoneNewlyPurged(s, t)
  {
    hide Doomed;
  }

  lemma FetchedIsAside(s: Store, t: Store)
    requires exists accepts, batch, owners, left, downloaded ::
               Fetch.Fetched(accepts, batch, owners, s, t, left, downloaded)
    ensures Aside(s, t) && t.horizon == s.horizon && NoneNewlyPurged(s, t)
  {
    hide Fetch.AllConcluded, Fetch.AllSooner, Fetch.StillWaiting;
  }

  lemma PurgedIsAside(s: Store, t: Store, rootExists: bool, first: int, removals: int -> Purge.Removal,
                      failed: set<int>)
    requires Purge.Cleaned(s, t, rootExists, first, removals, failed)
    ensures Aside(s, t) && (t == s || t.documents == Purge.Marked(s.documents, first, failed))
    ensures s.horizon <= t.horizon <= Max(s.horizon, first)
  {
    hide DayText, TextLess;
  }

  lemma AsideTransitive(s: Store, t: Store, u: Store)
    requires Aside(s, t) && Aside(t, u)
    ensures Aside(s, u)
  {
  }

  /** Recovery, and standing down what nobody configures any more. */
  method Recover(host: Host, w: World, ghost vow: Vow, ghost bound: nat, plan: Plan, ghost from: nat)
    requires Standing(w, vow, host, from) && Honest(w, bound)
    modifies host
    ensures Standing(w, vow, host, from) && old(host.log) <= host.log && Aside(old(host.store), host.store)
    ensures host.store == Recovered(host.accepts, plan, old(host.store))
  {
    hide Inv, Allowed, Replay, Honest, Throughout, Reconcile.Settled, Archive.Execute;
    ghost var before, log := host.store, host.log;
    var report := Reconcile.Run(host, plan.env);
    host.Issue(AbandonOutside(plan.configured));
    RecoveredIsAside(host.accepts, plan, before);
    AsideKeeps(host.accepts, w, vow, bound, host.base, log, host.log, from);
  }

  // ------------------------------------------------------------- what a run is made of

  ghost predicate Detects(plan: Plan, s: Store, t: Store) {
    exists docs, best ::
      Lists(s, InWindow(s, Retained(plan)), docs) && Exact(plan.text, docs, best) && t == Detected(s, best)
  }

  ghost predicate Fetches(accepts: Bytes -> bool, plan: Plan, s: Store, t: Store) {
    exists owners, left, downloaded ::
      Fetch.Resolves(plan.scopes, owners) && Fetch.Fetched(accepts, plan.batch, owners, s, t, left, downloaded)
  }

  ghost predicate Sweeps(plan: Plan, s: Store, t: Store) {
    exists removed :: Swept(s, t, Retained(plan), removed) && AllDeletableIn(s, Retained(plan), plan.stuck, removed)
  }

  ghost predicate Purges(plan: Plan, s: Store, t: Store) {
    exists failed :: Purge.Cleaned(s, t, plan.rootExists, Retained(plan).first, plan.removals, failed)
  }

  /** Detection, download, sweep and purge, in this order, each from a sound store. */
  ghost predicate FiledAway(accepts: Bytes -> bool, plan: Plan, s: Store, t: Store) {
    exists detected: Store, fetched: Store, swept: Store ::
      && Detects(plan, s, detected) && Fetches(accepts, plan, detected, fetched)
      && Sweeps(plan, fetched, swept) && Purges(plan, swept, t) && Inv(accepts, fetched)
  }

  /** Discovery: it only learns rows of its window and sync state, and only a monitor moves cursors. */
  ghost predicate Discovers(w: World, plan: Plan, s: Store, t: Store) {
    && Quiet(w, Sought(plan), s, t.(cursors := s.cursors), Narrow(plan))
    && (!plan.monitor ==> t.cursors == s.cursors)
  }

  /** The whole run: recovery, discovery, filing. */
  ghost predicate RunsThrough(accepts: Bytes -> bool, w: World, plan: Plan, s: Store, t: Store) {
    exists found: Store ::
      Discovers(w, plan, Recovered(accepts, plan, s), found) && FiledAway(accepts, plan, found, t)
  }

  /** Supersession, download, supersession again, purge. */
  method FileAway(host: Host, w: World, ghost vow: Vow, ghost bound: nat, plan: Plan, ghost from: nat)
    requires Standing(w, vow, host, from) && Honest(w, bound) && Acceptable(plan)
    modifies host
    ensures Standing(w, vow, host, from) && old(host.log) <= host.log && Aside(old(host.store), host.store)
    ensures old(host.store).horizon <= host.store.horizon <= Max(old(host.store).horizon, Retained(plan).first)
    ensures PurgesBefore(old(host.store), host.store, Retained(plan).first)
    ensures FiledAway(host.accepts, plan, old(host.store), host.store)
  {
    hide Inv, Allowed, Replay, Honest, Throughout, Aside, Swept, Detected, Exact, Lists, Fetch.Fetched, Fetch.Resolves,
      Purge.Marked, Purge.Cleaned, NoneNewlyPurged, PurgesBefore, ContainsText, InWindow, AllDeletableIn;
    ghost var s0, log := host.store, host.log;
    var best := Detect(host, Retained(plan), plan.text);
    DetectedIsAside(s0, best);
    ghost var s1 := host.store;
    var downloaded, deferred, left := Fetch.Run(host, plan.scopes, plan.batch);
    ghost var s2 := host.store;
    host.Sound();
    FetchedIsAside(s1, s2);
    AsideTransitive(s0, s1, s2);
    NoneTransitive(s0, s1, s2);
    var removed := Sweep(host, Retained(plan), plan.stuck);
    ghost var s3 := host.store;
    SweptIsAside(s2, s3, Retained(plan), removed);
    AsideTransitive(s0, s2, s3);
    NoneTransitive(s0, s2, s3);
    var report := Purge.Run(host, plan.rootExists, plan.bare, Retained(plan).first, plan.removals);
    assert Detects(plan, s0, s1) && Fetches(host.accepts, plan, s1, s2) && Sweeps(plan, s2, s3);
    assert Purges(plan, s3, host.store);
    PurgedIsAside(s3, host.store, plan.rootExists, Retained(plan).first, plan.removals, report.failed);
    AsideTransitive(s0, s3, host.store);
    PurgedBefore(s0, s3, host.store, Retained(plan).first, report.failed);
    AsideKeeps(host.accepts, w, vow, bound, host.base, log, host.log, from);
  }

  // ------------------------------------------------------------------- no churn

  /** Whatever is purged in `t` and was not in `s` was delivered before `first`. */
  ghost predicate PurgesBefore(s: Store, t: Store, first: int) {
    forall id :: id in t.documents && t.documents[id].purged && !(id in s.documents && s.documents[id].purged) ==>
      t.documents[id].delivery < first
  }

  lemma NoneTransitive(s: Store, t: Store, u: Store)
    requires NoneNewlyPurged(s, t) && NoneNewlyPurged(t, u)
    ensures NoneNewlyPurged(s, u)
  {
  }

  lemma NoneThenBefore(s: Store, t: Store, u: Store, first: int)
    requires NoneNewlyPurged(s, t) && PurgesBefore(t, u, first)
    ensures PurgesBefore(s, u, first)
  {
  }

  lemma PurgedBefore(s: Store, t: Store, u: Store, first: int, failed: set<int>)
    requires NoneNewlyPurged(s, t) && Padded(first)
    requires u == t || u.documents == Purge.Marked(t.documents, first, failed)
    ensures PurgesBefore(s, u, first)
  {
    hide DayText, TextLess;
    Purge.MarkedBefore(t.documents, first, failed);
  }

  /** Recovery purges nothing. */
  lemma RecoveryPurgesNothing(accepts: Bytes -> bool, plan: Plan, s: Store)
    ensures NoneNewlyPurged(s, Recovered(accepts, plan, s))
  {
  }

  /** A row unpurged when the run starts, yet purged at some point of it, was delivered before the discovery window. */
  ghost predicate NoChurn(plan: Plan, base: Store, log: seq<Effect>, from: nat)
    requires from <= |log|
  {
    forall k :: from <= k <= |log| ==>
      PurgesBefore(Replay(base, log[..from]), Replay(base, log[..k]), Sought(plan).first)
  }

  /** What is purged stays purged, so looking at the end of the run is enough. */
  lemma PurgedStaysPurged(s: Store, m: Store, t: Store, first: int)
    requires Grows(m, t) && PurgesBefore(s, t, first)
    ensures PurgesBefore(s, m, first)
  {
    forall id | id in m.documents && m.documents[id].purged && !(id in s.documents && s.documents[id].purged)
      ensures m.documents[id].delivery < first
    {
      assert RowGrows(m.documents[id], t.documents[id]);
    }
  }

  lemma NoChurnThroughout(accepts: Bytes -> bool, plan: Plan, base: Store, log: seq<Effect>, from: nat)
    requires Inv(accepts, base) && Allowed(accepts, base, log) && from <= |log|
    requires PurgesBefore(Replay(base, log[..from]), Replay(base, log), Sought(plan).first)
    ensures NoChurn(plan, base, log, from)
  {
    hide Inv, Allowed, Replay, Grows, PurgesBefore;
    assert log[..|log|] == log;
    forall k | from <= k <= |log|
      ensures PurgesBefore(Replay(base, log[..from]), Replay(base, log[..k]), Sought(plan).first)
    {
      PointsGrow(accepts, base, log, k, |log|);
      PurgedStaysPurged(Replay(base, log[..from]), Replay(base, log[..k]), Replay(base, log), Sought(plan).first);
    }
  }

  // -------------------------------------------------------------------- the run

  /**
   One run, whole or cut anywhere: every point of it is sound and keeps the vow -- the
   cursors' promises hold, every watermark was earned, a narrow run records none; and
   nothing delivered inside the discovery window is purged by it, however the clock moves
   between the two readings, whichever directories cannot be removed, and whatever
   earlier runs retained. Undisturbed, a sweep covers every entity and a monitor catches up.
   */
  method Execute(host: Host, w: World, ghost watch: Watch, ghost first: int, ghost bound: nat, plan: Plan, now: nat)
    requires host.Valid() && Honest(w, bound) && Acceptable(plan) && WorksFor(plan, watch, first)
    requires host.store.clock <= now && Safe(w, watch, first, host.store.clock, host.store) && Earned(w, host.store)
    modifies host
    ensures old(host.log) <= host.log
    ensures Standing(w, VowOf(plan, watch, first, old(host.store)), host, |old(host.log)|)
    ensures old(host.store).horizon <= host.store.horizon <= Max(old(host.store).horizon, Retained(plan).first)
    ensures NoChurn(plan, host.base, host.log, |old(host.log)|)
    ensures !ReachesDiscovery(plan) ==>
      host.store == Recovered(host.accepts, plan, old(host.store))
    ensures ReachesDiscovery(plan) ==> RunsThrough(host.accepts, w, plan, old(host.store), host.store)
    ensures Undisturbed(w, plan, now) && ReachesDiscovery(plan) && !plan.monitor ==>
      CoveredSince(w, Owners(plan.scopes), Sought(plan), now, host.store)
    ensures Undisturbed(w, plan, now) && ReachesDiscovery(plan) && plan.monitor ==>
      AllCaughtUp(w, VowOf(plan, watch, first, old(host.store)), Owners(plan.scopes), Sought(plan), now, host.store)
  {
    hide Inv, Allowed, Replay, Honest, Throughout, Safe, Earned, Recovered, Discovers, FiledAway, NoChurn, Undisturbed,
         CoveredSince, AllCaughtUp, Owners, PurgesBefore, NoneNewlyPurged, Aside;
    ghost var s0, log0, from := host.store, host.log, |host.log|;
    ghost var vow := VowOf(plan, watch, first, s0);
    Config.AcceptedNeverChurns(plan.config, plan.monitor, plan.today, plan.laterToday);
    StandsAtFirst(w, vow, host);
    Recover(host, w, vow, bound, plan, from);
    ghost var s1 := host.store;
    RecoveredIsAside(host.accepts, plan, s0);
    RecoveryPurgesNothing(host.accepts, plan, s0);
    if plan.scopes == [] || plan.dryRun {
      NothingPurged(s0, s1, Sought(plan).first);
      ChurnEnds(host, plan, log0, s0);
      return;
    }
    AsideTakesNoTime(s0, s1);
    Seek(host, w, vow, bound, plan, now, from);
    ghost var s2 := host.store;
    DiscoveryPurgesNothing(w, plan, s1, s2);
    NoneTransitive(s0, s1, s2);
    FileAway(host, w, vow, bound, plan, from);
    ghost var s3 := host.store;
    NoneThenBefore(s0, s2, s3, Retained(plan).first);
    BeforeLater(s0, s3, Retained(plan).first, Sought(plan).first);
    StillCovered(w, Owners(plan.scopes), Sought(plan), now, s2, s3);
    StillCaughtUp(w, vow, Owners(plan.scopes), Sought(plan), now, s2, s3);
    ChurnEnds(host, plan, log0, s0);
  }

  lemma StandsAtFirst(w: World, vow: Vow, host: Host)
    requires host.Valid() && Safe(w, vow.watch, vow.first, host.store.clock, host.store) && Earned(w, host.store)
    requires vow.narrow ==> host.store.watermarks == vow.found
    ensures Standing(w, vow, host, |host.log|)
  {
    hide Safe, Earned, Inv, Allowed, Replay;
    assert host.log[..|host.log|] == host.log;
  }

  lemma AsideTakesNoTime(s: Store, t: Store)
    requires Aside(s, t)
    ensures t.clock == s.clock
  {
  }

  lemma NothingPurged(s: Store, t: Store, first: int)
    requires NoneNewlyPurged(s, t)
    ensures PurgesBefore(s, t, first)
  {
  }

  lemma BeforeLater(s: Store, t: Store, first: int, later: int)
    requires PurgesBefore(s, t, first) && first <= later
    ensures PurgesBefore(s, t, later)
  {
  }

  lemma ChurnEnds(host: Host, plan: Plan, log: seq<Effect>, s: Store)
    requires host.Valid() && log <= host.log && s == Replay(host.base, log)
    requires PurgesBefore(s, host.store, Sought(plan).first)
    ensures NoChurn(plan, host.base, host.log, |log|)
  {
    hide Inv, Allowed, Replay, NoChurn, PurgesBefore;
    assert host.log[..|log|] == log;
    NoChurnThroughout(host.accepts, plan, host.base, host.log, |log|);
  }

  /** Nothing fails, nobody stops the run, and what its window shows stands still. */
  ghost predicate Undisturbed(w: World, plan: Plan, now: nat) {
    forall fundType :: Calm(w, fundType, Sought(plan), now)
  }

  ghost predicate CoveredSince(w: World, owners: seq<Owner>, window: Window, now: nat, s: Store) {
    exists until: nat :: AllCovered(w, owners, window, now, until, s)
  }

  ghost predicate AllCaughtUp(w: World, vow: Vow, owners: seq<Owner>, window: Window, now: nat, s: Store) {
    forall o :: o in owners ==> CaughtUp(w, vow, o.entity.fundType, window, now, s)
  }

  /** Discovery, in whichever profile. */
  method Seek(host: Host, w: World, ghost vow: Vow, ghost bound: nat, plan: Plan, now: nat, ghost from: nat)
    requires Standing(w, vow, host, from) && Honest(w, bound) && Acceptable(plan) && host.store.clock <= now
    requires vow.watch == Watch(plan.fold, Owners(plan.scopes)) && (plan.monitor ==> Sought(plan).first <= vow.first)
    requires vow.narrow == Narrow(plan)
    modifies host
    ensures Standing(w, vow, host, from) && old(host.log) <= host.log
    ensures Discovers(w, plan, old(host.store), host.store)
    ensures Undisturbed(w, plan, now) && !plan.monitor ==>
      CoveredSince(w, Owners(plan.scopes), Sought(plan), now, host.store)
    ensures Undisturbed(w, plan, now) && plan.monitor ==>
      AllCaughtUp(w, vow, Owners(plan.scopes), Sought(plan), now, host.store)
  {
    hide Inv, Allowed, Replay, Honest, Throughout, Holds, Calm, AllCovered, Owners, Watching, Quiet, CaughtUp,
         NoneNewlyPurged;
    ghost var before, log, window := host.store, host.log, Sought(plan);
    HoldsAtTheEnd(w, vow, host.base, host.log, from);
    var later;
    if plan.monitor {
      later := RunMonitor(host, w, vow, bound, plan.fold, plan.scopes, Sought(plan), Retained(plan).first,
                         plan.length, now);
    } else {
      later := RunSweep(host, w, vow, bound, plan.scopes, Sought(plan), Retained(plan).first, plan.length, now);
      SameCursors(w, window, before, host.store, Narrow(plan));
    }
    WatchedIsStanding(w, vow, host, later, log, from);
  }

  lemma SameCursors(w: World, window: Window, s: Store, t: Store, narrow: bool)
    requires Quiet(w, window, s, t, narrow)
    ensures t.cursors == s.cursors && t.(cursors := s.cursors) == t
  {
  }

  lemma HoldsAtTheEnd(w: World, vow: Vow, base: Store, log: seq<Effect>, from: nat)
    requires Throughout(w, vow, base, log, from) && from <= |log|
    ensures Holds(w, vow, Replay(base, log))
  {
    hide Holds, Replay;
    assert log[..|log|] == log;
  }

  lemma DiscoveryPurgesNothing(w: World, plan: Plan, s: Store, t: Store)
    requires Discovers(w, plan, s, t)
    ensures t.horizon == s.horizon && NoneNewlyPurged(s, t)
  {
  }

  /** What held up to a stage and holds from its start on holds throughout. */
  lemma WatchedIsStanding(w: World, vow: Vow, host: Host, t: nat, log: seq<Effect>, from: nat)
    requires Watching(w, vow, t, host, |log|) && log <= host.log && from <= |log|
    requires Throughout(w, vow, host.base, log, from)
    ensures Standing(w, vow, host, from)
  {
    hide Holds, Replay, Inv, Allowed;
    forall k | from <= k <= |host.log| ensures Holds(w, vow, Replay(host.base, host.log[..k])) {
      if k < |log| {
        assert host.log[..k] == log[..k];
      }
    }
  }

  lemma StillCaughtUp(w: World, vow: Vow, owners: seq<Owner>, window: Window, now: nat, s: Store, t: Store)
    requires Aside(s, t)
    ensures AllCaughtUp(w, vow, owners, window, now, s) ==> AllCaughtUp(w, vow, owners, window, now, t)
  {
    hide Matches, Windowed;
  }

  lemma StillCovered(w: World, owners: seq<Owner>, window: Window, now: nat, s: Store, t: Store)
    requires Aside(s, t)
    ensures CoveredSince(w, owners, window, now, s) ==> CoveredSince(w, owners, window, now, t)
  {
    hide Covers;
    if until: nat :| AllCovered(w, owners, window, now, until, s) {
      forall o | o in owners ensures CoveredBetween(w, o, window, now, until, t) {
        assert CoveredBetween(w, o, window, now, until, s);
        var asked: nat :| now <= asked <= until
                          && Covers(w, o.entity.fundType, o.entity.fundosnetId, window, asked, s);
        CoversAreRows(w, o.entity.fundType, o.entity.fundosnetId, window, asked, s, t);
      }
      assert AllCovered(w, owners, window, now, until, t);
    }
  }

  /** No point inside a narrow run shows any entity another watermark than the run found. */
  lemma NarrowRunsMoveNoWatermark(w: World, vow: Vow, host: Host, from: nat, k: nat, entity: int)
    requires Standing(w, vow, host, from) && vow.narrow && from <= k <= |host.log|
    ensures WindowOf(Replay(host.base, host.log[..k]), entity) == LastMark(vow.found, entity)
  {
    hide Allowed, Replay, Safe, Earned, PathsNamed, FilesOwned, Kept, HeirsSound, LandedSound, PurgedSound, MarksSound,
      AttemptsSound, LastMark;
    host.Sound();
    assert Holds(w, vow, Replay(host.base, host.log[..k]));
    assert Inv(host.accepts, Replay(host.base, host.log[..k]));
  }

  // ------------------------------------------------------------------- the life

  /** Retention only moves forward. */
  predicate MovesForward(plans: seq<Plan>) {
    forall i, j :: 0 <= i < j < |plans| ==> Retained(plans[i]).first <= Retained(plans[j]).first
  }

  /**
   A life: any number of runs of either profile, run `i` dying after `cuts[i]` effects
   (or not at all), the next starting from what that left. It is a history in the sense
   of `Traces`, so everything proved of histories holds of it; the store is sound; every
   watermark ever recorded was earned, and narrow runs alone record none; and, for a
   fixed watch list, every well-formed row still listed, dated strictly before its type's
   cursor and delivered since `first`, whose name matches its owner, is in the manifest --
   `first` being any day before which every monitor's window has started.
   */
  method Life(accepts: Bytes -> bool, w: World, ghost watch: Watch, ghost first: int, ghost bound: nat,
              plans: seq<Plan>, cuts: seq<nat>)
    returns (s: Store, ghost runs: seq<Run>)
    requires Honest(w, bound) && |cuts| == |plans|
    requires forall plan :: plan in plans ==> Acceptable(plan) && WorksFor(plan, watch, first)
    ensures History(accepts, runs) && s == After(runs) && |runs| == |plans|
    ensures Inv(accepts, s) && Safe(w, watch, first, s.clock, s) && Earned(w, s)
    ensures (forall plan :: plan in plans ==> Narrow(plan)) ==> s.watermarks == []
    ensures plans != [] && MovesForward(plans) ==> forall id :: InState(s, id, Purged) && !Undated(s, id) ==>
      s.documents[id].delivery < Max(0, Sought(plans[|plans| - 1]).first)
  {
    hide Inv, Allowed, Replay, Honest, Safe, Earned, PurgesBefore;
    s, runs := EMPTY, [];
    EmptyIsSound(accepts);
    EmptyIsSafe(w, watch, first);
    for i := 0 to |plans|
      invariant |runs| == i && History(accepts, runs) && s == After(runs)
      invariant Inv(accepts, s) && Safe(w, watch, first, s.clock, s) && Earned(w, s)
      invariant (forall plan :: plan in plans ==> Narrow(plan)) ==> s.watermarks == []
      invariant MovesForward(plans) ==> s.horizon <= if i == 0 then 0 else Max(0, Retained(plans[i - 1]).first)
    {
      assert plans[i] in plans;
      ghost var log;
      s, log := OneRun(accepts, w, watch, first, bound, plans[i], cuts[i], s);
      ghost var run := Run(log, cuts[i]);
      assert (runs + [run])[..|runs|] == runs;
      runs := runs + [run];
    }
    if plans != [] && MovesForward(plans) {
      var last := plans[|plans| - 1];
      assert last in plans;
      Config.AcceptedNeverChurns(last.config, last.monitor, last.today, last.laterToday);
      forall id | InState(s, id, Purged) && !Undated(s, id)
        ensures s.documents[id].delivery < Max(0, Sought(last).first)
      {
        PurgedIsAged(accepts, s, id);
      }
    }
  }

  lemma EmptyIsSafe(w: World, watch: Watch, first: int)
    ensures Safe(w, watch, first, EMPTY.clock, EMPTY) && Earned(w, EMPTY)
  {
  }

  /** Monitors' windows only move forward. */
  predicate MonitorsMoveForward(plans: seq<Plan>) {
    forall i, j :: 0 <= i < j < |plans| && plans[i].monitor && plans[j].monitor ==>
      Sought(plans[i]).first <= Sought(plans[j]).first
  }

  /** A watched row that the window still shows, dated before its type's cursor. */
  ghost predicate DueInside(w: World, watch: Watch, fundType: int, window: Window, s: Store, row: DocumentRow) {
    && fundType in s.cursors && row.at < s.cursors[fundType] && Matches(w, watch, fundType, row)
    && Good(row) in Listed(w, fundType, window).listing(s.clock)
  }

  ghost predicate AllDueKnown(w: World, watch: Watch, window: Window, s: Store) {
    forall fundType, row :: DueInside(w, watch, fundType, window, s, row) ==> row.id in s.documents
  }

  /**
   The life of a robot whose monitor windows move forward, after a monitor firing: every
   row inside that firing's window, dated before its cursor, watched and still listed, is
   in the manifest.
   */
  method MonitoredLife(accepts: Bytes -> bool, w: World, ghost watch: Watch, ghost bound: nat,
                       plans: seq<Plan>, cuts: seq<nat>)
    returns (s: Store, ghost runs: seq<Run>)
    requires Honest(w, bound) && |cuts| == |plans| && plans != [] && plans[|plans| - 1].monitor
    requires MonitorsMoveForward(plans)
    requires forall plan :: plan in plans ==> Acceptable(plan)
    requires forall plan :: plan in plans && ReachesDiscovery(plan) ==> watch == Watch(plan.fold, Owners(plan.scopes))
    ensures History(accepts, runs) && s == After(runs) && |runs| == |plans|
    ensures Earned(w, s)
    ensures AllDueKnown(w, watch, Sought(plans[|plans| - 1]), s)
  {
    hide Inv, Honest, Earned, Matches, Those, Owners, Allowed, Replay;
    ghost var window := Sought(plans[|plans| - 1]);
    forall plan | plan in plans ensures WorksFor(plan, watch, window.first) {
      var i :| 0 <= i < |plans| && plans[i] == plan;
      assert plan.monitor ==> Sought(plans[i]).first <= Sought(plans[|plans| - 1]).first;
    }
    s, runs := Life(accepts, w, watch, window.first, bound, plans, cuts);
    forall fundType, row | DueInside(w, watch, fundType, window, s, row) ensures row.id in s.documents {
      WindowedShows(w.feeds(fundType), window, w.malformed, s.clock, Good(row));
      assert Promised(w, watch, fundType, window.first, s.clock, s.documents.Keys, s.cursors[fundType]);
      assert Due(w, watch, fundType, window.first, s.clock, s.cursors[fundType], row);
    }
  }

  /** One process of a life, from the store it finds to the store it leaves. */
  method OneRun(accepts: Bytes -> bool, w: World, ghost watch: Watch, ghost first: int, ghost bound: nat, plan: Plan,
                cut: nat, found: Store)
    returns (s: Store, ghost log: seq<Effect>)
    requires Inv(accepts, found) && Safe(w, watch, first, found.clock, found) && Earned(w, found) && Honest(w, bound)
    requires Acceptable(plan) && WorksFor(plan, watch, first)
    ensures Allowed(accepts, found, log) && s == Replay(found, Survived(Run(log, cut)))
    ensures Inv(accepts, s) && Safe(w, watch, first, s.clock, s) && Earned(w, s)
    ensures Narrow(plan) ==> s.watermarks == found.watermarks
    ensures PurgesBefore(found, s, Sought(plan).first)
    ensures s.horizon <= Max(found.horizon, Retained(plan).first)
  {
    hide Inv, Allowed, Replay, Honest, Safe, Earned, PurgesBefore, Recovered, RunsThrough, Undisturbed, CoveredSince,
         AllCaughtUp;
    var host := new Host(accepts, found);
    Execute(host, w, watch, first, bound, plan, found.clock + plan.pause);
    log := host.log;
    var k := Min(cut, |host.log|);
    s := Replay(host.base, host.log[..k]);
    host.Sound();
    PointsGrow(accepts, found, log, k, |log|);
    assert log[..|log|] == log;
    NothingReplayed(found, log);
    assert Holds(w, VowOf(plan, watch, first, found), s);
  }

  lemma NothingReplayed(s: Store, log: seq<Effect>)
    ensures Replay(s, log[..0]) == s
  {
  }
}
