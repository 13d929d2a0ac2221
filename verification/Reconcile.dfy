/** Startup reconciliation: settle every record an interrupted run left mid-flight. */
module Reconcile {
  import opened Base
  import opened Clock
  import opened Listing
  import opened Archive
  import opened Safety
  import opened Hosts
  import Naming
  import Traces

  /** What the file system and the configuration answer during one pass. */
  datatype Surroundings = Surroundings(
    readable: Path -> bool,
    maxBytes: nat,
    cutoff: int)

  datatype Report = Report(promoted: nat, requeued: nat, partsRemoved: nat, mismatches: set<Id>)

  predicate Intermediate(state: State) {
    state == Discovered || state == Downloading
  }

  /** The recorded destination exists, can be read, fits, and re-validates. */
  predicate Usable(accepts: Bytes -> bool, env: Surroundings, files: map<Path, Bytes>, row: Row) {
    && row.path.Some? && row.path.value in files && env.readable(row.path.value)
    && |files[row.path.value]| <= env.maxBytes && accepts(files[row.path.value])
  }

  function Suffix(name: string): string {
    match Naming.SplitLast(name, '.')
    case None => ""
    case Some((_, suffix)) => suffix
  }

  function ExtensionOf(row: Row, path: Path): string {
    if row.extension.Some? && row.extension.value != "" then row.extension.value else Suffix(path.name)
  }

  function Settle(accepts: Bytes -> bool, env: Surroundings, files: map<Path, Bytes>, row: Row): Row {
    if !Intermediate(row.state) then row
    else if Usable(accepts, env, files, row) then
      row.(state := Available, extension := Some(ExtensionOf(row, row.path.value)),
           digest := Some(Sha256(files[row.path.value])), landed := true, purged := false)
    else row.(state := Discovered)
  }

  function Settled(accepts: Bytes -> bool, env: Surroundings, s: Store): Store {
    s.(documents := map id | id in s.documents :: Settle(accepts, env, s.files, s.documents[id]),
       parts := map id | id in s.parts && s.parts[id].modified >= env.cutoff :: s.parts[id])
  }

  /** The rows half done: those in `todo` still as they were, the others settled. */
  function HalfSettled(accepts: Bytes -> bool, env: Surroundings, s: Store, todo: set<Id>): map<Id, Row> {
    map id | id in s.documents ::
      if id in todo then s.documents[id] else Settle(accepts, env, s.files, s.documents[id])
  }

  lemma NothingSettledYet(accepts: Bytes -> bool, env: Surroundings, s: Store, todo: set<Id>)
    requires todo == set id | id in s.documents && Intermediate(s.documents[id].state)
    ensures HalfSettled(accepts, env, s, todo) == s.documents
  {
  }

  method Run(host: Host, env: Surroundings) returns (report: Report)
    requires host.Valid()
    modifies host
    ensures host.Valid() && old(host.log) <= host.log
    ensures host.store == Settled(host.accepts, env, old(host.store))
    ensures report.mismatches == {}
  {
    hide Inv, Traces.Allowed, Traces.Replay, Naming.IdentityOf, Settle;
    report := Report(0, 0, 0, {});
    ghost var before := host.store;
    var todo := set id | id in host.store.documents && Intermediate(host.store.documents[id].state);
    NothingSettledYet(host.accepts, env, before, todo);
    while todo != {}
      invariant host.Valid() && old(host.log) <= host.log
      invariant todo <= (set id | id in before.documents && Intermediate(before.documents[id].state))
      invariant host.store == before.(documents := HalfSettled(host.accepts, env, before, todo))
      invariant report.mismatches == {}
      decreases todo
    {
      var id :| id in todo;
      report := SettleOne(host, env, id, report);
      todo := todo - {id};
      assert host.store.documents == HalfSettled(host.accepts, env, before, todo);
    }
    assert HalfSettled(host.accepts, env, before, {}) == Settled(host.accepts, env, before).documents;
    var removed := SweepStaging(host, env.cutoff);
    report := report.(partsRemoved := removed);
  }

  method SettleOne(host: Host, env: Surroundings, id: Id, report0: Report) returns (report: Report)
    requires host.Valid() && id in host.store.documents && Intermediate(host.store.documents[id].state)
    modifies host
    ensures host.Valid() && old(host.log) <= host.log
    ensures host.store == Put(old(host.store), id,
              Settle(host.accepts, env, old(host.store).files, old(host.store).documents[id]))
    ensures report.mismatches == report0.mismatches
  {
    hide Inv, Traces.Allowed, Traces.Replay, Naming.IdentityOf;
    host.Sound();
    RowFacts(host.accepts, host.store, id);
    var row := host.store.documents[id];
    report := report0;
    if Usable(host.accepts, env, host.store.files, row) {
      var content := host.store.files[row.path.value];
      var mismatch := row.digest != None && row.digest != Some(Sha256(content));
      if mismatch {
        report := report.(mismatches := report.mismatches + {id});
      }
      host.Issue(MarkAvailable(id, row.path.value, ExtensionOf(row, row.path.value), Sha256(content)));
      report := report.(promoted := report.promoted + 1);
    } else {
      host.Issue(SetState(id, Discovered));
      report := report.(requeued := report.requeued + 1);
    }
  }

  /** Delete staging files older than the threshold; younger ones may still be in use. */
  method SweepStaging(host: Host, cutoff: int) returns (removed: nat)
    requires host.Valid()
    modifies host
    ensures host.Valid() && old(host.log) <= host.log
    ensures host.store == old(host.store).(
              parts := map id | id in old(host.store).parts && old(host.store).parts[id].modified >= cutoff
                         :: old(host.store).parts[id])
  {
    hide Inv, Traces.Allowed, Traces.Replay;
    removed := 0;
    ghost var before := host.store;
    var stale := set id | id in host.store.parts && host.store.parts[id].modified < cutoff;
    while stale != {}
      invariant host.Valid() && old(host.log) <= host.log
      invariant host.store
                == before.(parts := map id | id in before.parts && (before.parts[id].modified >= cutoff || id in stale)
                                      :: before.parts[id])
      decreases stale
    {
      var id :| id in stale;
      host.Perform(DropPart(id));
      removed := removed + 1;
      stale := stale - {id};
    }
  }

  /** Nothing is left mid-flight, and no promotable file is left unpromoted. */
  lemma NothingLeftMidFlight(accepts: Bytes -> bool, env: Surroundings, s: Store, id: Id)
    requires id in s.documents
    ensures var t := Settled(accepts, env, s);
            && t.documents[id].state != Downloading
            && (t.documents[id].state == Discovered ==> !Usable(accepts, env, t.files, t.documents[id]))
            && (t.documents[id].state != s.documents[id].state ==> Intermediate(s.documents[id].state))
  {
  }

  /** A second pass over the same files changes nothing. */
  lemma ReconcileIsIdempotent(accepts: Bytes -> bool, env: Surroundings, s: Store)
    ensures var t := Settled(accepts, env, s); Settled(accepts, env, t) == t
  {
    var t := Settled(accepts, env, s);
    var u := Settled(accepts, env, t);
    assert u.documents == t.documents;
    assert u.parts == t.parts;
  }

  /**
   What a reader may rely on after recovery: an available row inside retention that
   nothing replaced has its file, with the recorded hash.
   */
  lemma AvailableHasItsBytes(accepts: Bytes -> bool, s: Store, id: Id)
    requires Inv(accepts, s) && InState(s, id, Available)
    requires s.documents[id].delivery >= s.horizon && s.documents[id].supersededBy.None?
    ensures OnDisk(s, id)
  {
    hide PathsNamed, FilesOwned, LandedSound, PurgedSound, MarksSound, AttemptsSound, WatermarksSound;
  }

  /**
   Crash recovery: after any history of runs, each cut anywhere, one pass leaves
   nothing mid-flight, nothing for a second pass to do, and every available row inside
   retention that nothing replaced with its file, hashing to what was recorded.
   */
  method Recovery(accepts: Bytes -> bool, env: Surroundings, runs: seq<Traces.Run>) returns (t: Store)
    requires Traces.History(accepts, runs)
    ensures t == Settled(accepts, env, Traces.After(runs)) && Inv(accepts, t)
    ensures forall id :: id in t.documents ==> t.documents[id].state != Downloading
    ensures Settled(accepts, env, t) == t
    ensures forall id ::
              InState(t, id, Available) && t.documents[id].delivery >= t.horizon && t.documents[id].supersededBy.None?
              ==> OnDisk(t, id)
  {
    hide Inv, Settled, Traces.Allowed, Traces.Replay;
    Traces.HistoryIsSound(accepts, runs);
    var host := new Host(accepts, Traces.After(runs));
    var report := Run(host, env);
    host.Sound();
    t := host.store;
    ReconcileIsIdempotent(accepts, env, Traces.After(runs));
    forall id | id in t.documents ensures t.documents[id].state != Downloading {
      SettledKeepsRows(accepts, env, Traces.After(runs));
      NothingLeftMidFlight(accepts, env, Traces.After(runs), id);
    }
    forall id | InState(t, id, Available) && t.documents[id].delivery >= t.horizon && t.documents[id].supersededBy.None?
      ensures OnDisk(t, id)
    {
      AvailableHasItsBytes(accepts, t, id);
    }
  }

  lemma SettledKeepsRows(accepts: Bytes -> bool, env: Surroundings, s: Store)
    ensures Settled(accepts, env, s).documents.Keys == s.documents.Keys
  {
  }
}
