/**
 The machine a run works on: the manifest connection and the archive root.

 Effects are performed one at a time and recorded in a log, so that
 `log[..k]`, for any `k`, is what would be left if the process died there.
 */
module Hosts {
  import opened Base
  import opened Clock
  import opened Listing
  import opened Archive
  import opened Safety
  import opened Traces

  class Host {
    var store: Store
    const accepts: Bytes -> bool
    const base: Store
    var log: seq<Effect>

    /** Everything done so far was allowed, from a sound store. */
    ghost predicate Valid()
      reads this
    {
      Inv(accepts, base) && Allowed(accepts, base, log) && store == Replay(base, log)
    }

    constructor (accepts: Bytes -> bool, found: Store)
      requires Inv(accepts, found)
      ensures Valid() && log == [] && store == found && base == found && this.accepts == accepts
    {
      this.accepts, base, store, log := accepts, found, found, [];
    }

    /** Sound now, and sound wherever the process might have died so far. */
    lemma Sound()
      requires Valid()
      ensures Inv(accepts, store)
      ensures forall k :: 0 <= k <= |log| ==> Inv(accepts, Replay(base, log[..k]))
    {
      hide Inv, Allowed, Replay;
      forall k | 0 <= k <= |log| ensures Inv(accepts, Replay(base, log[..k])) {
        EveryCrashPointIsSound(accepts, base, log, k);
      }
      assert log[..|log|] == log;
    }

    method Perform(e: Effect)
      requires Valid() && May(accepts, store, e)
      modifies this
      ensures Valid() && store == Apply(old(store), e) && log == old(log) + [e]
    {
      hide Inv, May, Apply;
      store := Apply(store, e);
      log := log + [e];
      assert log[..|log| - 1] == old(log);
    }

    /** One autocommitted statement. */
    method Issue(q: Sql)
      requires Valid() && MayExecute(store, q)
      modifies this
      ensures Valid() && store == Execute(old(store), q) && log == old(log) + [Commit([q])]
    {
      hide Inv, MayExecute, Execute, Allowed, Replay;
      OneStatement(store, q);
      Perform(Commit([q]));
    }

    // ------------------------------------------------------ manifest operations

    method SetState(id: Id, state: State)
      requires Valid() && MayExecute(store, Sql.SetState(id, state))
      modifies this
      ensures Valid() && log == old(log) + [Commit([Sql.SetState(id, state)])]
      ensures store == Put(old(store), id, old(store).documents[id].(state := state))
    {
      hide Inv, Allowed, Replay;
      Issue(Sql.SetState(id, state));
    }

    method SetTarget(id: Id, path: Path, extension: string)
      requires Valid() && MayExecute(store, Sql.SetTarget(id, path, extension)) && InState(store, id, Downloading)
      modifies this
      ensures Valid() && log == old(log) + [Commit([Sql.SetTarget(id, path, extension)])]
      ensures store == Put(old(store), id, old(store).documents[id].(path := Some(path), extension := Some(extension)))
    {
      hide Inv, Allowed, Replay;
      Issue(Sql.SetTarget(id, path, extension));
    }

    method MarkAvailable(id: Id, path: Path, extension: string, digest: Digest)
      requires Valid() && MayExecute(store, Sql.MarkAvailable(id, path, extension, digest))
      modifies this
      ensures Valid() && log == old(log) + [Commit([Sql.MarkAvailable(id, path, extension, digest)])]
      ensures store == Put(old(store), id, old(store).documents[id].(
                state := Available, path := Some(path), extension := Some(extension), digest := Some(digest),
                landed := true, purged := false))
    {
      hide Inv, Allowed, Replay;
      Issue(Sql.MarkAvailable(id, path, extension, digest));
    }

    method RecordAttempt(id: Id, outcome: Outcome)
      requires Valid() && MayExecute(store, Sql.RecordAttempt(id, outcome))
      modifies this
      ensures Valid() && log == old(log) + [Commit([Sql.RecordAttempt(id, outcome)])]
      ensures store == old(store).(attempts := old(store).attempts + [Attempt(id, outcome)])
    {
      hide Inv, Allowed, Replay;
      Issue(Sql.RecordAttempt(id, outcome));
    }
  }
}
