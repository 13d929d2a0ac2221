/**
 What a run delivers, end to end: across detection, download, sweep and purge, a wanted
 publication that the source serves soundly is on disk when the run ends, with the bytes
 served, unless a later version has replaced it.
 */
module Delivery {
  import opened Base
  import opened Clock
  import opened Archive
  import opened Safety
  import opened Traces
  import opened Ownership
  import opened Correlate
  import opened Supersede
  import opened Runs
  import Fetch
  import Naming

  /** Nobody stops the downloads, and this one is wanted, unambiguous, and due to land. */
  ghost predicate WillLand(accepts: Bytes -> bool, plan: Plan, s: Store, id: Id) {
    && (forall position :: !plan.batch.stop(position))
    && IsPending(s, id) && Fetch.WorthFetching(plan.batch, s.documents[id])
    && Occurrences(Owners(plan.scopes), s.documents[id].entity) == 1
    && forall o :: o in Owners(plan.scopes) && o.entity.fundosnetId == s.documents[id].entity ==>
         Answered(accepts, plan, s, id, o) == Fetch.Filed
  }

  function Answered(accepts: Bytes -> bool, plan: Plan, s: Store, id: Id, o: Owner): Fetch.Result
    requires id in s.documents
  {
    Fetch.Verdict(accepts, plan.batch.settings(id), Some(o), s.documents[id].delivery, Failures(s.attempts, id), id,
                  plan.batch.answers(id), plan.batch.faults(id))
  }

  /** It is on disk, where its row of the start of the stage and the format served say, with the bytes served. */
  ghost predicate Delivered(plan: Plan, s: Store, t: Store, id: Id)
    requires id in s.documents
  {
    && plan.batch.answers(id).Reply?
    && Fetch.FiledAt(t, id, Fetch.Target(plan.batch.settings(id), s.documents[id], id, plan.batch.answers(id).kind),
                     plan.batch.answers(id).content)
  }

  predicate IsReplaced(s: Store, id: Id) {
    id in s.documents && s.documents[id].supersededBy.Some?
  }

  /** Detection either names a replacement and takes the row off the queue, or leaves it as it was. */
  lemma DetectedOrUntouched(plan: Plan, s: Store, t: Store, id: Id)
    requires Detects(plan, s, t) && IsPending(s, id)
    ensures t.attempts == s.attempts && id in t.documents
    ensures t.documents[id] == s.documents[id] || (IsReplaced(t, id) && !IsPending(t, id))
  {
    hide Correlatable, Lists, Exact, InWindow;
  }

  /** A row off the queue is not touched by the download stage. */
  lemma OffTheQueue(accepts: Bytes -> bool, plan: Plan, s: Store, t: Store, id: Id)
    requires Fetches(accepts, plan, s, t) && IsReplaced(s, id) && !IsPending(s, id)
    ensures IsReplaced(t, id)
  {
    hide Fetch.AllConcluded, Fetch.AllFiled, Fetch.AllSooner, Fetch.StillWaiting, Fetch.LandedOf, Fetch.Resolves;
  }

  lemma FetchDelivers(accepts: Bytes -> bool, plan: Plan, s: Store, t: Store, id: Id)
    requires Fetches(accepts, plan, s, t) && WillLand(accepts, plan, s, id)
    ensures Delivered(plan, s, t, id)
  {
    hide Fetch.AllConcluded, Fetch.AllSooner, Fetch.StillWaiting, Fetch.LandedOf, Fetch.Confined, Fetch.FiledAt,
         Fetch.Target, Fetch.Verdict, Fetch.WorthFetching, Failures, Occurrences;
    var owners, left, downloaded :|
      Fetch.Resolves(plan.scopes, owners) && Fetch.Fetched(accepts, plan.batch, owners, s, t, left, downloaded);
    assert id in Fetch.Queue(s, owners.Keys, plan.batch, true) - left;
    assert owners[s.documents[id].entity] in Owners(plan.scopes);
    assert Fetch.Due(accepts, plan.batch, owners, s, id)
        == Answered(accepts, plan, s, id, owners[s.documents[id].entity]);
  }

  lemma SweepSpares(accepts: Bytes -> bool, plan: Plan, s: Store, t: Store, id: Id, path: Path, content: Bytes)
    requires Inv(accepts, s) && Sweeps(plan, s, t) && Fetch.FiledAt(s, id, path, content)
    ensures IsReplaced(t, id) || Fetch.FiledAt(t, id, path, content)
  {
    hide Inv, Correlatable, Unlinked, AllDeletableIn, OnDisk;
    var removed :| Swept(s, t, Retained(plan), removed) && AllDeletableIn(s, Retained(plan), plan.stuck, removed);
    if id !in removed {
      UnremovedStaysReadable(accepts, s, t, Retained(plan), removed, id);
    }
  }

  lemma SweepKeepsReplaced(plan: Plan, s: Store, t: Store, id: Id)
    requires Sweeps(plan, s, t) && IsReplaced(s, id)
    ensures IsReplaced(t, id)
  {
    hide Doomed, Unlinked, AllDeletableIn;
  }

  lemma PurgeSpares(plan: Plan, s: Store, t: Store, id: Id, path: Path, content: Bytes)
    requires Purges(plan, s, t) && Padded(Retained(plan).first) && Fetch.FiledAt(s, id, path, content)
    requires path.day >= Retained(plan).first && Padded(path.day) && s.documents[id].delivery == path.day
    ensures Fetch.FiledAt(t, id, path, content)
  {
    hide DayText, TextLess;
    TextOrder(s.documents[id].delivery, Retained(plan).first);
  }

  /** What is filed in a date directory of the window stays, unless the sweep had a replacement for it. */
  lemma FilingKept(accepts: Bytes -> bool, plan: Plan, s: Store, swept: Store, t: Store, id: Id, path: Path,
                   content: Bytes)
    requires Inv(accepts, s) && Sweeps(plan, s, swept) && Purges(plan, swept, t)
    requires Fetch.FiledAt(s, id, path, content) && path.day >= Retained(plan).first && Padded(Retained(plan).first)
    ensures IsReplaced(t, id) || Fetch.FiledAt(t, id, path, content)
  {
    hide Inv, Sweeps, Purges, OnDisk;
    SweepSpares(accepts, plan, s, swept, id, path, content);
    FiledByDay(accepts, s, id, path);
    SweepKeepsDates(plan, s, swept, id);
    if IsReplaced(swept, id) {
      PurgeKeepsReplaced(plan, swept, t, id);
    } else {
      PurgeSpares(plan, swept, t, id, path, content);
    }
  }

  lemma FiledByDay(accepts: Bytes -> bool, s: Store, id: Id, path: Path)
    requires Inv(accepts, s) && id in s.documents && s.documents[id].path == Some(path)
    ensures path.day == s.documents[id].delivery && Padded(path.day)
  {
    hide FilesOwned, Kept, HeirsSound, LandedSound, PurgedSound, MarksSound, AttemptsSound, WatermarksSound;
    assert Names(path, id, s.documents[id].delivery);
  }

  lemma SweepKeepsDates(plan: Plan, s: Store, t: Store, id: Id)
    requires Sweeps(plan, s, t) && id in s.documents
    ensures id in t.documents && t.documents[id].delivery == s.documents[id].delivery
  {
    hide Doomed, Unlinked, AllDeletableIn;
  }

  lemma PurgeKeepsReplaced(plan: Plan, s: Store, t: Store, id: Id)
    requires Purges(plan, s, t) && IsReplaced(s, id)
    ensures IsReplaced(t, id)
  {
    hide DayText, TextLess;
  }

  /**
   From the end of discovery to the end of the run: a pending publication of the retention
   window that is wanted, unambiguous and served soundly ends up filed at its own name
   with the bytes served, or a later version is on record as its replacement.
   */
  lemma WantedIsDelivered(accepts: Bytes -> bool, plan: Plan, s: Store, t: Store, id: Id)
    requires Acceptable(plan) && FiledAway(accepts, plan, s, t) && WillLand(accepts, plan, s, id)
    requires s.documents[id].delivery >= Retained(plan).first
    ensures Delivered(plan, s, t, id) || IsReplaced(t, id)
  {
    hide Inv, Detects, Fetches, Sweeps, Purges, Fetch.FiledAt, Naming.DocumentFilename, Fetch.Verdict,
         Fetch.WorthFetching, Failures, Occurrences;
    var detected: Store, fetched: Store, swept: Store :|
      && Detects(plan, s, detected) && Fetches(accepts, plan, detected, fetched)
      && Sweeps(plan, fetched, swept) && Purges(plan, swept, t) && Inv(accepts, fetched);
    DetectedOrUntouched(plan, s, detected, id);
    if detected.documents[id] == s.documents[id] {
      FetchDelivers(accepts, plan, detected, fetched, id);
      FilingKept(accepts, plan, fetched, swept, t, id,
                 Fetch.Target(plan.batch.settings(id), s.documents[id], id, plan.batch.answers(id).kind),
                 plan.batch.answers(id).content);
    } else {
      OffTheQueue(accepts, plan, detected, fetched, id);
      SweepKeepsReplaced(plan, fetched, swept, id);
      PurgeKeepsReplaced(plan, swept, t, id);
    }
  }
}
