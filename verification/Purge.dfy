/** Purge: delete the date directories before the retention frontier, then mark their rows. */
module Purge {
  import opened Base
  import opened Clock
  import opened Listing
  import opened Archive
  import opened Safety
  import opened Traces
  import opened Hosts
  import Naming

  /** How `rmtree` treats one directory: it goes, or fails having removed some of the files. */
  datatype Removal = Gone | Stuck(lost: set<string>)

  datatype Report = Report(removed: nat, failed: set<int>)

  function FilesOf(files: map<Path, Bytes>, day: int): set<Path> {
    set path | path in files && path.day == day
  }

  function Victims(files: map<Path, Bytes>, day: int, removal: Removal): set<Path> {
    match removal
    case Gone => FilesOf(files, day)
    case Stuck(lost) => set path | path in files && path.day == day && path.name in lost
  }

  /** The dated directories before the frontier: those that hold archived files, and `bare` ones that do not. */
  function Expired(files: map<Path, Bytes>, bare: set<int>, first: int): set<int> {
    (set path | path in files && path.day < first :: path.day) + (set day | day in bare && day < first)
  }

  /** Directories `done` have been dealt with: files of the others are untouched. */
  ghost predicate Cleared(s: Store, t: Store, first: int, removals: int -> Removal, done: set<int>, failed: set<int>) {
    && t == s.(files := t.files, horizon := t.horizon)
    && s.horizon <= t.horizon <= Max(s.horizon, first)
    && (forall path :: path in t.files ==> path in s.files && t.files[path] == s.files[path])
    && (forall path :: path in s.files && path.day !in done ==> path in t.files)
    && (forall path :: path in t.files && path.day in done ==> path.day in failed)
    && (forall day :: day in failed ==> day in done && removals(day).Stuck?)
    && (forall day :: day in done ==> day < first && (removals(day).Stuck? ==> day in failed))
  }

  method RemoveDirectories(host: Host, bare: set<int>, first: int, removals: int -> Removal)
    returns (removed: nat, failed: set<int>)
    requires host.Valid()
    modifies host
    ensures host.Valid() && old(host.log) <= host.log
    ensures Cleared(old(host.store), host.store, first, removals, Expired(old(host.store).files, bare, first), failed)
  {
    hide Inv, Allowed, Replay, Naming.IdentityOf;
    removed, failed := 0, {};
    ghost var before := host.store;
    var todo, done := Expired(host.store.files, bare, first), {};
    while todo != {}
      invariant host.Valid() && old(host.log) <= host.log
      invariant todo + done == Expired(before.files, bare, first) && todo !! done
      invariant Cleared(before, host.store, first, removals, done, failed)
      decreases todo
    {
      var day :| day in todo;
      ghost var middle := host.store;
      host.Perform(RemoveTree(day, Victims(host.store.files, day, removals(day))));
      ClearedStep(before, middle, host.store, first, removals, done, failed, day);
      if removals(day).Stuck? {
        failed := failed + {day};
      } else {
        removed := removed + 1;
      }
      todo, done := todo - {day}, done + {day};
    }
    assert done == Expired(before.files, bare, first);
  }

  lemma ClearedStep(s: Store, t: Store, u: Store, first: int, removals: int -> Removal, done: set<int>,
                    failed: set<int>, day: int)
    requires Cleared(s, t, first, removals, done, failed) && day < first && day !in done
    requires u == t.(files := t.files - Victims(t.files, day, removals(day)), horizon := Max(t.horizon, day + 1))
    ensures Cleared(s, u, first, removals, done + {day}, if removals(day).Stuck? then failed + {day} else failed)
  {
  }

  function Marked(documents: map<Id, Row>, first: int, failed: set<int>): map<Id, Row> {
    map id | id in documents :: Archive.Purge(documents[id], first, failed)
  }

  /**
   What one purge does. Rows before the frontier are marked unless their directory could
   not be removed; the files of every later day are untouched; and no file is left behind
   a row that says it is gone.
   */
  ghost predicate Cleaned(s: Store, t: Store, rootExists: bool, first: int, removals: int -> Removal,
                          failed: set<int>) {
    && (!rootExists ==> t == s)
    && (rootExists ==>
          && t == s.(documents := t.documents, files := t.files, horizon := t.horizon)
          && t.documents == Marked(s.documents, first, failed)
          && t.horizon == Max(s.horizon, first))
    && (forall path :: path in t.files ==> path in s.files && t.files[path] == s.files[path])
    && (forall path :: path in s.files && path.day >= first ==> path in t.files)
    && (rootExists ==> forall path :: path in t.files && path.day < first ==> path.day in failed)
    && (forall day :: day in failed ==> day < first && removals(day).Stuck?)
  }

  method Run(host: Host, rootExists: bool, bare: set<int>, first: int, removals: int -> Removal)
    returns (report: Report)
    requires host.Valid() && Padded(first)
    modifies host
    ensures host.Valid() && old(host.log) <= host.log
    ensures Cleaned(old(host.store), host.store, rootExists, first, removals, report.failed)
  {
    hide Inv, Allowed, Replay, Naming.IdentityOf, DayText, TextLess;
    report := Report(0, {});
    if !rootExists {
      return;
    }
    ghost var before := host.store;
    var removed, failed := RemoveDirectories(host, bare, first, removals);
    ghost var middle := host.store;
    assert forall path :: path in middle.files && path.day < first ==> path.day in Expired(before.files, bare, first);
    host.Issue(MarkPurged(first, failed));
    report := Report(removed, failed);
  }

  /** Every row that marking before a padded day adds to the purged ones was delivered before that day. */
  lemma MarkedBefore(documents: map<Id, Row>, first: int, failed: set<int>)
    requires Padded(first)
    ensures forall id :: id in documents && Marked(documents, first, failed)[id].purged && !documents[id].purged ==>
      documents[id].delivery < first
  {
    hide DayText, TextLess;
    forall id | id in documents && Marked(documents, first, failed)[id].purged && !documents[id].purged
      ensures documents[id].delivery < first
    {
      if Padded(documents[id].delivery) {
        TextOrder(documents[id].delivery, first);
      }
    }
  }
}
