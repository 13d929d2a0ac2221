/**
 A life that strands a file, acted out by the stages themselves: a first process files a
 document and dies before its row says so; the second cannot read the file, queues the
 row again, and is served the document in another format.
 */
module Stranding {
  import opened Base
  import opened Clock
  import opened Listing
  import opened Archive
  import opened Safety
  import opened Traces
  import opened Hosts
  import opened Orphans
  import Fetch
  import Naming
  import Reconcile

  /** The bare reply of a source that says nothing about what it serves. */
  function Served(content: Bytes, kind: Fetch.Kind): Fetch.Answer {
    Fetch.Reply(content, kind, None, None, None)
  }

  /** The first process, cut after the rename. */
  method DieBeforeMarking(accepts: Bytes -> bool, row: DocumentRow, entity: int, setting: Fetch.Setting, content: Bytes)
    returns (s: Store, log: seq<Effect>, cut: nat, path: Path)
    requires accepts(content) && Padded(DayOf(row.at)) && {Fetch.Pdf, Fetch.Xml} <= setting.wanted
    ensures Inv(accepts, EMPTY) && Allowed(accepts, EMPTY, log) && cut <= |log| && s == Replay(EMPTY, log[..cut])
        && Inv(accepts, s)
    ensures IsPending(s, row.id) && !Undated(s, row.id) && Failures(s.attempts, row.id) == 0
    ensures s.documents[row.id].path == Some(path) && path in s.files
    ensures EndsWith(path.name, 'f') && Naming.IdentityOf(path.name) == Some(row.id)
  {
    hide Inv, Allowed, Replay, Naming.IdentityOf, Failures, Successes, Naming.DocumentFilename, Fetch.Steps;
    EmptyIsSound(accepts);
    NoFailuresYet(row.id);
    var host := new Host(accepts, EMPTY);
    host.Issue(Upsert(row, entity));
    var known := host.store;
    var result := Fetch.FetchOne(host, row.id, None, setting, Served(content, Fetch.Pdf), Fetch.NoFault);
    path := Fetch.Target(setting, known.documents[row.id], row.id, Fetch.Pdf);
    LastSteps(setting, known.documents[row.id], row.id, content);
    assert result == Fetch.Filed;
    log, cut := host.log, |host.log| - 2;
    assert log[cut] == Commit([MarkAvailable(row.id, path, "pdf", Sha256(content))]);
    host.Sound();
    Fetch.TargetIsNamed(setting, known.documents[row.id], row.id, Fetch.Pdf);
    s := Replay(EMPTY, log[..cut]);
    BeforeMarking(accepts, log, cut, row.id, path, Sha256(content));
    PointsGrow(accepts, EMPTY, log, cut, |log|);
    assert log[..|log|] == log;
    AppendAttempt([], Attempt(row.id, Success), row.id);
    FailuresGrow(s.attempts, host.store.attempts, row.id);
    NameEnds(setting.unicode, setting.prefix, known.documents[row.id].facts.category,
             known.documents[row.id].facts.species, row.id);
  }

  /** How the effects of a download that landed end. */
  lemma LastSteps(setting: Fetch.Setting, row: Row, id: Id, content: Bytes)
    ensures var steps := Fetch.Steps(setting, row, id, Served(content, Fetch.Pdf), Fetch.NoFault, Fetch.Filed);
            |steps| == 8
            && steps[6]
               == Commit([MarkAvailable(id, Fetch.Target(setting, row, id, Fetch.Pdf), "pdf", Sha256(content))])
  {
    hide Fetch.Target;
  }

  predicate EndsWith(s: string, c: char) { s != "" && s[|s| - 1] == c }

  lemma NoFailuresYet(id: Id)
    ensures Failures(EMPTY.attempts, id) == 0
  {
  }

  /** What had been established when a row was about to be marked available. */
  lemma BeforeMarking(accepts: Bytes -> bool, log: seq<Effect>, cut: nat, id: Id, path: Path, digest: Digest)
    requires Allowed(accepts, EMPTY, log) && cut < |log| && log[cut] == Commit([MarkAvailable(id, path, "pdf", digest)])
    ensures var s := Replay(EMPTY, log[..cut]);
            IsPending(s, id) && s.documents[id].path == Some(path) && path in s.files
  {
    hide Allowed, Replay, ExecuteAll, MayExecuteAll;
    NextIsAllowed(accepts, EMPTY, log, cut);
    OneStatement(Replay(EMPTY, log[..cut]), MarkAvailable(id, path, "pdf", digest));
  }

  lemma NameEnds(u: Naming.Unicode, prefix: string, category: string, species: string, id: Id)
    ensures EndsWith(Naming.DocumentFilename(u, prefix, category, species, id, "pdf"), 'f')
    ensures EndsWith(Naming.DocumentFilename(u, prefix, category, species, id, "xml"), 'l')
  {
    hide Naming.Front, Naming.IdentityOf;
    Naming.NothingToStrip("pdf");
    Naming.NothingToStrip("xml");
  }

  /**
   The whole life. The file of the first process is an orphan at its end, although every
   stage did what it always does and nothing was left mid-flight.
   */
  method StrandAFile(accepts: Bytes -> bool, row: DocumentRow, entity: int, setting: Fetch.Setting, pdf: Bytes,
                     xml: Bytes, maxBytes: nat)
    returns (s: Store, runs: seq<Run>, path: Path)
    requires accepts(pdf) && accepts(xml) && Padded(DayOf(row.at)) && {Fetch.Pdf, Fetch.Xml} <= setting.wanted
    ensures History(accepts, runs) && |runs| == 2 && s == After(runs)
    ensures Readable(s, row.id) && IsOrphan(s, path)
  {
    hide Inv, Allowed, Replay, Naming.IdentityOf, Failures, Successes, Naming.DocumentFilename, Reconcile.Settled,
      Fetch.Steps, EndsWith, IsOrphan, Fetch.OnlyTouches;
    var found, log, cut;
    found, log, cut, path := DieBeforeMarking(accepts, row, entity, setting, pdf);
    var host := new Host(accepts, found);
    var env := Reconcile.Surroundings(_ => false, maxBytes, 0);
    var report := Reconcile.Run(host, env);
    Requeued(accepts, env, found, row.id);
    ghost var settled := host.store;
    var result := Fetch.FetchOne(host, row.id, None, setting, Served(xml, Fetch.Xml), Fetch.NoFault);
    assert result == Fetch.Filed;
    ghost var filed := settled.documents[row.id];
    NameEnds(setting.unicode, setting.prefix, filed.facts.category, filed.facts.species, row.id);
    assert Fetch.Target(setting, filed, row.id, Fetch.Xml).name
        == Naming.DocumentFilename(setting.unicode, setting.prefix, filed.facts.category, filed.facts.species,
                                   row.id, "xml");
    s := host.store;
    runs := [Run(log, cut), Run(host.log, |host.log|)];
    TwoRuns(accepts, log, cut, found, host.log);
    DifferentEnds(path.name, Fetch.Target(setting, filed, row.id, Fetch.Xml).name);
    assert s.documents[row.id].path == Some(Fetch.Target(setting, filed, row.id, Fetch.Xml));
    Elsewhere(s, row.id, path);
  }

  lemma DifferentEnds(a: string, b: string)
    requires EndsWith(a, 'f') && EndsWith(b, 'l')
    ensures a != b
  {
  }

  /** A file that cannot be read sends its row back to the queue, and stays where it is. */
  lemma Requeued(accepts: Bytes -> bool, env: Reconcile.Surroundings, s: Store, id: Id)
    requires IsPending(s, id) && forall path :: !env.readable(path)
    ensures var t := Reconcile.Settled(accepts, env, s);
            && IsPending(t, id) && t.files == s.files && t.attempts == s.attempts
            && t.documents[id] == s.documents[id].(state := t.documents[id].state)
  {
  }

  lemma TwoRuns(accepts: Bytes -> bool, first: seq<Effect>, cut: nat, found: Store, second: seq<Effect>)
    requires Allowed(accepts, EMPTY, first) && cut <= |first| && found == Replay(EMPTY, first[..cut])
        && Allowed(accepts, found, second)
    ensures var runs := [Run(first, cut), Run(second, |second|)];
            History(accepts, runs) && After(runs) == Replay(found, second)
  {
    hide Allowed, Replay;
    var runs := [Run(first, cut), Run(second, |second|)];
    var one := [Run(first, cut)];
    assert runs[..1] == one && one[..0] == [] && second[..|second|] == second;
    assert History(accepts, []) && After([]) == EMPTY;
    assert History(accepts, one) && After(one) == found;
  }

  /** A file whose publication is filed elsewhere has no row. */
  lemma Elsewhere(s: Store, id: Id, path: Path)
    requires id in s.documents && path in s.files && s.documents[id].path.Some? && s.documents[id].path != Some(path)
    requires Naming.IdentityOf(path.name) == Some(id)
    ensures IsOrphan(s, path)
  {
    hide Naming.IdentityOf;
  }
}
