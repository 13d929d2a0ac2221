/**
 Rewriting funds.yaml without losing a human's edit.

 The human may write at any of five points of a save; what they write there, if
 anything, is a parameter. Content is compared by digest, and the digest is ideal.
 */
module YamlStore {
  import opened Base

  type Text = string

  datatype Digest = Sha256(of: Text)

  function DigestOf(content: Option<Text>): Option<Digest> {
    match content case None => None case Some(text) => Some(Sha256(text))
  }

  /** What the editor does at one point: nothing, write this, or delete the file. */
  datatype Edit = Nothing | Write(text: Text) | Delete

  /** The edits that land around each step of one save. */
  datatype Editor = Editor(
    beforeFirstRead: Edit,
    beforeBackup: Edit,
    beforeStaging: Edit,
    beforeFinalRead: Edit,
    inTheGap: Edit)

  function After(edit: Edit, content: Option<Text>): Option<Text> {
    match edit case Nothing => content case Write(text) => Some(text) case Delete => None
  }

  datatype Outcome = Saved | ConflictAtOnce | ConflictLate

  /** The three cells a save works on: the shared file, its backup, and what was last loaded or written. */
  datatype Files = Files(onDisk: Option<Text>, backup: Option<Text>, sourceDigest: Option<Digest>)

  /** The file as the first read of a save finds it. */
  function FirstSeen(f: Files, editor: Editor): Option<Text> {
    After(editor.beforeFirstRead, f.onDisk)
  }

  /** The file as the final re-read finds it. */
  function LastSeen(f: Files, editor: Editor): Option<Text> {
    After(editor.beforeFinalRead, After(editor.beforeStaging, After(editor.beforeBackup, FirstSeen(f, editor))))
  }

  /** Both looks find the version the robot knows. */
  predicate Proceeds(f: Files, editor: Editor) {
    DigestOf(FirstSeen(f, editor)) == f.sourceDigest && DigestOf(LastSeen(f, editor)) == f.sourceDigest
  }

  /** What one save, run among the edits of `editor`, leaves behind. */
  function Step(f: Files, rendered: Text, keepBackup: bool, editor: Editor): Files {
    var first, last := FirstSeen(f, editor), LastSeen(f, editor);
    if DigestOf(first) != f.sourceDigest then f.(onDisk := first)
    else
      var backup := if keepBackup && first.Some? then first else f.backup;
      if DigestOf(last) != f.sourceDigest then Files(last, backup, f.sourceDigest)
      else Files(Some(rendered), backup, Some(Sha256(rendered)))
  }

  class FundsFile {
    var onDisk: Option<Text>
    var backup: Option<Text>
    var sourceDigest: Option<Digest>

    function Contents(): Files
      reads this
    {
      Files(onDisk, backup, sourceDigest)
    }

    constructor (found: Text)
      ensures Contents() == Files(Some(found), None, Some(Sha256(found)))
    {
      onDisk, backup, sourceDigest := Some(found), None, Some(Sha256(found));
    }

    /** Two looks at the file, a backup, a staging write and a rename, with an editor at work in every gap. */
    method Save(rendered: Text, keepBackup: bool, editor: Editor) returns (outcome: Outcome)
      modifies this
      ensures Contents() == Step(old(Contents()), rendered, keepBackup, editor)
      ensures outcome == Saved <==> Proceeds(old(Contents()), editor)
      ensures outcome == ConflictAtOnce <==> DigestOf(FirstSeen(old(Contents()), editor)) != old(sourceDigest)
    {
      onDisk := After(editor.beforeFirstRead, onDisk);
      var current := onDisk;
      if DigestOf(current) != sourceDigest {
        return ConflictAtOnce;
      }
      onDisk := After(editor.beforeBackup, onDisk);
      if keepBackup && current.Some? {
        backup := current;
      }
      onDisk := After(editor.beforeStaging, onDisk);
      onDisk := After(editor.beforeFinalRead, onDisk);
      var latest := onDisk;
      if DigestOf(latest) != sourceDigest {
        return ConflictLate;
      }
      onDisk := After(editor.inTheGap, onDisk);
      onDisk := Some(rendered);
      sourceDigest := Some(Sha256(rendered));
      outcome := Saved;
    }
  }

  // ------------------------------------------------------- any sequence of saves

  datatype Round = Round(rendered: Text, editor: Editor)

  function Rounds(f: Files, rounds: seq<Round>): Files {
    if rounds == [] then f
    else
      var last := rounds[|rounds| - 1];
      Step(Rounds(f, rounds[..|rounds| - 1]), last.rendered, true, last.editor)
  }

  /** The version the robot itself last loaded or wrote. */
  function Own(f: Files, loaded: Option<Text>, rounds: seq<Round>): Option<Text> {
    if rounds == [] then loaded
    else
      var last := rounds[|rounds| - 1];
      if Proceeds(Rounds(f, rounds[..|rounds| - 1]), last.editor) then Some(last.rendered)
      else Own(f, loaded, rounds[..|rounds| - 1])
  }

  lemma {:induction false} DigestTracksOwn(f: Files, loaded: Option<Text>, rounds: seq<Round>)
    requires f.sourceDigest == DigestOf(loaded)
    ensures Rounds(f, rounds).sourceDigest == DigestOf(Own(f, loaded, rounds))
  {
    if rounds != [] {
      DigestTracksOwn(f, loaded, rounds[..|rounds| - 1]);
    }
  }

  /** The bytes the rename of a save that proceeds replaces. */
  function Overwritten(f: Files, editor: Editor): Option<Text> {
    After(editor.inTheGap, LastSeen(f, editor))
  }

  /**
   No lost edit, after any sequence of saves among any edits. A save proceeds exactly
   when both looks find the robot's own last version; then the backup holds that
   version, and what it overwrites is a human's text exactly when that text landed in
   the gap between the final re-read and the rename. Otherwise the bytes the save saw
   last are what stays on disk.
   */
  lemma NoLostEdit(f: Files, loaded: Option<Text>, rounds: seq<Round>, rendered: Text, editor: Editor)
    requires f.sourceDigest == DigestOf(loaded)
    ensures var g, own := Rounds(f, rounds), Own(f, loaded, rounds);
            var h := Step(g, rendered, true, editor);
            && (Proceeds(g, editor) <==> FirstSeen(g, editor) == own && LastSeen(g, editor) == own)
            && (Proceeds(g, editor) ==>
                  && h.onDisk == Some(rendered) && (own.Some? ==> h.backup == own)
                  && (Overwritten(g, editor) != own <==> After(editor.inTheGap, own) != own))
            && (!Proceeds(g, editor) ==>
                  && h.sourceDigest == g.sourceDigest
                  && h.onDisk == (if FirstSeen(g, editor) != own then FirstSeen(g, editor) else LastSeen(g, editor))
                  && h.onDisk != own)
  {
    DigestTracksOwn(f, loaded, rounds);
  }
}
