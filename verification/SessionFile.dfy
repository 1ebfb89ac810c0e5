/**
How the CLI replaces a private file: a new temporary file beside it, written and synced, then renamed
over the target. The process may fail or stop at any point; whoever reads the target then finds it
wholly old or wholly new.
*/
module SessionFile {
  type Path = int
  type Bytes = seq<bv8>

  /** Where a write stops: an operating-system error at a step (after which the temporary file is
      deleted, unless that fails too), the process dying after a step (with `written` bytes of the
      temporary file on disk), or nothing at all. */
  datatype Interruption =
    | Nothing
    | CreateFails
    | WriteFails(written: nat, cleans: bool)
    | SyncFails(cleans: bool)
    | RenameFails(cleans: bool)
    | DiesAfterCreate(written: nat)
    | DiesAfterRename
  {
    predicate Dies() {
      DiesAfterCreate? || DiesAfterRename?
    }

    predicate Renames() {
      Nothing? || DiesAfterRename?
    }

    /** The temporary file stays behind. */
    predicate Litters() {
      DiesAfterCreate? || ((WriteFails? || SyncFails? || RenameFails?) && !cleans)
    }
  }

  datatype Outcome = Written | Failed | Died

  class Directory {
    var files: map<Path, Bytes>

    constructor (files: map<Path, Bytes>)
      ensures this.files == files
    {
      this.files := files;
    }

    /** Deletes the temporary file if that works; its error is ignored. */
    method CleanUp(temporary: Path, works: bool)
      modifies this
      ensures files == if works then old(files) - {temporary} else old(files)
    {
      if works {
        files := files - {temporary};
      }
    }

    /** `temporary` is a fresh name: it carries a random id. */
    method WritePrivate(target: Path, temporary: Path, bytes: Bytes, interruption: Interruption)
      returns (outcome: Outcome)
      requires temporary !in files && temporary != target
      modifies this
      // The target is wholly new or wholly as before, and no other file is touched.
      ensures files - {temporary} == if interruption.Renames() then old(files)[target := bytes] else old(files)
      ensures outcome == Written ==> interruption.Renames()
      ensures outcome == Failed ==> !interruption.Renames()
      // The temporary file stays only when the process died or the clean-up failed as well.
      ensures temporary in files <==> interruption.Litters()
      // It then holds a beginning of the new contents, as far as the write got.
      ensures temporary in files ==> files[temporary] <= bytes
      ensures temporary in files && (interruption.SyncFails? || interruption.RenameFails?) ==> files[temporary] == bytes
      ensures temporary in files && (interruption.WriteFails? || interruption.DiesAfterCreate?) ==>
        (|files[temporary]| == interruption.written || |bytes| == |files[temporary]| < interruption.written)
      ensures outcome == Died <==> interruption.Dies()
    {
      if interruption.CreateFails? {
        return Failed;
      }
      files := files[temporary := []];
      if interruption.WriteFails? || interruption.DiesAfterCreate? {
        files := files[temporary := if interruption.written <= |bytes| then bytes[..interruption.written] else bytes];
        if interruption.DiesAfterCreate? {
          return Died;
        }
        CleanUp(temporary, interruption.cleans);
        return Failed;
      }
      files := files[temporary := bytes];
      if interruption.SyncFails? || interruption.RenameFails? {
        CleanUp(temporary, interruption.cleans);
        return Failed;
      }
      files := files[target := files[temporary]] - {temporary};
      outcome := if interruption.DiesAfterRename? then Died else Written;
    }
  }
}
