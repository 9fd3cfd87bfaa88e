/**
 * The list of temporary files the command creates and deletes on exit
 * (shared/tmp_files_manager.go). Deleting a file is I/O: the model keeps
 * the paths it asked the file system to remove, in order, and ignores the
 * outcome as the source does.
 */
module TmpFiles {
  /** `TmpFilesManager`: the paths stored so far, and the removals requested. */
  class TmpFilesManager {
    var files: seq<string>
    var removed: seq<string>

    /** `NewTmpFileManager`: no paths. */
    constructor ()
      ensures files == [] && removed == []
    {
      files := [];
      removed := [];
    }

    /** `Store`: the paths are appended in the order given; none leaves the list as it was. */
    method Store(args: seq<string>)
      modifies this
      ensures files == old(files) + args
      ensures removed == old(removed)
    {
      files := files + args;
    }

    /** `RemoveAll`: every stored path is removed, in order, and the list is emptied. */
    method RemoveAll()
      modifies this
      ensures removed == old(removed) + old(files)
      ensures files == []
    {
      for i := 0 to |files|
        invariant files == old(files)
        invariant removed == old(removed) + files[..i]
      {
        removed := removed + [files[i]];
      }
      files := [];
    }
  }
}
