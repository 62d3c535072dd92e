/** Stored attachments: generated names in one directory per stage of a job. */
module Attachments {
  import opened Wrappers

  newtype Byte = b: int | 0 <= b < 256
  type Bytes = seq<Byte>

  datatype Stage = IncomingDir | ProcessingDir | CompletedDir | FailedDir

  datatype Path = Path(stage: Stage, name: string)

  /** move_to on the contents of the disk: the destination is overwritten. */
  function Moved(files: map<Path, Bytes>, path: Path, stage: Stage): map<Path, Bytes>
    requires path in files
  {
    (files - {path})[Path(stage, path.name) := files[path]]
  }

  /** Files of other names are as they were. */
  ghost predicate OnlyFile(before: map<Path, Bytes>, after: map<Path, Bytes>, name: string) {
    forall p: Path :: p.name != name ==> (p in before <==> p in after) && (p in before ==> after[p] == before[p])
  }

  class FileStore {
    var files: map<Path, Bytes>

    constructor ()
      ensures files == map[]
    {
      files := map[];
    }

    /** The name is fresh: it starts with a random number drawn for this file alone. */
    method SaveIncoming(content: Bytes, name: string) returns (path: Path)
      requires forall stage :: Path(stage, name) !in files
      modifies this
      ensures path == Path(IncomingDir, name)
      ensures files == old(files)[path := content]
    {
      path := Path(IncomingDir, name);
      files := files[path := content];
    }

    /** Raises when there is no such file. */
    method MoveTo(path: Path, stage: Stage) returns (r: Option<Path>)
      modifies this
      ensures path in old(files) ==> r == Some(Path(stage, path.name)) && files == Moved(old(files), path, stage)
      ensures path !in old(files) ==> r == None && files == old(files)
    {
      if path !in files {
        return None;
      }
      files := Moved(files, path, stage);
      return Some(Path(stage, path.name));
    }
  }

  /** A file moved through any stages keeps its name and its content, and every other file stays. */
  lemma MoveKeepsContent(files: map<Path, Bytes>, path: Path, stage: Stage)
    requires path in files
    ensures var after := Moved(files, path, stage);
            && Path(stage, path.name) in after
            && after[Path(stage, path.name)] == files[path]
            && (path.stage != stage ==> path !in after)
            && OnlyFile(files, after, path.name)
  {
  }
}
