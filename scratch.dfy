/** The local scratch area: the `definitions` directory under the temporary
    workspace, seen as a map from file name to the record stored in it. */
module Scratch {
  import opened Pipeline

  class ScratchDir {
    /** Whether the directory exists on disk. */
    var present: bool
    /** The files in it, by name. */
    var files: map<string, Artifact>

    /** A directory that does not exist holds no files. */
    ghost predicate Valid()
      reads this
    {
      !present ==> files == map[]
    }

    constructor (present: bool, files: map<string, Artifact>)
      requires present || files == map[]
      ensures Valid() && this.present == present && this.files == files
    {
      this.present := present;
      this.files := files;
    }

    /** Removes the whole temporary workspace if it exists; does nothing
        otherwise. Either way the directory is absent afterwards, so a second
        call changes nothing. */
    method Clean()
      requires Valid()
      modifies this
      ensures Valid() && !present && files == map[]
    {
      if present {
        present := false;
        files := map[];
      }
    }

    /** Creates the directory and its parents if needed; existing files stay. */
    method MakeDirs()
      requires Valid()
      modifies this
      ensures Valid() && present
      ensures files == old(files)
    {
      present := true;
    }

    /** Writes one file, replacing any file of the same name. */
    method Write(name: string, content: Artifact)
      requires Valid() && present
      modifies this
      ensures Valid() && present
      ensures files == old(files)[name := content]
    {
      files := files[name := content];
    }
  }
}
