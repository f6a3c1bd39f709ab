/** The disk the generator reads and writes: files with their bytes and the
    directories that exist. Only the operations the modelled code performs
    are given; permissions and failing writes are not modelled. */
module FileSystems {
  import opened Wrappers
  import opened Base64

  class FileSystem {
    var files: map<string, seq<byte>>
    var dirs: set<string>

    constructor (files0: map<string, seq<byte>>, dirs0: set<string>)
      ensures files == files0 && dirs == dirs0
    {
      files := files0;
      dirs := dirs0;
    }

    /** `fs.access` succeeds: something exists at the path. */
    predicate Exists(path: string)
      reads this
    {
      path in files || path in dirs
    }

    /** `fs.readFile(path)`: the bytes, or nothing when there is no file. */
    function ReadFile(path: string): (r: Option<seq<byte>>)
      reads this
      ensures r.Some? <==> path in files
      ensures r.Some? ==> r.value == files[path]
    {
      if path in files then Some(files[path]) else None
    }

    /** `fs.writeFile(path, data)`: creates or replaces the file. */
    method WriteFile(path: string, data: seq<byte>)
      modifies this
      ensures files == old(files)[path := data] && dirs == old(dirs)
      ensures ReadFile(path) == Some(data)
    {
      files := files[path := data];
    }

    /** `fs.mkdir(path, { recursive: true })`: the directory exists
        afterwards (the parents it also creates are not tracked). */
    method MakeDirectory(path: string)
      modifies this
      ensures dirs == old(dirs) + {path} && files == old(files)
      ensures Exists(path)
    {
      dirs := dirs + {path};
    }
  }
}
