/** The working directory the runtime hands to an adapter's `build_cmd`,
    as far as the adapters write into it: text files by path. */
module Workdirs {
  /** `workdir / name` for a plain file name. */
  function PathOf(dir: string, name: string): (r: string)
    ensures |r| == |dir| + 1 + |name|
    ensures r[..|dir|] == dir && r[|dir|] == '/' && r[|dir| + 1..] == name
  {
    dir + "/" + name
  }

  class Workdir {
    const path: string
    var files: map<string, string>

    constructor(path: string)
      ensures this.path == path && files == map[]
    {
      this.path := path;
      files := map[];
    }

    /** `(workdir / name).write_text(text)`: creates or replaces the file. */
    method WriteText(name: string, text: string) returns (file: string)
      modifies this
      ensures file == PathOf(path, name)
      ensures files == old(files)[file := text]
    {
      file := PathOf(path, name);
      files := files[file := text];
    }
  }
}
