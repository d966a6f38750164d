/**
 * The host's files as the code sees them through `os.ReadFile`, `os.WriteFile` and `os.Remove`:
 * a map from path to content and, for each operation, the paths on which it fails (a permission
 * or device error). A file can be readable and still refuse a write.
 */
module FileStore {
  import opened Common

  /** What `os.Remove` reports. */
  datatype RemoveOutcome = Removed | NotExist | RemoveFailed(error: string)

  /** The error texts of a refused read, a missing file and a refused write. */
  function ReadError(path: string): string { "open " + path + ": permission denied" }
  function MissingError(path: string): string { "open " + path + ": no such file or directory" }
  function WriteError(path: string): string { "open " + path + ": permission denied" }

  class Files {
    var contents: map<string, string>
    var readFaults: set<string>
    var writeFaults: set<string>
    var removeFaults: set<string>

    constructor (contents0: map<string, string>, readFaults0: set<string>, writeFaults0: set<string>, removeFaults0: set<string>)
      ensures contents == contents0
      ensures readFaults == readFaults0 && writeFaults == writeFaults0 && removeFaults == removeFaults0
    {
      contents := contents0;
      readFaults, writeFaults, removeFaults := readFaults0, writeFaults0, removeFaults0;
    }

    /** `os.ReadFile`: the content of an existing, readable file. */
    method ReadFile(path: string) returns (r: Result<string>)
      ensures r.Ok? <==> path in contents && path !in readFaults
      ensures r.Ok? ==> r.value == contents[path]
      ensures path in readFaults ==> r == Err(ReadError(path))
      ensures path !in readFaults && path !in contents ==> r == Err(MissingError(path))
    {
      if path in readFaults {
        return Err(ReadError(path));
      }
      if path !in contents {
        return Err(MissingError(path));
      }
      return Ok(contents[path]);
    }

    /** `os.WriteFile`: replaces the content of a writable path. */
    method WriteFile(path: string, data: string) returns (r: Outcome)
      modifies this`contents
      ensures r == if path in writeFaults then Fail(WriteError(path)) else Pass
      ensures contents == if path in writeFaults then old(contents) else old(contents)[path := data]
    {
      if path in writeFaults {
        return Fail(WriteError(path));
      }
      contents := contents[path := data];
      return Pass;
    }

    /** `os.Remove`: an absent file is reported as NotExist. */
    method Remove(path: string) returns (r: RemoveOutcome)
      modifies this`contents
      ensures r.RemoveFailed? <==> path in removeFaults
      ensures r == NotExist <==> path !in removeFaults && path !in old(contents)
      ensures contents == if r == Removed then old(contents) - {path} else old(contents)
    {
      if path in removeFaults {
        return RemoveFailed("remove " + path + ": permission denied");
      }
      if path !in contents {
        return NotExist;
      }
      contents := contents - {path};
      return Removed;
    }
  }
}
