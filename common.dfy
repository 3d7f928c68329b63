/**
  Values shared by the scheduler's packages: an optional value, the outcome of
  one fallible remote call, the container fields a job template carries, and
  the `dir/file` path format every package builds its file names with.
*/
module Common {

  datatype Option<+T> = None | Some(value: T)

  /** The outcome of one call that yields a value or an error (Go's `(T, error)` pair). */
  datatype Attempt<+T> = Success(value: T) | Failure(error: string)

  /**
    A container of a job or pod template. The scheduler overwrites `args` and
    possibly `image`; `name` and `command` stand for the fields it leaves alone.
  */
  datatype Container = Container(name: string, image: string, command: seq<string>, args: seq<string>)

  /** `fmt.Sprintf("%s/%s", dir, file)`: the directory, one slash, then the file name. */
  function JoinPath(dir: string, file: string): (path: string)
    ensures |path| == |dir| + 1 + |file|
    ensures path[..|dir|] == dir && path[|dir|] == '/' && path[|dir| + 1..] == file
  {
    dir + "/" + file
  }
}
