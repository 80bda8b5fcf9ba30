/** Option, the error taxonomy and the Result type shared by every module.
    The error constructors are the exception classes of lk_flow/errors.py plus
    the Python built-in exceptions that the core raises implicitly. */
module Outcomes {

  datatype Option<T> = None | Some(value: T)

  datatype Error =
    // lk_flow/errors.py
    | RunError(message: string)
    | DictionaryNotExist(message: string)
    | ModNotFoundError(message: string)
    | RunningError(message: string)
    | ProcessRuntimeError(message: string)
    | DuplicateModError(message: string)
    | DirNotFoundError(message: string)
    | YamlFileExistsError(message: string)
    | DuplicateTaskNameError(message: string)
    // the lookup miss of Context.get_process, which context.py does not define
    | TaskNotFound(name: string)
    // Python built-ins raised by the core's own statements
    | KeyError(key: string)
    | ValueError(message: string)
    | AttributeError(attribute: string)
    | TypeError(message: string)
    | RuntimeError(message: string)
    | OSError(message: string)  // from the operating system: os.stat, spawning a child

  datatype Result<T> = Ok(value: T) | Err(error: Error)

  /** The error a unit result carries, if any. */
  function ErrorOf(r: Result<()>): Option<Error>
  {
    if r.Err? then Some(r.error) else None
  }

  /** No element occurs twice. */
  predicate Distinct<T(==)>(s: seq<T>)
  {
    forall i, j :: 0 <= i < j < |s| ==> s[i] != s[j]
  }
}
