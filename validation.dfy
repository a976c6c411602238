/** The path check the charm runs on its stripped configuration (src/charm.py, `_validate_paths`). */
module Validation {

  import opened Wrappers
  import opened Strings

  const FromPathError := "from_path must start with '/'"
  const ToPathError := "to_path must start with '/'"

  /** An acceptable path: non-empty, with a slash as its first character. */
  predicate IsAbsolutePath(s: string) {
    |s| > 0 && s[0] == '/'
  }

  /**
   * The first configuration error found, or `None`. The from-path is checked
   * before the to-path, so a bad from-path is reported whatever the to-path is.
   */
  function ValidatePaths(fromPath: string, toPath: string): (error: Option<string>)
    ensures error == None <==> IsAbsolutePath(fromPath) && IsAbsolutePath(toPath)
    ensures !IsAbsolutePath(fromPath) ==> error == Some(FromPathError)
    ensures IsAbsolutePath(fromPath) && !IsAbsolutePath(toPath) ==> error == Some(ToPathError)
  {
    if fromPath == [] || !StartsWith(fromPath, "/") then Some(FromPathError)
    else if toPath == [] || !StartsWith(toPath, "/") then Some(ToPathError)
    else None
  }

  /** Every error message names the configuration option it is about. */
  lemma ErrorsNameTheirField(fromPath: string, toPath: string)
    ensures ValidatePaths(fromPath, toPath) == Some(FromPathError) ==>
      Contains(ValidatePaths(fromPath, toPath).value, "from_path")
    ensures ValidatePaths(fromPath, toPath) == Some(ToPathError) ==>
      Contains(ValidatePaths(fromPath, toPath).value, "to_path")
  {
  }
}
