/** Option, Result and the errors the scaffolding generator raises. */
module Outcomes {

  datatype Option<+T> = None | Some(value: T)

  /** The exceptions the generator raises, one constructor per raise site kind. */
  datatype Error =
    | NotPythonFile(name: string)     // ValueError: target name does not end in ".py"
    | FileNotFound(path: string)      // FileNotFoundError from find_file_path / parse_file
    | SyntaxError(path: string)       // ast.parse rejected the file
    | NoClasses(path: string)         // ValueError: no class in the Python file
    | MultipleClasses(path: string)   // ValueError: more than one class in the Python file

  datatype Result<+R> = Success(value: R) | Failure(error: Error) {
    predicate IsFailure() {
      Failure?
    }

    function PropagateFailure<U>(): Result<U>
      requires Failure?
    {
      Failure(error)
    }

    function Extract(): R
      requires Success?
    {
      value
    }
  }
}
