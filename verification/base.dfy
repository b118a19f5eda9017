/**
 Java-side vocabulary shared by every module of the model: a nullable
 reference is an `Option`, and a call that can throw on a caller error
 returns a `Result` whose failure names the exception.
 */
module JavaBasics {

  /** A Java reference that may be null. */
  datatype Option<+T> = None | Some(value: T) {
    function GetOr(default: T): T {
      match this
      case Some(v) => v
      case None => default
    }
  }

  /** The exceptions the core throws on caller errors. Lombok's `@NonNull`
      throws `NullPointerException` naming the parameter; a builder that is
      not ready throws `IllegalStateException`. */
  datatype Failure =
    | NullPointer(parameter: string)
    | IllegalState(message: string)

  /** The outcome of a call that may throw one of the exceptions above. */
  datatype Result<+T> = Ok(value: T) | Err(failure: Failure)

  /** Java's string concatenation renders a null reference as "null". */
  function Render(s: Option<string>): string
  {
    match s
    case Some(v) => v
    case None => "null"
  }
}
