/** Error values of the bot library and the Option/Result wrappers that carry them.

    Go returns `(value, error)` pairs; the model returns a `Result` whose `Err` case
    holds the error value the Go code would have returned. */
module Errors {

  datatype Option<+T> = None | Some(value: T)

  datatype Result<+T> = Ok(value: T) | Err(error: Error)

  /** The errors the core can return. `Foreign` stands for any error produced by a
      collaborator (window enumeration, image conversion) whose text is opaque here. */
  datatype Error =
    | Foreign(detail: string)
      /** WindowPidNotFoundError: no window id was found for the application. */
    | PidNotFound(application: string)
      /** WindowPidGreaterThenOneError: more than one window id was found. */
    | PidGreaterThanOne(application: string)
      /** The wrapper DetectImage builds with `fmt.Errorf("... %v", err)`. */
    | ConvertFailed(cause: Error)

  /** The two error types that define their own `Is` method. */
  predicate IsWindowError(e: Error) {
    e.PidNotFound? || e.PidGreaterThanOne?
  }

  /** Two errors have the same Go type (the model's constructor). */
  predicate SameType(a: Error, b: Error) {
    match a
    case Foreign(_) => b.Foreign?
    case PidNotFound(_) => b.PidNotFound?
    case PidGreaterThanOne(_) => b.PidGreaterThanOne?
    case ConvertFailed(_) => b.ConvertFailed?
  }

  /** The `Is` method of the two window errors: a type assertion on the target,
      so any target of the same error type matches, whatever application it names. */
  function Is(e: Error, target: Error): (r: bool)
    requires IsWindowError(e)
    ensures r <==> SameType(e, target)
    ensures r ==> IsWindowError(target)
  {
    match e
    case PidNotFound(_) => target.PidNotFound?
    case PidGreaterThanOne(_) => target.PidGreaterThanOne?
  }

  const NotFoundName := "WindowPidNotFoundError"
  const GreaterThanOneName := "WindowPidGreaterThenOneError"
  const NotFoundPrefix := NotFoundName + ": failed to find pid for "
  const GreaterThanOnePrefix := GreaterThanOneName + ": more then one PID was found for "
  const ConvertPrefix := "failed to convert img to gocv.Mat: "

  /** The text `Error()` returns. */
  function Message(e: Error): (s: string)
    ensures e.ConvertFailed? ==>
              && |s| >= |ConvertPrefix|
              && s[..|ConvertPrefix|] == ConvertPrefix
              && s[|ConvertPrefix|..] == Message(e.cause)
  {
    match e
    case Foreign(detail) => detail
    case PidNotFound(app) => NotFoundPrefix + app
    case PidGreaterThanOne(app) => GreaterThanOnePrefix + app
    case ConvertFailed(cause) => ConvertPrefix + Message(cause)
  }

  /** `Is` matches every error of the receiver's type and nothing else: it ignores the
      application name, is symmetric among window errors, and the two window error
      types never match each other. */
  lemma IsMatchesByTypeOnly(a: string, b: string, other: Error)
    ensures Is(PidNotFound(a), PidNotFound(b))
    ensures Is(PidGreaterThanOne(a), PidGreaterThanOne(b))
    ensures !Is(PidNotFound(a), PidGreaterThanOne(b))
    ensures !Is(PidGreaterThanOne(a), PidNotFound(b))
    ensures IsWindowError(other) ==> (Is(PidNotFound(a), other) <==> Is(other, PidNotFound(b)))
    ensures !Is(PidNotFound(a), ConvertFailed(other)) && !Is(PidGreaterThanOne(a), ConvertFailed(other))
  {
  }

  /** The message of a window error names the application: it is the type's fixed prefix
      followed by exactly the application name, so the name can be read back from it. */
  lemma MessageNamesApplication(e: Error)
    requires IsWindowError(e)
    ensures e.PidNotFound? ==> Message(e)[..|NotFoundPrefix|] == NotFoundPrefix
    ensures e.PidGreaterThanOne? ==> Message(e)[..|GreaterThanOnePrefix|] == GreaterThanOnePrefix
    ensures e.PidNotFound? ==> Message(e)[|NotFoundPrefix|..] == e.application
    ensures e.PidGreaterThanOne? ==> Message(e)[|GreaterThanOnePrefix|..] == e.application
  {
  }

  /** The two window errors can never produce the same message, whatever the applications. */
  lemma WindowMessagesDiffer(a: string, b: string)
    ensures Message(PidNotFound(a)) != Message(PidGreaterThanOne(b))
  {
    assert Message(PidNotFound(a))[9] == NotFoundName[9] == 'N';
    assert Message(PidGreaterThanOne(b))[9] == GreaterThanOneName[9] == 'G';
  }
}
