/** Option and Result shapes used for the source's `Option<T>`,
    `anyhow::Result<T>` and `Result<T, KubeError>` values, and the
    error enumeration of the crate's error module. */
module Wrappers {

  datatype Option<+T> = None | Some(value: T) {
    /** `opt.unwrap_or(default)` */
    function GetOr(default: T): T {
      match this
      case Some(v) => v
      case None => default
    }
  }

  /** `a.or(b)`: the first present value. */
  function OrElse<T>(a: Option<T>, b: Option<T>): (r: Option<T>)
    ensures a.Some? ==> r == a
    ensures a.None? ==> r == b
  {
    if a.Some? then a else b
  }

  datatype Result<+T, +E> = Ok(value: T) | Err(error: E) {
    predicate IsFailure() { Err? }
    function PropagateFailure<U>(): Result<U, E>
      requires Err?
    {
      Err(error)
    }
    function Extract(): T
      requires Ok?
    {
      value
    }
  }

  /** The crate's error enumeration (src/shared/error.rs); the variants that
      wrap I/O and parser errors are not produced by the modelled code. */
  datatype KubeError =
    | KubeApiError(message: string)
    | ConfigError(message: string)
    | NotFound(resourceType: string, name: string, namespace: string)
    | AlreadyExists(resourceType: string, name: string, namespace: string)
    | Timeout(message: string)
    | InvalidResource(message: string)
    | ValidationError(message: string)

  // ------------------------------------------------------- first error

  /** The first present error at or after position i. */
  function FirstError<E>(errors: seq<Option<E>>, i: nat): (r: Option<E>)
    requires i <= |errors|
    decreases |errors| - i
  {
    if i == |errors| then None
    else if errors[i].Some? then errors[i]
    else FirstError(errors, i + 1)
  }

  /** No error is reported exactly when every position is clean, and a
      reported error is that of the first failing position. */
  lemma {:induction false} FirstErrorIsFirst<E>(errors: seq<Option<E>>, i: nat)
    requires i <= |errors|
    ensures FirstError(errors, i).None? <==> forall j :: i <= j < |errors| ==> errors[j].None?
    ensures FirstError(errors, i).Some? ==>
      exists j :: i <= j < |errors| && errors[j] == FirstError(errors, i) && forall k :: i <= k < j ==> errors[k].None?
    decreases |errors| - i
  {
    if i < |errors| && errors[i].None? {
      FirstErrorIsFirst(errors, i + 1);
    }
  }

  /** One step of the scan: a clean position passes the search on. */
  lemma FirstErrorStep<E>(errors: seq<Option<E>>, i: nat)
    requires i < |errors|
    ensures errors[i].None? ==> FirstError(errors, i) == FirstError(errors, i + 1)
    ensures errors[i].Some? ==> FirstError(errors, i) == errors[i]
  {
  }
}
