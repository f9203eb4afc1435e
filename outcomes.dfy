/** Failure kinds that reach the session's wrappers, and the two catch filters
    the wrappers apply to them. */
module Outcomes {

  datatype Option<+T> = None | Some(value: T)

  /** The six exception types every strict catch filter names, followed by the
      other failures a wrapper can meet (a null driver, a bad random range,
      anything else thrown by the automation library). */
  datatype FailureKind =
    | Timeout
    | ElementNotInteractable
    | ElementNotVisible
    | ElementNotSelectable
    | StaleElementReference
    | NoSuchElement
    | NullReference
    | ArgumentOutOfRange
    | OtherFailure(name: string)

  /** What a call does: returns a value, or raises a failure of some kind. */
  datatype Outcome<+T> = Returned(value: T) | Raised(kind: FailureKind)

  /** The filter of every strict operation's catch clause. */
  predicate InStrictFilter(k: FailureKind)
  {
    k.Timeout? || k.ElementNotInteractable? || k.ElementNotVisible? ||
    k.ElementNotSelectable? || k.StaleElementReference? || k.NoSuchElement?
  }

  /** The filter of the three state checks' catch clause. */
  predicate InStateCheckFilter(k: FailureKind)
  {
    k.Timeout? || k.ElementNotInteractable? || k.NoSuchElement?
  }

  /** A strict catch clause: a failure the filter names is rethrown with
      `throw;`, any other failure is not caught at all. Either way the caller
      sees exactly what the try block produced. */
  function StrictCatch<T>(attempt: Outcome<T>): (r: Outcome<T>)
    ensures r == attempt
  {
    if attempt.Raised? && InStrictFilter(attempt.kind) then Raised(attempt.kind) else attempt
  }

  /** A state-check catch clause: Timeout, ElementNotInteractable and
      NoSuchElement become `false`; every other failure escapes unchanged. */
  function StateCheckCatch(attempt: Outcome<bool>): (r: Outcome<bool>)
    ensures attempt.Returned? ==> r == attempt
    ensures attempt.Raised? ==> (r.Returned? <==> InStateCheckFilter(attempt.kind))
    ensures r.Returned? && attempt.Raised? ==> !r.value
    ensures r.Raised? ==> r == attempt
  {
    if attempt.Raised? && InStateCheckFilter(attempt.kind) then Returned(false) else attempt
  }

  /** The state-check filter is strictly narrower than the strict filter:
      every kind it swallows is one the strict filter rethrows, and the three
      kinds ElementNotVisible, ElementNotSelectable and StaleElementReference
      are rethrown by strict operations but escape the state checks too. */
  lemma StateCheckFilterNarrower(k: FailureKind)
    ensures InStateCheckFilter(k) ==> InStrictFilter(k)
    ensures InStrictFilter(k) && !InStateCheckFilter(k) <==>
              k == ElementNotVisible || k == ElementNotSelectable || k == StaleElementReference
  {
  }
}
