/** Automatic-retry decision for a failed attempt (src/retry-policy.js). */
module RetryPolicy {
  import opened DomainStates

  /** Names a failure's `type` or `category` can carry; other names behave alike. */
  datatype FailureClass =
    | Infrastructure | Coordination | Timeout | Configuration | Policy | Validation | Product | Worker | OtherClass

  datatype Action = Retry | Rework | ManualIntervention | OtherAction

  datatype Failure = Failure(
    kind: Option<FailureClass>,
    category: Option<FailureClass>,
    retryable: bool,
    nextAction: Option<Action>)

  datatype Mode = NoRetry | Transient | ValidatorRework

  datatype Decision = Decision(retry: bool, action: Action, mode: Mode)

  predicate TransientClass(c: FailureClass) { c.Infrastructure? || c.Coordination? || c.Timeout? }

  predicate ContractClass(c: FailureClass) { c.Configuration? || c.Policy? }

  function KindOf(f: Failure): FailureClass {
    if f.kind.Some? then f.kind.value else if f.category.Some? then f.category.value else Worker
  }

  predicate ContractFailure(f: Failure) {
    ContractClass(KindOf(f)) || (f.category.Some? && ContractClass(f.category.value))
  }

  function RequestedAction(f: Failure): Action {
    if f.nextAction.Some? then f.nextAction.value
    else if TransientClass(KindOf(f)) then Retry else ManualIntervention
  }

  function DecideTaskRetry(f: Failure, remaining: nat, feedback: bool, duplicate: bool): Decision {
    var requested := RequestedAction(f);
    if ContractFailure(f) then Decision(false, requested, NoRetry)
    else if !f.retryable then Decision(false, requested, NoRetry)
    else if remaining == 0 then Decision(false, requested, NoRetry)
    else if TransientClass(KindOf(f)) then Decision(true, Retry, Transient)
    else if requested == Rework && feedback then
      if duplicate then Decision(false, requested, NoRetry) else Decision(true, requested, ValidatorRework)
    else Decision(false, requested, NoRetry)
  }

  /** A failure that is neither the contract's nor policy's, that may be tried again, and that
      either passes by itself or asks for rework on feedback not seen before. */
  predicate DeservesRetry(f: Failure, attemptLeft: bool, newFeedback: bool) {
    && attemptLeft && f.retryable
    && f.kind !in {Some(Configuration), Some(Policy)} && f.category !in {Some(Configuration), Some(Policy)}
    && (|| f.kind in {Some(Infrastructure), Some(Coordination), Some(Timeout)}
        || (f.kind.None? && f.category in {Some(Infrastructure), Some(Coordination), Some(Timeout)})
        || (f.nextAction == Some(Rework) && newFeedback))
  }

  /** The chain of tests decides for a retry exactly when the failure deserves one, and names
      rework only where feedback is to be worked in. */
  lemma RetryIff(f: Failure, remaining: nat, feedback: bool, duplicate: bool)
    ensures var d := DecideTaskRetry(f, remaining, feedback, duplicate);
      && (d.retry <==> DeservesRetry(f, remaining > 0, feedback && !duplicate))
      && (d.retry <==> !d.mode.NoRetry?)
      && (d.mode.ValidatorRework? ==> d.action.Rework? && feedback && !duplicate)
      && (d.mode.Transient? ==> d.action.Retry?)
  {
  }
}
