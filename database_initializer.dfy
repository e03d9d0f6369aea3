/**
 * The API's start-up schema creation (api/Api/Infrastructure/DatabaseInitializer.cs,
 * ExecuteAsync): up to ten attempts to open a connection and create the
 * orders table, a warning and a two-second delay after each caught failure,
 * and no catch for the tenth.
 */
module DatabaseInitializer {

  import opened Wrappers
  import opened Broker

  /** `attempt <= 10`. */
  const MaxInitAttempts := 10

  /** The seconds waited after a caught failure. */
  const InitRetrySeconds := 2

  /** How `ExecuteAsync` ends: the table is in place, or the last attempt's exception escapes. */
  datatype InitEnd = Initialized | Propagated(reason: string)

  /** What the loop did: the attempts it made, the attempts it logged a warning for, its delays, and how it ended. */
  datatype InitResult = InitResult(attempts: nat, warned: seq<nat>, delays: seq<nat>, end: InitEnd)

  /**
   * The retry loop; `outcomeOf(k)` is what attempt `k` meets. The exception
   * filter `when (attempt < 10)` lets the tenth failure through, with no delay
   * after it.
   */
  method InitializeDatabase(outcomeOf: nat -> AttemptOutcome) returns (r: InitResult)
    ensures r.end == Initialized <==> FirstSuccess(outcomeOf, 1, MaxInitAttempts).Some?
    ensures r.end == Initialized ==> r.attempts == FirstSuccess(outcomeOf, 1, MaxInitAttempts).value
    ensures r.end.Propagated? ==> r.attempts == MaxInitAttempts && outcomeOf(MaxInitAttempts) == Failed(r.end.reason)
    ensures 1 <= r.attempts <= MaxInitAttempts
    ensures r.warned == AttemptsUpTo(r.attempts - 1)
    ensures r.delays == Repeat(|r.warned|, InitRetrySeconds)
    ensures |r.delays| < MaxInitAttempts
  {
    var warned: seq<nat> := [];
    var delays: seq<nat> := [];
    var attempt := 1;
    while attempt <= MaxInitAttempts
      invariant 1 <= attempt <= MaxInitAttempts
      invariant FirstSuccess(outcomeOf, attempt, MaxInitAttempts) == FirstSuccess(outcomeOf, 1, MaxInitAttempts)
      invariant warned == AttemptsUpTo(attempt - 1)
      invariant delays == Repeat(attempt - 1, InitRetrySeconds)
      decreases MaxInitAttempts - attempt
    {
      match outcomeOf(attempt)
      case Succeeded =>
        return InitResult(attempt, warned, delays, Initialized);
      case Failed(reason) =>
        if attempt == MaxInitAttempts {
          return InitResult(attempt, warned, delays, Propagated(reason));
        }
        warned := warned + [attempt];
        delays := delays + [InitRetrySeconds];
        attempt := attempt + 1;
    }
    assert false;
  }

  /**
   * Initialization that ends after attempt `k` found every earlier attempt
   * failing and attempt `k` succeeding; it propagates exactly when all ten fail.
   */
  lemma InitializedAtFirstSuccess(outcomeOf: nat -> AttemptOutcome)
    ensures FirstSuccess(outcomeOf, 1, MaxInitAttempts).Some? ==>
      var k := FirstSuccess(outcomeOf, 1, MaxInitAttempts).value;
      outcomeOf(k) == Succeeded && forall j :: 1 <= j < k ==> outcomeOf(j) != Succeeded
    ensures FirstSuccess(outcomeOf, 1, MaxInitAttempts).None? <==>
      forall j :: 1 <= j <= MaxInitAttempts ==> outcomeOf(j) != Succeeded
  {
    FirstSuccessIsLeast(outcomeOf, 1, MaxInitAttempts);
  }
}
