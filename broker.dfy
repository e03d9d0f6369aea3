/**
 * What the Python services do against the message broker, as far as the
 * handlers and start-up code decide it: the fate of a delivery, the topology
 * calls, and the connection loop shared by the tracer
 * (rabbitmq-tracer/main.py, start_event_consumer) and the worker
 * (worker/app/consumer.py, start_consumer).
 */
module Broker {

  import opened Wrappers

  /** What `message.process()` does with a delivery: acknowledge it, or reject it when the handler raised. */
  datatype Disposition = Ack | Reject

  datatype ExchangeType = Direct | Fanout | Topic | Headers

  /** One topology or consumption call made on a channel, in the order made. */
  datatype BrokerCall =
    | DeclareExchange(exchange: string, exchangeType: ExchangeType, durable: bool)
    | DeclareQueue(queue: string, durable: bool, autoDelete: bool)
    | Bind(boundQueue: string, source: string, routingKey: string)
    | Consume(consumedQueue: string)

  /** `range(1, 21)`: the connection loop has attempts 1 to 20. */
  const MaxConnectAttempts := 20

  /** The seconds slept after a failed connection attempt. */
  const ConnectRetrySeconds := 2

  /** The first attempt, from `first` to `last`, that succeeds; `None` when all of them fail. */
  function FirstSuccess(outcomeOf: nat -> AttemptOutcome, first: nat, last: nat): Option<nat>
    decreases last + 1 - first
  {
    if first > last then None
    else if outcomeOf(first) == Succeeded then Some(first)
    else FirstSuccess(outcomeOf, first + 1, last)
  }

  /** `FirstSuccess` finds the least succeeding attempt of the range, and finds none exactly when every attempt fails. */
  lemma {:induction false} FirstSuccessIsLeast(outcomeOf: nat -> AttemptOutcome, first: nat, last: nat)
    ensures FirstSuccess(outcomeOf, first, last).Some? ==>
      var k := FirstSuccess(outcomeOf, first, last).value;
      && first <= k <= last && outcomeOf(k) == Succeeded
      && forall j :: first <= j < k ==> outcomeOf(j) != Succeeded
    ensures FirstSuccess(outcomeOf, first, last).None? <==>
      forall j :: first <= j <= last ==> outcomeOf(j) != Succeeded
    decreases last + 1 - first
  {
    if first <= last && outcomeOf(first) != Succeeded {
      FirstSuccessIsLeast(outcomeOf, first + 1, last);
    }
  }

  /** The attempts `1..n`, in order. */
  function AttemptsUpTo(n: nat): (s: seq<nat>)
    ensures |s| == n
    ensures forall i :: 0 <= i < n ==> s[i] == i + 1
  {
    if n == 0 then [] else AttemptsUpTo(n - 1) + [n]
  }

  /** `n` waits of `seconds` each. */
  function Repeat(n: nat, seconds: nat): (s: seq<nat>)
    ensures |s| == n
    ensures forall i :: 0 <= i < n ==> s[i] == seconds
  {
    if n == 0 then [] else Repeat(n - 1, seconds) + [seconds]
  }

  /**
   * What the connection loop did: whether it connected, how many attempts it
   * made, the attempts whose failure it logged as a warning, and the seconds of
   * each sleep it took.
   */
  datatype ConnectResult = ConnectResult(connected: bool, attempts: nat, warned: seq<nat>, sleeps: seq<nat>)

  /**
   * `for attempt in range(1, 21)`: try to connect; stop at the first success;
   * after every failure, the 20th included, log a warning and sleep 2 seconds.
   * `outcomeOf(k)` is what attempt `k` meets.
   */
  method ConnectWithRetry(outcomeOf: nat -> AttemptOutcome) returns (r: ConnectResult)
    ensures r.connected <==> FirstSuccess(outcomeOf, 1, MaxConnectAttempts).Some?
    ensures r.connected ==> r.attempts == FirstSuccess(outcomeOf, 1, MaxConnectAttempts).value
    ensures !r.connected ==> r.attempts == MaxConnectAttempts
    ensures 1 <= r.attempts <= MaxConnectAttempts
    ensures r.warned == AttemptsUpTo(if r.connected then r.attempts - 1 else r.attempts)
    ensures r.sleeps == Repeat(|r.warned|, ConnectRetrySeconds)
  {
    var connected := false;
    var attempts := 0;
    var warned: seq<nat> := [];
    var sleeps: seq<nat> := [];
    for attempt := 1 to MaxConnectAttempts + 1
      invariant !connected && attempts == attempt - 1
      invariant FirstSuccess(outcomeOf, attempt, MaxConnectAttempts) == FirstSuccess(outcomeOf, 1, MaxConnectAttempts)
      invariant warned == AttemptsUpTo(attempt - 1)
      invariant sleeps == Repeat(attempt - 1, ConnectRetrySeconds)
    {
      attempts := attempt;
      if outcomeOf(attempt) == Succeeded {
        connected := true;
        break;
      }
      assert FirstSuccess(outcomeOf, attempt, MaxConnectAttempts) == FirstSuccess(outcomeOf, attempt + 1, MaxConnectAttempts);
      warned := warned + [attempt];
      sleeps := sleeps + [ConnectRetrySeconds];
    }
    r := ConnectResult(connected, attempts, warned, sleeps);
  }

  /** Three failed attempts and a fourth that succeeds: the loop connects at attempt 4 after warning about attempts 1, 2 and 3. */
  lemma FourthAttemptConnects(outcomeOf: nat -> AttemptOutcome)
    requires outcomeOf(1).Failed? && outcomeOf(2).Failed? && outcomeOf(3).Failed?
    requires outcomeOf(4) == Succeeded
    ensures FirstSuccess(outcomeOf, 1, MaxConnectAttempts) == Some(4)
    ensures AttemptsUpTo(FirstSuccess(outcomeOf, 1, MaxConnectAttempts).value - 1) == [1, 2, 3]
  {
    assert FirstSuccess(outcomeOf, 4, MaxConnectAttempts) == Some(4);
    assert AttemptsUpTo(3) == AttemptsUpTo(2) + [3];
  }
}
