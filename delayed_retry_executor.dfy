/** The delayed-retry executor: it carries out a "delayed retry" decision by sending a
    copy of the failed message back to the endpoint's own input queue, stamped with the
    new delayed-delivery count and a timestamp, and asking the transport to deliver it
    only after the given delay. */
module Recoverability {
  import opened Primitives
  import opened Transport
  import opened DelayedDeliveryHeaders

  /** The number of the delayed retry that follows `performed` earlier ones: `performed + 1`
      in unchecked .NET `int` arithmetic. */
  function NextDelayedRetryAttempt(performed: Int32): (r: Int32)
    ensures performed as int < Int32Max ==> r as int == performed as int + 1
    ensures performed as int == Int32Max ==> r as int == Int32Min
  {
    WrapToInt32(performed as int + 1)
  }

  /** What one retry produces: the attempt number it returns and the one dispatch call it makes. */
  datatype RetryOutcome = RetryOutcome(attempt: Int32, dispatch: DispatchRecord)

  /** The specification of one `Retry` of `message` by an executor whose input queue is
      `endpointInputQueue`, at time `now`. */
  function RetryOf(codec: HeaderCodec, endpointInputQueue: string, message: MessageValue,
                   delay: TimeSpan, transportTransaction: TransportTransaction,
                   now: DateTimeOffset): (r: RetryOutcome)
    // the attempt number is the recorded count plus one
    ensures r.attempt == NextDelayedRetryAttempt(DelayedDeliveriesPerformed(codec, message.headers))
    // one operation, enlisted in the caller's transaction
    ensures r.dispatch.transaction == transportTransaction
    ensures |r.dispatch.operations| == 1
    // sent to the endpoint's own queue, delayed by `delay`
    ensures r.dispatch.operations[0].addressTag == UnicastAddressTag(endpointInputQueue)
    ensures r.dispatch.operations[0].properties.delayDeliveryWith == Some(DelayDeliveryWith(delay))
    // the same message id and body
    ensures r.dispatch.operations[0].message.messageId == message.messageId
    ensures r.dispatch.operations[0].message.body == message.body
    // every other incoming header is carried over unchanged, and the two delayed-delivery headers are added
    ensures r.dispatch.operations[0].message.headers.Keys
            == message.headers.Keys + {DelayedRetries, DelayedRetriesTimestamp}
    ensures forall k :: k in message.headers && k != DelayedRetries && k != DelayedRetriesTimestamp
                        ==> r.dispatch.operations[0].message.headers[k] == message.headers[k]
    // the two delayed-delivery headers read back as the attempt number and `now`
    ensures CountRoundTrips(codec) ==>
              DelayedDeliveriesPerformed(codec, r.dispatch.operations[0].message.headers) == r.attempt
    ensures TimestampRoundTrips(codec) ==>
              DelayedDeliveryTimestamp(codec, r.dispatch.operations[0].message.headers) == Some(now)
  {
    var attempt := NextDelayedRetryAttempt(DelayedDeliveriesPerformed(codec, message.headers));
    var headers := WithDelayedDeliveryTimestamp(codec, WithCurrentDelayedDeliveries(codec, message.headers, attempt), now);
    var operation := OperationValue(MessageValue(message.messageId, headers, message.body),
                                    UnicastAddressTag(endpointInputQueue),
                                    OperationProperties(Some(DelayDeliveryWith(delay))));
    RetryOutcome(attempt, DispatchRecord([operation], transportTransaction))
  }

  class DelayedRetryExecutor {
    const dispatcher: RecordingDispatcher
    const endpointInputQueue: string
    /** The encoding used by the delayed-delivery header readers and writers. */
    const codec: HeaderCodec

    constructor (endpointInputQueue: string, dispatcher: RecordingDispatcher, codec: HeaderCodec)
      ensures this.endpointInputQueue == endpointInputQueue
      ensures this.dispatcher == dispatcher
      ensures this.codec == codec
    {
      this.dispatcher := dispatcher;
      this.endpointInputQueue := endpointInputQueue;
      this.codec := codec;
    }

    /** Redispatches `message` to the input queue with a delay; returns the new attempt number.
        The clock reading `now` is a parameter. */
    method Retry(message: IncomingMessage, delay: TimeSpan, transportTransaction: TransportTransaction,
                 now: DateTimeOffset) returns (attempt: Int32)
      modifies dispatcher
      ensures attempt == RetryOf(codec, endpointInputQueue, old(IncomingValue(message)), delay, transportTransaction, now).attempt
      ensures dispatcher.dispatched
              == old(dispatcher.dispatched)
                 + [RetryOf(codec, endpointInputQueue, old(IncomingValue(message)), delay, transportTransaction, now).dispatch]
      ensures message.headers.entries == old(message.headers.entries)
    {
      var headers := new HeaderDictionary.Copy(message.headers);
      var outgoingMessage := new OutgoingMessage(message.messageId, headers, message.body);

      var currentDelayedRetriesAttempt :=
        NextDelayedRetryAttempt(DelayedDeliveriesPerformed(codec, message.headers.entries));

      SetCurrentDelayedDeliveries(codec, outgoingMessage, currentDelayedRetriesAttempt);
      SetDelayedDeliveryTimestamp(codec, outgoingMessage, now);

      var operationProperties := OperationProperties(Some(DelayDeliveryWith(delay)));
      var messageDestination := UnicastAddressTag(endpointInputQueue);

      var transportOperations := [TransportOperation(outgoingMessage, messageDestination, operationProperties)];

      dispatcher.Dispatch(transportOperations, transportTransaction);
      assert OperationSnapshots(transportOperations)
             == RetryOf(codec, endpointInputQueue, IncomingValue(message), delay, transportTransaction, now).dispatch.operations;

      return currentDelayedRetriesAttempt;
    }
  }

  /** The caller-side inputs of one `Retry` call. */
  datatype RetryRequest = RetryRequest(delay: TimeSpan, transportTransaction: TransportTransaction, now: DateTimeOffset)

  /** The message the transport delivers back after `Retry` of `message`. */
  function Redelivered(codec: HeaderCodec, endpointInputQueue: string, message: MessageValue,
                       request: RetryRequest): (m: MessageValue)
    ensures m.messageId == message.messageId && m.body == message.body
    ensures CountRoundTrips(codec) ==>
              DelayedDeliveriesPerformed(codec, m.headers)
              == NextDelayedRetryAttempt(DelayedDeliveriesPerformed(codec, message.headers))
  {
    RetryOf(codec, endpointInputQueue, message, request.delay, request.transportTransaction, request.now)
      .dispatch.operations[0].message
  }

  /** The attempt numbers returned when `message` is retried once per request, each
      outgoing copy being delivered back as the next incoming message. */
  function RetryAttempts(codec: HeaderCodec, endpointInputQueue: string, message: MessageValue,
                         requests: seq<RetryRequest>): (attempts: seq<Int32>)
    ensures |attempts| == |requests|
    decreases |requests|
  {
    if requests == [] then []
    else
      var r := RetryOf(codec, endpointInputQueue, message, requests[0].delay, requests[0].transportTransaction, requests[0].now);
      [r.attempt] + RetryAttempts(codec, endpointInputQueue, Redelivered(codec, endpointInputQueue, message, requests[0]), requests[1..])
  }

  /** The message delivered back after the last of `requests`. */
  function FinalRedelivery(codec: HeaderCodec, endpointInputQueue: string, message: MessageValue,
                           requests: seq<RetryRequest>): MessageValue
    decreases |requests|
  {
    if requests == [] then message
    else FinalRedelivery(codec, endpointInputQueue, Redelivered(codec, endpointInputQueue, message, requests[0]), requests[1..])
  }

  /** Retrying a message whose count is `c`, while no wrap-around is reached, yields c + 1, c + 2, …. */
  lemma {:induction false} RetryAttemptsCountUp(codec: HeaderCodec, endpointInputQueue: string,
                                               message: MessageValue, requests: seq<RetryRequest>)
    requires CountRoundTrips(codec)
    requires DelayedDeliveriesPerformed(codec, message.headers) as int + |requests| <= Int32Max
    ensures forall i :: 0 <= i < |requests| ==>
              RetryAttempts(codec, endpointInputQueue, message, requests)[i] as int
              == DelayedDeliveriesPerformed(codec, message.headers) as int + i + 1
    ensures DelayedDeliveriesPerformed(codec, FinalRedelivery(codec, endpointInputQueue, message, requests).headers) as int
            == DelayedDeliveriesPerformed(codec, message.headers) as int + |requests|
    decreases |requests|
  {
    if requests != [] {
      var next := Redelivered(codec, endpointInputQueue, message, requests[0]);
      RetryAttemptsCountUp(codec, endpointInputQueue, next, requests[1..]);
      var attempts := RetryAttempts(codec, endpointInputQueue, message, requests);
      var rest := RetryAttempts(codec, endpointInputQueue, next, requests[1..]);
      assert attempts == [attempts[0]] + rest;
      forall i | 0 <= i < |requests|
        ensures attempts[i] as int == DelayedDeliveriesPerformed(codec, message.headers) as int + i + 1
      {
        if i > 0 {
          assert attempts[i] == rest[i - 1];
        }
      }
    }
  }

  /** Starting from a message with no recorded delayed deliveries, the attempts are 1, 2, 3, …,
      strictly increasing. */
  lemma RetryAttemptsFromFirstFailure(codec: HeaderCodec, endpointInputQueue: string,
                                      message: MessageValue, requests: seq<RetryRequest>)
    requires CountRoundTrips(codec)
    requires DelayedDeliveriesPerformed(codec, message.headers) == 0
    requires |requests| <= Int32Max
    ensures forall i :: 0 <= i < |requests| ==>
              RetryAttempts(codec, endpointInputQueue, message, requests)[i] as int == i + 1
    ensures forall i, j :: 0 <= i < j < |requests| ==>
              RetryAttempts(codec, endpointInputQueue, message, requests)[i]
              < RetryAttempts(codec, endpointInputQueue, message, requests)[j]
  {
    RetryAttemptsCountUp(codec, endpointInputQueue, message, requests);
  }

  /** However many times a message is retried, it keeps its id and its body. */
  lemma {:induction false} RedeliveryKeepsIdentity(codec: HeaderCodec, endpointInputQueue: string,
                                                  message: MessageValue, requests: seq<RetryRequest>)
    ensures FinalRedelivery(codec, endpointInputQueue, message, requests).messageId == message.messageId
    ensures FinalRedelivery(codec, endpointInputQueue, message, requests).body == message.body
    decreases |requests|
  {
    if requests != [] {
      RedeliveryKeepsIdentity(codec, endpointInputQueue, Redelivered(codec, endpointInputQueue, message, requests[0]), requests[1..]);
    }
  }

  /** However many times a message is retried, headers other than the two delayed-delivery
      headers keep their incoming values. */
  lemma {:induction false} RedeliveryKeepsOtherHeaders(codec: HeaderCodec, endpointInputQueue: string,
                                                      message: MessageValue, requests: seq<RetryRequest>,
                                                      key: string)
    requires key in message.headers && key != DelayedRetries && key != DelayedRetriesTimestamp
    ensures key in FinalRedelivery(codec, endpointInputQueue, message, requests).headers
    ensures FinalRedelivery(codec, endpointInputQueue, message, requests).headers[key] == message.headers[key]
    decreases |requests|
  {
    if requests != [] {
      RedeliveryKeepsOtherHeaders(codec, endpointInputQueue, Redelivered(codec, endpointInputQueue, message, requests[0]), requests[1..], key);
    }
  }
}
