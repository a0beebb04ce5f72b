# Delayed-retry executor of NServiceBus, modelled in Dafny

When recoverability decides that a failed message should get a *delayed retry*, NServiceBus does not
keep the message in memory. The `DelayedRetryExecutor` sends a copy of the message back to the
endpoint's own input queue and asks the transport to deliver it only after a delay. The copy keeps the
incoming message id and body. It gets a fresh copy of the header dictionary, in which the executor
records the new delayed-delivery count and a timestamp. The copy is wrapped in one transport operation,
unicast to the input queue, with a `DelayDeliveryWith(delay)` property. That operation is dispatched
inside the caller's transport transaction.

The project has four modules:

- `Primitives` (`primitives.dfy`): `Option`, the .NET `int` as `Int32`, and unchecked `int`
  arithmetic (`WrapToInt32`).
- `Transport` (`transport.dfy`): header dictionaries (a class, because the executor copies one and
  then mutates the copy), incoming and outgoing messages, address tags, operation properties, transport
  operations, the opaque `TransportTransaction` (a class: only its identity is passed along), and a
  `RecordingDispatcher`. The dispatcher stands in for `IMessageDispatcher`: each `Dispatch` call
  appends one record holding the values of the operations at dispatch time and the transaction
  reference.
- `DelayedDeliveryHeaders` (`delayed_delivery_headers.dfy`): reading the delayed-deliveries count and
  writing the count and timestamp, each as one read or write of one dedicated header key. The string
  encoding of these values is a parameter, a `HeaderCodec`. Two separate assumptions are made about
  it. `CountRoundTrips` says that a written count reads back as that count. `TimestampRoundTrips` says
  that a written timestamp reads back as exactly that timestamp. The second is only an assumption: a
  wire format that drops sub-microsecond ticks would break it. Only the two timestamp clauses depend
  on it; every count property needs `CountRoundTrips` alone. What a reader returns when its header is
  absent is left open.
- `Recoverability` (`delayed_retry_executor.dfy`): `RetryOf`, the value-level specification of one
  retry; the `DelayedRetryExecutor` class, whose `Retry` method is proved against `RetryOf`; and lemmas
  about feeding each outgoing copy back in as the next incoming message.

Modelling decisions:

- The clock reading `DateTimeOffset.UtcNow` becomes the `now` parameter of `Retry`.
- The header codec is a third constructor argument of the executor. It stands for the encoding that
  the extension methods fix internally.
- `GetDelayedDeliveriesPerformed() + 1` is .NET `int` arithmetic in an unchecked context. At
  `int.MaxValue` it wraps to `int.MinValue`, and the model keeps that wrap. The count lemmas therefore
  hold under a no-wrap bound.
- Source files other than DelayedRetryExecutor.cs are not part of this model. That includes the
  extension methods and `Headers.cs`. The key strings in `DelayedDeliveryHeaders` use the NServiceBus
  header names. No property depends on those strings except that the two keys are distinct.
- The count is held in a signed 32-bit `int`, so negative and wrapped values can be represented; the
  model follows the code.

## Model

| member | source | states |
|---|---|---|
| `Primitives.WrapToInt32` | src/NServiceBus.Core/Recoverability/DelayedRetryExecutor.cs:24 | Unchecked `int` addition: the value is unchanged when it fits in 32 bits, and otherwise it is congruent to the exact sum modulo 2^32. |
| `Recoverability.NextDelayedRetryAttempt` | src/NServiceBus.Core/Recoverability/DelayedRetryExecutor.cs:24 | The new attempt number is the recorded count plus one. At `int.MaxValue` it wraps to `int.MinValue`. |
| `DelayedDeliveryHeaders.DelayedDeliveriesPerformed` | src/NServiceBus.Core/Recoverability/DelayedRetryExecutor.cs:24 | `GetDelayedDeliveriesPerformed()`: the codec's parse of the delayed-retries entry. Under `CountRoundTrips`, an entry holding a formatted count n reads as n. The value for an absent header, `parseCount(None)`, is left open. |
| `DelayedDeliveryHeaders.DelayedDeliveryTimestamp` | src/NServiceBus.Core/Recoverability/DelayedRetryExecutor.cs:27 | The reader that the timestamp round-trip is stated against. Under `TimestampRoundTrips`, an entry holding a formatted timestamp t reads as t. The value for an absent header is left open. |
| `DelayedDeliveryHeaders.WithCurrentDelayedDeliveries` | src/NServiceBus.Core/Recoverability/DelayedRetryExecutor.cs:26 | Writing the count adds or replaces only the delayed-retries key. Under `CountRoundTrips` the count reads back as the value written. The timestamp reading is unchanged. |
| `DelayedDeliveryHeaders.WithDelayedDeliveryTimestamp` | src/NServiceBus.Core/Recoverability/DelayedRetryExecutor.cs:27 | Writing the timestamp adds or replaces only the timestamp key. Under `TimestampRoundTrips` the timestamp reads back as the value written. The count reading is unchanged. |
| `DelayedDeliveryHeaders.SetCurrentDelayedDeliveries` | src/NServiceBus.Core/Recoverability/DelayedRetryExecutor.cs:26 | Mutates the outgoing message's own dictionary in place, and only that dictionary, to the headers with the count written. |
| `DelayedDeliveryHeaders.SetDelayedDeliveryTimestamp` | src/NServiceBus.Core/Recoverability/DelayedRetryExecutor.cs:27 | Mutates the outgoing message's own dictionary in place, and only that dictionary, to the headers with the timestamp written. |
| `Transport.HeaderDictionary.Copy` | src/NServiceBus.Core/Recoverability/DelayedRetryExecutor.cs:22 | `new Dictionary(message.Headers)` is a new object, so it does not alias the incoming dictionary, and it holds the same pairs. |
| `Transport.OutgoingMessage.constructor` | src/NServiceBus.Core/Recoverability/DelayedRetryExecutor.cs:22 | The outgoing message keeps the given id, body and dictionary reference. It does not copy the dictionary itself. |
| `Transport.RecordingDispatcher.Dispatch` | src/NServiceBus.Core/Recoverability/DelayedRetryExecutor.cs:37 | Each dispatch call records exactly one entry: the operations' values at dispatch time and the given transaction. |
| `Recoverability.DelayedRetryExecutor.constructor` | src/NServiceBus.Core/Recoverability/DelayedRetryExecutor.cs:14-18 | Stores the input queue and the dispatcher it is given. |
| `Recoverability.RetryOf` | src/NServiceBus.Core/Recoverability/DelayedRetryExecutor.cs:20-39 | One retry gives attempt = recorded count + 1 and exactly one dispatch. That dispatch carries the caller's transaction and exactly one operation. The operation is unicast to the input queue and delayed by `delay`. Its message has the same id and body, and every other incoming header unchanged. The count header reads back as the attempt (under `CountRoundTrips`), and the timestamp header reads back as `now` (under `TimestampRoundTrips`). |
| `Recoverability.DelayedRetryExecutor.Retry` | src/NServiceBus.Core/Recoverability/DelayedRetryExecutor.cs:20-40 | Returns `RetryOf`'s attempt and appends exactly `RetryOf`'s single dispatch record to the dispatcher log. It changes nothing else: the incoming message's headers are the same after the call, even though the copy was modified. |
| `Recoverability.Redelivered` | src/NServiceBus.Core/Recoverability/DelayedRetryExecutor.cs:22-27 | The copy that comes back has the same id and body. Its recorded count is the old count plus one (under `CountRoundTrips`). |
| `Recoverability.RetryAttempts` | src/NServiceBus.Core/Recoverability/DelayedRetryExecutor.cs:24-39 | Feeding each copy back in gives one attempt number per retry. |
| `Recoverability.RetryAttemptsCountUp` | src/NServiceBus.Core/Recoverability/DelayedRetryExecutor.cs:24-39 | Starting from count c, with no wrap-around, the successive attempts are c+1, c+2, … and the last copy records c + the number of retries. |
| `Recoverability.RetryAttemptsFromFirstFailure` | src/NServiceBus.Core/Recoverability/DelayedRetryExecutor.cs:24-39 | Starting from a message whose recorded count is 0, the attempts are exactly 1, 2, 3, … and strictly increasing. |
| `Recoverability.RedeliveryKeepsIdentity` | src/NServiceBus.Core/Recoverability/DelayedRetryExecutor.cs:22 | After any number of retries the message still has the original id and body. |
| `Recoverability.RedeliveryKeepsOtherHeaders` | src/NServiceBus.Core/Recoverability/DelayedRetryExecutor.cs:22-27 | After any number of retries every header other than the two delayed-delivery headers keeps its original value. |

## Left out

- The real transport behind `IMessageDispatcher` and its I/O: replaced by the recording dispatcher, which always succeeds. A failing `Dispatch`, whose exception would propagate out of `Retry`, is not modelled.
- `async`/`await` and `ConfigureAwait(false)`: `Retry` is an ordinary sequential method.
- `DateTimeOffset.UtcNow`: the time is an input, `now`, and is treated as an opaque value.
- The bodies of `GetDelayedDeliveriesPerformed`, `SetCurrentDelayedDeliveries` and `SetDelayedDeliveryTimestamp` are not part of this model. Their string formatting and parsing are abstracted by `HeaderCodec`, with no claim about a particular format, a parse failure, or a default for a missing header.
- The exact timestamp round-trip (`TimestampRoundTrips`) is assumed, not proved, because the timestamp wire format is not part of this model. Only `WithDelayedDeliveryTimestamp`, `DelayedDeliveryTimestamp` and `RetryOf`'s timestamp clause rely on it.
- `RetryAttemptsCountUp`, `RetryAttemptsFromFirstFailure`: hold only below the 32-bit bound, because the source's unchecked `int` increment wraps past `int.MaxValue`.
- Argument checks inside the `DelayDeliveryWith` and `UnicastAddressTag` constructors (for example a negative delay) are not part of this model, because those types are not among the files modelled.
- `TransportOperations` keeps unicast and multicast operations in separate lists, and `TransportOperation` has a dispatch-consistency setting. The model uses one ordered sequence and omits that setting; `Retry` only ever builds one unicast operation with the default setting.
- The acceptance tests for audit and persistence and the transport test for a stop cancelled mid-message are test scaffolding around the running host; none of them is modelled.
