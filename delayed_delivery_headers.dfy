/** The two headers in which a message carries its delayed-retry history: how many
    delayed deliveries have been performed, and when the last one was requested.
    The string encoding of both values is not part of this model: it is a parameter,
    a `HeaderCodec`. What is assumed of it is that a written count reads back as
    itself (`CountRoundTrips`) and, separately, that a written timestamp reads back
    as itself (`TimestampRoundTrips`). */
module DelayedDeliveryHeaders {
  import opened Primitives
  import opened Transport

  /** The header key holding the delayed-deliveries count. */
  const DelayedRetries: string := "NServiceBus.Retries"

  /** The header key holding the delayed-delivery timestamp. */
  const DelayedRetriesTimestamp: string := "NServiceBus.Retries.Timestamp"

  /** How the count and the timestamp are written to and read from a header value.
      A reader gets `None` when the header is absent; what it then returns is left open. */
  datatype HeaderCodec = HeaderCodec(
    formatCount: Int32 -> string,
    parseCount: Option<string> -> Int32,
    formatTimestamp: DateTimeOffset -> string,
    parseTimestamp: Option<string> -> Option<DateTimeOffset>)

  /** The assumption made of the count encoding: reading back a written count gives that count. */
  ghost predicate CountRoundTrips(codec: HeaderCodec)
  {
    forall n: Int32 :: codec.parseCount(Some(codec.formatCount(n))) == n
  }

  /** The assumption made of the timestamp encoding: reading back a written timestamp gives
      exactly that timestamp (no precision is lost in the wire format). */
  ghost predicate TimestampRoundTrips(codec: HeaderCodec)
  {
    forall t: DateTimeOffset :: codec.parseTimestamp(Some(codec.formatTimestamp(t))) == Some(t)
  }

  /** The value under `key`, if there is one. */
  function Lookup(headers: Headers, key: string): Option<string>
  {
    if key in headers then Some(headers[key]) else None
  }

  /** `GetDelayedDeliveriesPerformed`: the count recorded in the headers. It depends on the
      delayed-retries entry alone; what an absent entry reads as, `parseCount(None)`, is left open. */
  function DelayedDeliveriesPerformed(codec: HeaderCodec, headers: Headers): (r: Int32)
    ensures CountRoundTrips(codec) ==>
              forall n: Int32 :: DelayedRetries in headers && headers[DelayedRetries] == codec.formatCount(n) ==> r == n
  {
    codec.parseCount(Lookup(headers, DelayedRetries))
  }

  /** The reader of the timestamp header, against which the timestamp round-trip is stated.
      It depends on the timestamp entry alone; what an absent entry reads as is left open. */
  function DelayedDeliveryTimestamp(codec: HeaderCodec, headers: Headers): (r: Option<DateTimeOffset>)
    ensures TimestampRoundTrips(codec) ==>
              forall t: DateTimeOffset ::
                DelayedRetriesTimestamp in headers && headers[DelayedRetriesTimestamp] == codec.formatTimestamp(t)
                ==> r == Some(t)
  {
    codec.parseTimestamp(Lookup(headers, DelayedRetriesTimestamp))
  }

  /** The headers after `SetCurrentDelayedDeliveries(count)`. */
  function WithCurrentDelayedDeliveries(codec: HeaderCodec, headers: Headers, count: Int32): (r: Headers)
    ensures r.Keys == headers.Keys + {DelayedRetries}
    ensures forall k :: k in headers && k != DelayedRetries ==> r[k] == headers[k]
    ensures CountRoundTrips(codec) ==> DelayedDeliveriesPerformed(codec, r) == count
    ensures DelayedDeliveryTimestamp(codec, r) == DelayedDeliveryTimestamp(codec, headers)
  {
    headers[DelayedRetries := codec.formatCount(count)]
  }

  /** The headers after `SetDelayedDeliveryTimestamp(timestamp)`. */
  function WithDelayedDeliveryTimestamp(codec: HeaderCodec, headers: Headers, timestamp: DateTimeOffset): (r: Headers)
    ensures r.Keys == headers.Keys + {DelayedRetriesTimestamp}
    ensures forall k :: k in headers && k != DelayedRetriesTimestamp ==> r[k] == headers[k]
    ensures TimestampRoundTrips(codec) ==> DelayedDeliveryTimestamp(codec, r) == Some(timestamp)
    ensures DelayedDeliveriesPerformed(codec, r) == DelayedDeliveriesPerformed(codec, headers)
  {
    headers[DelayedRetriesTimestamp := codec.formatTimestamp(timestamp)]
  }

  /** `SetCurrentDelayedDeliveries`: writes the count into the message's own dictionary. */
  method SetCurrentDelayedDeliveries(codec: HeaderCodec, message: OutgoingMessage, count: Int32)
    modifies message.headers
    ensures message.headers.entries == WithCurrentDelayedDeliveries(codec, old(message.headers.entries), count)
  {
    message.headers.SetItem(DelayedRetries, codec.formatCount(count));
  }

  /** `SetDelayedDeliveryTimestamp`: writes the timestamp into the message's own dictionary. */
  method SetDelayedDeliveryTimestamp(codec: HeaderCodec, message: OutgoingMessage, timestamp: DateTimeOffset)
    modifies message.headers
    ensures message.headers.entries == WithDelayedDeliveryTimestamp(codec, old(message.headers.entries), timestamp)
  {
    message.headers.SetItem(DelayedRetriesTimestamp, codec.formatTimestamp(timestamp));
  }
}
