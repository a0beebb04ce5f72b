/** The transport-facing shapes the delayed-retry executor works with: messages and
    their header dictionaries, address tags, operation properties, transport
    operations and transactions, and a dispatcher that records what it is given. */
module Transport {
  import opened Primitives

  /** The contents of a header dictionary. */
  type Headers = map<string, string>

  /** A message body (a read-only block of bytes). */
  type Body = seq<bv8>

  /** A .NET `TimeSpan`, treated as an opaque value. */
  datatype TimeSpan = TimeSpan(ticks: int)

  /** A .NET `DateTimeOffset`, treated as an opaque value. */
  datatype DateTimeOffset = DateTimeOffset(utcTicks: int)

  /** Where a transport operation goes: one queue, or every subscriber of a message type. */
  datatype AddressTag =
    | UnicastAddressTag(destination: string)
    | MulticastAddressTag(messageType: string)

  /** The request that the transport deliver a message only after `delay` has passed. */
  datatype DelayDeliveryWith = DelayDeliveryWith(delay: TimeSpan)

  /** Per-operation hints for the transport; only the delayed-delivery hint is modelled. */
  datatype OperationProperties = OperationProperties(delayDeliveryWith: Option<DelayDeliveryWith>)

  /** The opaque per-delivery transactional context; only its identity matters. */
  class TransportTransaction {
    constructor ()
    {
    }
  }

  /** A mutable `Dictionary<string, string>` of message headers. */
  class HeaderDictionary {
    var entries: Headers

    constructor (entries: Headers)
      ensures this.entries == entries
    {
      this.entries := entries;
    }

    /** `new Dictionary<string, string>(other)`: a new dictionary with the same pairs. */
    constructor Copy(other: HeaderDictionary)
      ensures entries == other.entries
    {
      entries := other.entries;
    }

    /** The indexer setter `dictionary[key] = value`: adds the pair or replaces the old value. */
    method SetItem(key: string, value: string)
      modifies this
      ensures entries == old(entries)[key := value]
    {
      entries := entries[key := value];
    }
  }

  /** A message received from the transport. */
  class IncomingMessage {
    const messageId: string
    const headers: HeaderDictionary
    const body: Body

    constructor (messageId: string, headers: HeaderDictionary, body: Body)
      ensures this.messageId == messageId && this.headers == headers && this.body == body
    {
      this.messageId := messageId;
      this.headers := headers;
      this.body := body;
    }
  }

  /** A message about to be sent. It keeps the dictionary it is given, not a copy of it. */
  class OutgoingMessage {
    const messageId: string
    const headers: HeaderDictionary
    const body: Body

    constructor (messageId: string, headers: HeaderDictionary, body: Body)
      ensures this.messageId == messageId && this.headers == headers && this.body == body
    {
      this.messageId := messageId;
      this.headers := headers;
      this.body := body;
    }
  }

  /** One message to send, where to send it, and how. */
  datatype TransportOperation =
    TransportOperation(message: OutgoingMessage, addressTag: AddressTag, properties: OperationProperties)

  /** The value of a message at one moment: its id, its header pairs and its body. */
  datatype MessageValue = MessageValue(messageId: string, headers: Headers, body: Body)

  /** The value of a transport operation at the moment it is dispatched. */
  datatype OperationValue =
    OperationValue(message: MessageValue, addressTag: AddressTag, properties: OperationProperties)

  /** One `Dispatch` call as the transport saw it: the operations and the transaction they were enlisted in. */
  datatype DispatchRecord = DispatchRecord(operations: seq<OperationValue>, transaction: TransportTransaction)

  /** The current value of an incoming message. */
  function IncomingValue(message: IncomingMessage): MessageValue
    reads message.headers
  {
    MessageValue(message.messageId, message.headers.entries, message.body)
  }

  /** The current value of a transport operation. */
  function OperationSnapshot(operation: TransportOperation): OperationValue
    reads operation.message.headers
  {
    OperationValue(
      MessageValue(operation.message.messageId, operation.message.headers.entries, operation.message.body),
      operation.addressTag, operation.properties)
  }

  /** The current values of a batch of transport operations, in order. */
  function OperationSnapshots(operations: seq<TransportOperation>): (vs: seq<OperationValue>)
    reads set op | op in operations :: op.message.headers
    ensures |vs| == |operations|
    ensures forall i :: 0 <= i < |operations| ==> vs[i] == OperationSnapshot(operations[i])
  {
    if operations == [] then []
    else [OperationSnapshot(operations[0])] + OperationSnapshots(operations[1..])
  }

  /** A message dispatcher that records every batch it is asked to send, together with
      the transaction it was given, instead of talking to a broker. */
  class RecordingDispatcher {
    var dispatched: seq<DispatchRecord>

    constructor ()
      ensures dispatched == []
    {
      dispatched := [];
    }

    /** Sends `operations` enlisted in `transaction`: appends exactly one record. */
    method Dispatch(operations: seq<TransportOperation>, transaction: TransportTransaction)
      modifies this
      ensures dispatched == old(dispatched) + [DispatchRecord(OperationSnapshots(operations), transaction)]
    {
      dispatched := dispatched + [DispatchRecord(OperationSnapshots(operations), transaction)];
    }
  }
}
