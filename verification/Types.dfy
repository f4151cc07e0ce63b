/**
 Identifiers, events, errors and the small result types shared by every module.

 Identifiers are only ever compared for equality. Session ids are version 4 UUIDs
 (section 5.4 of RFC 9562) and the other ids are handed out by mediasoup; both are
 numbers here, and the places that draw one say that it is fresh.
 */
module Types {
  type SessionId = nat
  type ParticipantId = string
  type RouterId = nat
  type ServerId = nat
  type TransportId = nat
  type ProducerId = nat
  type ConsumerId = nat
  type ChannelId = nat

  const USIZE_LIMIT := 0x1_0000_0000_0000_0000

  /** Rust's `usize` on a 64-bit target. */
  type usize = x: nat | x < USIZE_LIMIT

  datatype Option<+T> = None | Some(value: T)

  datatype Result<+T, +E> = Ok(value: T) | Err(error: E)

  datatype MediaKind = Audio | Video

  datatype SessionError =
    | MissingWebRtcServer
    | SessionNotFound
    | TransportCreationFailed
    | InvalidTransportDirection
    | InvalidTransport
    | ProducerCreationFailed
    | RtpCapabilitiesMismatch
    | ConsumerCreationFailed
    | EventChannelClosed
    | MissingRouterCounter
    | AllRoutersFull
    | SessionFull
    | ParticipantNotFound
    | ParticipantAlreadyExists

  datatype RouterManagerError = EmptyPool | Codec | Mediasoup

  /** Something mediasoup can close: it carries one shared close flag. */
  datatype Resource =
    | TransportResource(transport: TransportId)
    | ProducerResource(producer: ProducerId)
    | ConsumerResource(consumer: ConsumerId)

  datatype Event =
    | SubscriptionConfirmed(session: SessionId)
    | NewProducer(producer: ProducerId, kind: MediaKind)
    | Closed(resource: Resource)

  /** What the handler has to set up once the core lock is released. */
  datatype PendingEventSetup =
    | TransportSetup(transport: TransportId, session: SessionId, participant: ParticipantId)
    | ProducerSetup(producer: ProducerId, session: SessionId, participant: ParticipantId, kind: MediaKind)
    | ConsumerSetup(consumer: ConsumerId, session: SessionId, participant: ParticipantId)

  /** No element occurs at two positions. */
  predicate Distinct<T(==)>(xs: seq<T>) {
    forall i, j :: 0 <= i < j < |xs| ==> xs[i] != xs[j]
  }

  /** `order` lists the elements of `keys`, each exactly once: one iteration order of a hash map. */
  predicate Enumerates<T(==)>(order: seq<T>, keys: set<T>) {
    && Distinct(order)
    && (forall x :: x in order ==> x in keys)
    && (forall x :: x in keys ==> x in order)
  }
}
