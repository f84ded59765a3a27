/** Records that several webhook components share. */
module Records {

  datatype Option<+T> = None | Some(value: T)

  /** The immutable event snapshot; `kind` is the event type, `resource` and `revision` its subject. */
  datatype Event = Event(id: string, tenant: string, resource: string, revision: int, kind: string)

  datatype DeliveryState = Queued | RetryScheduled | Succeeded | Terminal | DeadLetter

  datatype Delivery = Delivery(
    id: string,
    eventId: string,
    subscriptionId: string,
    tenantId: string,
    state: DeliveryState,
    attempts: int,
    nextAttemptAt: int,
    createdAt: int,
    updatedAt: int,
    replayCount: nat,
    lastStatus: Option<int>,
    lastErrorCode: Option<string>)

  /** The row a fan-out inserts. */
  function FreshDelivery(id: string, event: Event, subscriptionId: string, now: int): Delivery {
    Delivery(id, event.id, subscriptionId, event.tenant, Queued, 0, now, now, now, 0, None, None)
  }
}
