// Values shared by every component: identifiers, rows of the two tables, options.

module OutboxTypes {

  datatype Option<+T> = None | Some(value: T)

  // Guids are modelled as natural numbers, instants as ticks of one server clock.
  type MessageId = nat
  type SubscriptionId = nat
  type WorkerId = nat
  type InstanceId = string
  type Instant = int

  datatype MessageStatus = Pending | Processing | Published | Delivered | Failed | DeadLettered

  // The three nullable columns that make up an ordering partition.
  datatype PartitionKey = PartitionKey(tenant: Option<string>, user: Option<string>, entity: Option<string>)

  // A row of OutboxMessages.
  datatype Message = Message(
    eventType: string,
    key: PartitionKey,
    createdAt: Instant,
    status: MessageStatus,
    retryCount: nat,
    lockedBy: Option<InstanceId>,
    lockedUntil: Option<Instant>,
    nextRetryAt: Option<Instant>,
    processedAt: Option<Instant>)
  {
    predicate Terminal() {
      status == Delivered || status == DeadLettered
    }
  }

  type Table = map<MessageId, Message>

  datatype AttemptStatus = Success | Failure

  // The derived delivery id: the primary key of DeliveryAttempts. Being a constructor,
  // it is an injective function of the triple it is derived from.
  datatype DeliveryId = DeliveryId(messageId: MessageId, subscriptionId: SubscriptionId, number: nat)

  // The rows of DeliveryAttempts, by primary key. The three columns the key is derived
  // from are read off the key.
  type AttemptLog = map<DeliveryId, AttemptStatus>

  // What GetDeliveryStatesAsync returns for one subscription.
  datatype DeliveryState = DeliveryState(attemptCount: nat, hasSuccess: bool)

  // Subscriptions' retry limits and the retry policy's limit, fixed over a run.
  datatype Config = Config(maxRetries: SubscriptionId -> int, retryLimit: int)
}
