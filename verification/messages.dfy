/**
 * The values that travel from the orchestrator service to the dispatcher
 * service. Both services declare a `NotificationRequest` class of the same
 * shape (userId, channel, message, metadata) and exchange it as JSON; the
 * model has one datatype for both.
 */
module Messages {
  /**
   * The delivery channel. The enum is referred to only through its constant
   * `EMAIL`; every other constant it may declare is an `Other` channel.
   */
  datatype ChannelType = EMAIL | Other(name: string)

  /** A rendered subject and body. */
  datatype MessageContent = MessageContent(subject: string, body: string)

  /** One request to deliver a message to a user over one channel. */
  datatype NotificationRequest = NotificationRequest(
    userId: string,
    channel: ChannelType,
    message: MessageContent,
    metadata: map<string, string>)
}
