/** How the publisher's messages meet the consumer's requirements. */
module NotificationFlow {
  import opened Wrappers
  import opened Json
  import opened Broker
  import Publisher
  import Worker

  /** The publisher routes to the queue the consumer reads, not to the dead-letter queue. */
  lemma SameQueue()
    ensures Publisher.ROUTING_KEY == Worker.QUEUE_NAME
    ensures Publisher.ROUTING_KEY != Worker.DEAD_LETTER_QUEUE
  {
  }

  /**
   * A published notification always has the three fields the handler reads,
   * so it never takes the missing-field path: the handler sends to the user's
   * address the fixed subject and the body with the url.
   */
  lemma PublishedMessageIsReadable(url: string, userEmail: string)
    ensures Worker.ReadEmail(Document(Publisher.NotificationMessage(url, userEmail)))
              == Some(Worker.Email(JStr(userEmail), JStr(Publisher.SUBJECT), JStr(Publisher.BODY_PREFIX + url)))
  {
  }

  /** Consumed once, with the send and the ack succeeding, a published notification is delivered and acked. */
  lemma PublishedMessageIsDelivered(url: string, userEmail: string, deadLetterOk: bool)
    ensures Worker.Process(Document(Publisher.NotificationMessage(url, userEmail)), true, true, deadLetterOk)
              == Worker.Step(Some(Worker.Email(JStr(userEmail), JStr(Publisher.SUBJECT), JStr(Publisher.BODY_PREFIX + url))),
                             true, false, false)
  {
    PublishedMessageIsReadable(url, userEmail);
  }

  /** One notification from publish to handler: the handler calls `send_email` with the published values. */
  method PublishAndConsume(exchange: Publisher.DefaultExchange, consumer: Worker.Consumer,
                           url: string, userEmail: string, tag: nat, sendOk: bool, ackOk: bool)
    modifies exchange, consumer
    ensures exchange.published == old(exchange.published) +
              [Delivery(Publisher.ROUTING_KEY, Document(Publisher.NotificationMessage(url, userEmail)))]
    ensures consumer.sendCalls == old(consumer.sendCalls) +
              [Worker.Email(JStr(userEmail), JStr(Publisher.SUBJECT), JStr(Publisher.BODY_PREFIX + url))]
    ensures consumer.acked == old(consumer.acked) + (if sendOk && ackOk then [tag] else [])
  {
    Publisher.PublishMessage(exchange, url, userEmail);
    var delivered := exchange.published[|exchange.published| - 1];
    PublishedMessageIsReadable(url, userEmail);
    var _ := consumer.OnMessage(Worker.IncomingMessage(tag, delivered.payload), sendOk, ackOk, true);
  }
}
