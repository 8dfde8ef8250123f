/**
 * The notification publisher: the message record `publish_message` builds
 * and its single publish to the default exchange.
 */
module Publisher {
  import opened Json
  import opened Broker

  const ROUTING_KEY := "email_queue"
  const SUBJECT := "Ссылка на скачивание видео"
  const BODY_PREFIX := "Ссылка на скачивание вашего видео: "
  const INITIAL_ATTEMPTS := 1

  function MessageBody(url: string): (body: string) {
    BODY_PREFIX + url
  }

  /** The dict literal `publish_message` serialises. */
  function NotificationMessage(url: string, userEmail: string): (m: Json)
    ensures m.JObj? && m.fields.Keys == {"recipient", "subject", "body", "attempts"}
  {
    JObj(map[
      "recipient" := JStr(userEmail),
      "subject" := JStr(SUBJECT),
      "body" := JStr(MessageBody(url)),
      "attempts" := JNum(INITIAL_ATTEMPTS)
    ])
  }

  /**
   * The recipient is the e-mail argument, the subject is fixed, the body ends
   * with the url, and a fresh message has made one attempt.
   */
  lemma MessageFields(url: string, userEmail: string)
    ensures NotificationMessage(url, userEmail).fields["recipient"] == JStr(userEmail)
    ensures NotificationMessage(url, userEmail).fields["subject"] == JStr("Ссылка на скачивание видео")
    ensures NotificationMessage(url, userEmail).fields["attempts"] == JNum(1)
    ensures NotificationMessage(url, userEmail).fields["body"].JStr?
    ensures var b := NotificationMessage(url, userEmail).fields["body"].s;
              |b| >= |url| && b[|b| - |url|..] == url && b[..|b| - |url|] == "Ссылка на скачивание вашего видео: "
  {
    var b := MessageBody(url);
    assert b[|b| - |url|..] == url;
  }

  /** The subject depends on neither input; the body depends on the url alone and determines it. */
  lemma MessageDependencies(url1: string, email1: string, url2: string, email2: string)
    ensures NotificationMessage(url1, email1).fields["subject"] == NotificationMessage(url2, email2).fields["subject"]
    ensures NotificationMessage(url1, email1).fields["body"] == NotificationMessage(url1, email2).fields["body"]
    ensures NotificationMessage(url1, email1).fields["body"] == NotificationMessage(url2, email2).fields["body"] ==> url1 == url2
  {
    if MessageBody(url1) == MessageBody(url2) {
      assert url1 == MessageBody(url1)[|BODY_PREFIX|..];
      assert url2 == MessageBody(url2)[|BODY_PREFIX|..];
    }
  }

  /** RabbitMQ's default exchange, seen through the publishes it has accepted. */
  class DefaultExchange {
    var published: seq<Delivery>

    constructor ()
      ensures published == []
    {
      published := [];
    }

    method Publish(d: Delivery)
      modifies this
      ensures published == old(published) + [d]
    {
      published := published + [d];
    }
  }

  /** `publish_message(url, user_email)`: exactly one message, routed to the notification queue. */
  method PublishMessage(exchange: DefaultExchange, url: string, userEmail: string)
    modifies exchange
    ensures exchange.published ==
              old(exchange.published) + [Delivery(ROUTING_KEY, Document(NotificationMessage(url, userEmail)))]
  {
    var message := NotificationMessage(url, userEmail);
    exchange.Publish(Delivery(ROUTING_KEY, Document(message)));
  }
}
