/** What the broker carries: a message body and the routing key it is published with. */
module Broker {
  import opened Json

  /** A message body: a JSON document, or bytes `json.loads` rejects. */
  datatype Payload = Document(doc: Json) | Undecodable(bytes: seq<int>)

  /** One publish to RabbitMQ's default exchange. */
  datatype Delivery = Delivery(routingKey: string, payload: Payload)
}
