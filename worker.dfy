/**
 * The notification consumer: queue topology, and the per-message handler
 * `on_message`, which reads three fields, sends the e-mail, and either
 * acknowledges the message or republishes it unchanged to the dead-letter
 * routing key. There is no retry: `MAX_RETRIES` and `attempts` are never used.
 */
module Worker {
  import opened Wrappers
  import opened Json
  import opened Broker

  const QUEUE_NAME := "email_queue"
  const DEAD_LETTER_QUEUE := "email_ttl_queue"
  const MESSAGE_TTL := 1000
  const DEAD_LETTER_EXCHANGE := "dlx"
  const PREFETCH_COUNT := 1

  datatype Argument = IntArgument(n: int) | StringArgument(s: string)

  datatype QueueDeclaration = QueueDeclaration(name: string, durable: bool, arguments: map<string, Argument>)

  /** The channel calls `main` makes, in order. */
  datatype SetupStep = SetQos(prefetchCount: nat) | Declare(queue: QueueDeclaration) | Consume(queueName: string)

  function DeadLetterArguments(): (args: map<string, Argument>) {
    map["x-message-ttl" := IntArgument(MESSAGE_TTL), "x-dead-letter-exchange" := StringArgument(DEAD_LETTER_EXCHANGE)]
  }

  function Startup(): (steps: seq<SetupStep>) {
    [ SetQos(PREFETCH_COUNT),
      Declare(QueueDeclaration(QUEUE_NAME, false, map[])),
      Consume(QUEUE_NAME),
      Declare(QueueDeclaration(DEAD_LETTER_QUEUE, true, DeadLetterArguments())) ]
  }

  /**
   * One message at a time; the handler consumes the main queue; the dead-letter
   * queue is durable, holds a message for 1000 ms, then hands it to exchange "dlx".
   */
  lemma TopologyFacts()
    ensures Startup()[0] == SetQos(1)
    ensures forall i :: 0 <= i < |Startup()| && Startup()[i].Consume? ==> Startup()[i].queueName == "email_queue"
    ensures exists i :: 0 <= i < |Startup()| && Startup()[i] ==
              Declare(QueueDeclaration("email_ttl_queue", true,
                map["x-message-ttl" := IntArgument(1000), "x-dead-letter-exchange" := StringArgument("dlx")]))
    ensures QUEUE_NAME != DEAD_LETTER_QUEUE
  {
    assert Startup()[3].queue.arguments == DeadLetterArguments();
  }

  /** The three values `send_email` is called with. */
  datatype Email = Email(recipient: Json, subject: Json, body: Json)

  datatype IncomingMessage = IncomingMessage(deliveryTag: nat, payload: Payload)

  /** `json.loads(message.body)` and the three subscripts; None when any of them raises. */
  function ReadEmail(p: Payload): (r: Option<Email>)
  {
    match p
    case Undecodable(_) => None
    case Document(doc) =>
      match (Subscript(doc, "recipient"), Subscript(doc, "subject"), Subscript(doc, "body"))
      case (Ok(r), Ok(s), Ok(b)) => Some(Email(r, s, b))
      case _ => None
  }

  /** What one call of the handler does; the three flags are the collaborators' success. */
  datatype Step = Step(sendCall: Option<Email>, acked: bool, deadLettered: bool, escaped: bool)

  /**
   * The handler's decisions: an unreadable message, a failed send and a failed
   * ack all reach the `except` branch, which publishes the original message to
   * the dead-letter key; when that publish fails too, the exception escapes.
   */
  function Process(p: Payload, sendOk: bool, ackOk: bool, deadLetterOk: bool): (step: Step) {
    match ReadEmail(p)
    case None => Step(None, false, deadLetterOk, !deadLetterOk)
    case Some(e) =>
      if sendOk && ackOk then Step(Some(e), true, false, false)
      else Step(Some(e), false, deadLetterOk, !deadLetterOk)
  }

  /** The handler reads exactly the three fields of a JSON object and nothing else. */
  lemma ReadEmailFields(p: Payload)
    ensures ReadEmail(p).Some? <==>
              p.Document? && p.doc.JObj? && "recipient" in p.doc.fields && "subject" in p.doc.fields && "body" in p.doc.fields
    ensures ReadEmail(p).Some? ==>
              ReadEmail(p).value == Email(p.doc.fields["recipient"], p.doc.fields["subject"], p.doc.fields["body"])
  {
  }

  /** Fields other than the three, `attempts` among them, change nothing. */
  lemma {:induction false} OtherFieldsIgnored(fields: map<string, Json>, key: string, value: Json,
                                              sendOk: bool, ackOk: bool, deadLetterOk: bool)
    requires key !in {"recipient", "subject", "body"}
    ensures Process(Document(JObj(fields[key := value])), sendOk, ackOk, deadLetterOk)
              == Process(Document(JObj(fields)), sendOk, ackOk, deadLetterOk)
  {
    var g := fields[key := value];
    assert ("recipient" in g <==> "recipient" in fields) && ("recipient" in g ==> g["recipient"] == fields["recipient"]);
    assert ("subject" in g <==> "subject" in fields) && ("subject" in g ==> g["subject"] == fields["subject"]);
    assert ("body" in g <==> "body" in fields) && ("body" in g ==> g["body"] == fields["body"]);
  }

  /** With all three fields and a successful send and ack: one send with those values, acked, nothing forwarded. */
  lemma DeliveredPath(p: Payload, deadLetterOk: bool)
    requires ReadEmail(p).Some?
    ensures Process(p, true, true, deadLetterOk) == Step(ReadEmail(p), true, false, false)
  {
  }

  /** An unreadable message or a missing field: no send, no ack, forwarded to the dead-letter key. */
  lemma MalformedPath(p: Payload, sendOk: bool, ackOk: bool)
    requires ReadEmail(p).None?
    ensures Process(p, sendOk, ackOk, true) == Step(None, false, true, false)
  {
  }

  /** A failed send: the send was tried once, the ack is skipped, the message is forwarded. */
  lemma SendFailurePath(p: Payload, ackOk: bool)
    requires ReadEmail(p).Some?
    ensures Process(p, false, ackOk, true) == Step(ReadEmail(p), false, true, false)
  {
  }

  /** When the dead-letter publish succeeds, each message is either explicitly acked or forwarded, never both, never neither. */
  lemma AckOrDeadLetter(p: Payload, sendOk: bool, ackOk: bool)
    ensures Process(p, sendOk, ackOk, true).acked != Process(p, sendOk, ackOk, true).deadLettered
    ensures !Process(p, sendOk, ackOk, true).escaped
    ensures Process(p, sendOk, ackOk, true).acked ==> Process(p, sendOk, ackOk, true).sendCall.Some?
  {
  }

  /**
   * The consumer's view of the broker and the mail transport: explicit acks
   * by delivery tag, every call of `send_email`, and every publish the handler makes.
   */
  class Consumer {
    var acked: seq<nat>
    var sendCalls: seq<Email>
    var published: seq<Delivery>

    constructor ()
      ensures acked == [] && sendCalls == [] && published == []
    {
      acked, sendCalls, published := [], [], [];
    }

    /** `on_message`: the message's changes are those `Process` decides, and only those. */
    method OnMessage(m: IncomingMessage, sendOk: bool, ackOk: bool, deadLetterOk: bool) returns (escaped: bool)
      modifies this
      ensures var step := Process(m.payload, sendOk, ackOk, deadLetterOk);
              && sendCalls == old(sendCalls) + (if step.sendCall.Some? then [step.sendCall.value] else [])
              && acked == old(acked) + (if step.acked then [m.deliveryTag] else [])
              && published == old(published) + (if step.deadLettered then [Delivery(DEAD_LETTER_QUEUE, m.payload)] else [])
              && escaped == step.escaped
    {
      var failed := false;
      var email := ReadEmail(m.payload);
      if email.None? {
        failed := true;
      } else {
        sendCalls := sendCalls + [email.value];
        if !sendOk {
          failed := true;
        } else if !ackOk {
          failed := true;
        } else {
          acked := acked + [m.deliveryTag];
        }
      }
      escaped := false;
      if failed {
        if deadLetterOk {
          published := published + [Delivery(DEAD_LETTER_QUEUE, m.payload)];
        } else {
          escaped := true;
        }
      }
    }
  }
}
