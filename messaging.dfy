/** The request/reply convention the services layer over the broker.

    A message is an envelope of correlation id, reply destination and body.
    What a service publishes is recorded, in order, in an outbox of
    `Published` entries (exchange, routing key, envelope). A round-trip
    (`sendAndReceive`) publishes one entry and hands back the broker's answer,
    which the model takes as an `Option<Body>` parameter: `None` is a
    timeout, i.e. `sendAndReceive` returning `null`. */
module Messaging {
  import opened Common
  import opened Dtos

  /** A message body, already decoded: JSON decoding is not modelled, a body
      is the value the code reads out of (or writes into) the bytes. */
  datatype Body =
    | Empty                                  // new byte[0]
    | Flag(flag: bool)                       // a JSON boolean
    | Id(id: Uuid)                           // uuid.toString().getBytes()
    | Ids(ids: map<string, Uuid>)            // a JSON object of named ids
    | CatJson(cat: CatDto)
    | OwnerJson(owner: OwnerDto)
    | CreateCatJson(createCat: CreateCatRequest)
    | CreateOwnerJson(createOwner: CreateOwnerRequest)

  /** Message properties and body. An unset `replyTo` is the empty string. */
  datatype Envelope = Envelope(correlationId: string, replyTo: string, body: Body)

  /** One message handed to the broker. */
  datatype Published = Published(exchange: string, routingKey: string, message: Envelope)

  const CatExchange := "cat.exchange"
  const OwnerExchange := "owner.exchange"
  /** `RabbitTemplate.send(routingKey, message)` uses the default exchange. */
  const DefaultExchange := ""

  /** The request a round-trip publishes: the payload on `exchange` with routing
      key `routingKey`, carrying the fresh correlation id and the reply queue. */
  function Call(exchange: string, routingKey: string, correlationId: string, replyTo: string, body: Body): Published
  {
    Published(exchange, routingKey, Envelope(correlationId, replyTo, body))
  }

  /** The `owner.get` lookup that gates cat and user writes. */
  function OwnerLookup(correlationId: string, ownerId: Uuid): (p: Published)
    ensures p.exchange == OwnerExchange && p.routingKey == "owner.get"
    ensures p.message == Envelope(correlationId, "owner.get.reply.queue", Id(ownerId))
  {
    Call(OwnerExchange, "owner.get", correlationId, "owner.get.reply.queue", Id(ownerId))
  }

  /** The `cat.get` lookup of a cat by id, which `isCatOwner` and
      `changeForPet` both publish. */
  function CatGet(correlationId: string, catId: Uuid): (p: Published)
    ensures p.exchange == CatExchange && p.routingKey == "cat.get"
    ensures p.message == Envelope(correlationId, "cat.get.reply.queue", Id(catId))
  {
    Call(CatExchange, "cat.get", correlationId, "cat.get.reply.queue", Id(catId))
  }

  /** The `reply` helper of both listeners: the response goes to the request's
      reply destination, echoing its correlation id and setting nothing else. */
  function Reply(request: Envelope, body: Body): (p: Published)
    ensures Answers(p, request)
    ensures p.message.replyTo == "" && p.message.body == body
  {
    Published(DefaultExchange, request.replyTo, Envelope(request.correlationId, "", body))
  }

  /** The caller's matching rule: a message answers a request when it arrives
      on the request's reply queue carrying the request's correlation id. */
  predicate Answers(p: Published, request: Envelope) {
    p.exchange == DefaultExchange && p.routingKey == request.replyTo
    && p.message.correlationId == request.correlationId
  }

  /** A reply answers the request it was built from, and no request that
      used another correlation id: replies are never handed to the wrong waiter. */
  lemma ReplyAnswersOnlyItsRequest(request: Envelope, other: Envelope, body: Body)
    ensures Answers(Reply(request, body), request) && Reply(request, body).message.body == body
    ensures other.correlationId != request.correlationId ==> !Answers(Reply(request, body), other)
  {
  }
}
