/** The owner service's broker endpoint (owner-service `OwnerMessageListener`).

    Besides serving the owner store, two handlers act on a pet through the
    cat service: `changeForPet` and `deletePet`. Everything the listener
    publishes, its own requests to the cat service and its replies, goes to
    one outbox in order. The cat service's answers and the fresh correlation
    ids are parameters. A body of the wrong shape makes a handler throw,
    which publishes nothing further and changes nothing further. */
module OwnerListener {
  import opened Common
  import opened Dtos
  import opened Messaging
  import opened Owners

  /** A JSON object holding the `petId` the pet handlers read; without it
      `ids.get("petId").toString()` throws. */
  predicate HasPetId(b: Body) {
    b.Ids? && "petId" in b.ids
  }

  /** The `cat.update` request of `changeForPet`. Its body is the pet's id,
      as written; the cat with its new owner is never sent. */
  function CatUpdate(correlationId: string, petId: Uuid): (p: Published)
    ensures p.exchange == CatExchange && p.routingKey == "cat.update"
    ensures p.message == Envelope(correlationId, "cat.update.reply.queue", Id(petId))
    ensures !p.message.body.CatJson?
  {
    Call(CatExchange, "cat.update", correlationId, "cat.update.reply.queue", Id(petId))
  }

  /** The `cat.delete` request of `deletePet`. */
  function CatDelete(correlationId: string, petId: Uuid): (p: Published)
    ensures p.exchange == CatExchange && p.routingKey == "cat.delete"
    ensures p.message == Envelope(correlationId, "cat.delete.reply.queue", Id(petId))
  {
    Call(CatExchange, "cat.delete", correlationId, "cat.delete.reply.queue", Id(petId))
  }

  class OwnerMessageListener {
    const service: OwnerService
    /** Requests and replies this listener published, in order. */
    var outbox: seq<Published>

    constructor (service: OwnerService)
      ensures this.service == service && outbox == []
    {
      this.service := service;
      outbox := [];
    }

    /** `handleCreateOwner`: creation always succeeds, so there is always
        a reply, carrying the new owner. */
    method HandleCreateOwner(message: Envelope)
      modifies this, service`owners
      ensures !message.body.CreateOwnerJson? ==> outbox == old(outbox) && service.owners == old(service.owners)
      ensures message.body.CreateOwnerJson? ==>
        var req := message.body.createOwner;
        && |outbox| == |old(outbox)| + 1 && outbox[..|old(outbox)|] == old(outbox)
        && var p := outbox[|old(outbox)|];
        && p.message.body.OwnerJson? && p == Reply(message, p.message.body)
        && p.message.body.owner.id !in old(service.owners)
        && service.owners == old(service.owners)[p.message.body.owner.id := Owner(req.firstName, req.lastName, req.dateOfBirth)]
        && service.GetOwner(p.message.body.owner.id) == Some(p.message.body.owner)
    {
      if !message.body.CreateOwnerJson? {
        return;
      }
      var req := message.body.createOwner;
      var created := service.CreateOwner(req.firstName, req.lastName, req.dateOfBirth);
      if created.Some? {
        outbox := outbox + [Reply(message, OwnerJson(created.value))];
      }
    }

    /** `handleGetOwner`: replies with the owner if it is stored and stays
        silent otherwise, which the asking service sees as a timeout. */
    method HandleGetOwner(message: Envelope)
      modifies this
      ensures !message.body.Id? || message.body.id !in service.owners ==> outbox == old(outbox)
      ensures message.body.Id? && message.body.id in service.owners ==>
        outbox == old(outbox) + [Reply(message, OwnerJson(ToDto(message.body.id, service.owners[message.body.id])))]
    {
      if !message.body.Id? {
        return;
      }
      var owner := service.GetOwner(message.body.id);
      if owner.Some? {
        outbox := outbox + [Reply(message, OwnerJson(owner.value))];
      }
    }

    /** `handleChangeForPet`: fetches the pet, then sends `cat.update` and
        answers whether that request got a reply. Without the pet the answer
        is false; a pet reply that is not a cat dto throws. */
    method HandleChangeForPet(message: Envelope, getCorrelationId: string, catReply: Option<Body>,
                              updateCorrelationId: string, updateReply: Option<Body>)
      modifies this
      ensures !HasPetId(message.body) ==> outbox == old(outbox)
      ensures HasPetId(message.body) ==>
        var petId := message.body.ids["petId"];
        var asked := old(outbox) + [CatGet(getCorrelationId, petId)];
        && (catReply.None? ==> outbox == asked + [Reply(message, Flag(false))])
        && (catReply.Some? && !catReply.value.CatJson? ==> outbox == asked)
        && (catReply.Some? && catReply.value.CatJson? ==>
              outbox == asked + [CatUpdate(updateCorrelationId, petId), Reply(message, Flag(updateReply.Some?))])
    {
      if !HasPetId(message.body) {
        return;
      }
      var petId := message.body.ids["petId"];
      outbox := outbox + [CatGet(getCorrelationId, petId)];
      if catReply.None? {
        outbox := outbox + [Reply(message, Flag(false))];
        return;
      }
      if !catReply.value.CatJson? {
        return;
      }
      outbox := outbox + [CatUpdate(updateCorrelationId, petId)];
      outbox := outbox + [Reply(message, Flag(updateReply.Some?))];
    }

    /** `handleDeletePet`: sends `cat.delete` and answers whether it got a
        reply. */
    method HandleDeletePet(message: Envelope, correlationId: string, deleteReply: Option<Body>)
      modifies this
      ensures !HasPetId(message.body) ==> outbox == old(outbox)
      ensures HasPetId(message.body) ==>
        outbox == old(outbox) + [CatDelete(correlationId, message.body.ids["petId"]), Reply(message, Flag(deleteReply.Some?))]
    {
      if !HasPetId(message.body) {
        return;
      }
      var petId := message.body.ids["petId"];
      outbox := outbox + [CatDelete(correlationId, petId)];
      outbox := outbox + [Reply(message, Flag(deleteReply.Some?))];
    }

    /** `handleDeleteOwner`: runs `deleteOwner` and answers with an empty
        body, whether or not anything was deleted. */
    method HandleDeleteOwner(message: Envelope, correlationId: string, cascadeReply: Option<Body>)
      modifies this, service
      ensures !message.body.Id? ==>
        outbox == old(outbox) && service.owners == old(service.owners) && service.sent == old(service.sent)
      ensures message.body.Id? ==>
        var id := message.body.id;
        && outbox == old(outbox) + [Reply(message, Empty)]
        && (id !in old(service.owners) ==> service.sent == old(service.sent) && service.owners == old(service.owners))
        && (id in old(service.owners) ==> service.sent == old(service.sent) + [CascadeRequest(correlationId, id)])
        && (id in old(service.owners) && cascadeReply.None? ==> service.owners == old(service.owners))
        && (id in old(service.owners) && cascadeReply.Some? ==> service.owners == old(service.owners) - {id})
    {
      if !message.body.Id? {
        return;
      }
      service.DeleteOwner(message.body.id, correlationId, cascadeReply);
      outbox := outbox + [Reply(message, Empty)];
    }

    /** `handleUpdateOwner`: replies with the updated owner, and only if it
        exists. */
    method HandleUpdateOwner(message: Envelope)
      modifies this, service`owners
      ensures !message.body.OwnerJson? ==> outbox == old(outbox) && service.owners == old(service.owners)
      ensures message.body.OwnerJson? ==>
        var dto := message.body.owner;
        && (dto.id !in old(service.owners) ==> outbox == old(outbox) && service.owners == old(service.owners))
        && (dto.id in old(service.owners) ==>
              && service.owners == Overwritten(old(service.owners), dto).value
              && outbox == old(outbox) + [Reply(message, OwnerJson(dto))])
    {
      if !message.body.OwnerJson? {
        return;
      }
      var updated := service.UpdateOwner(message.body.owner);
      if updated.Some? {
        outbox := outbox + [Reply(message, OwnerJson(updated.value))];
      }
    }
  }
}
