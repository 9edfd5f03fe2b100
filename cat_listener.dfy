/** The pet service's broker endpoint (pet-service `CatMessageListener`).

    Each handler decodes its queue's request, calls `CatService` and, where
    the code does, publishes a reply to the request's reply destination with
    the request's correlation id. A body of the wrong shape (or a map
    without the ids the handler reads) makes the handler throw: the model
    then publishes nothing and changes nothing. */
module CatListener {
  import opened Common
  import opened Dtos
  import opened Messaging
  import opened Cats

  class CatMessageListener {
    const service: CatService
    /** Replies this listener published, in order. */
    var outbox: seq<Published>

    constructor (service: CatService)
      ensures this.service == service && outbox == []
    {
      this.service := service;
      outbox := [];
    }

    /** `handleCreateCat`: replies with the created cat, and only if one was
        created. */
    method HandleCreateCat(message: Envelope, correlationId: string, ownerReply: Option<Body>)
      modifies this, service
      ensures !message.body.CreateCatJson? ==>
        outbox == old(outbox) && service.cats == old(service.cats) && service.sent == old(service.sent)
      ensures message.body.CreateCatJson? ==>
        var req := message.body.createCat;
        && service.sent == old(service.sent) + [OwnerLookup(correlationId, req.ownerId)]
        && (ownerReply.None? ==> outbox == old(outbox) && service.cats == old(service.cats))
        && (ownerReply.Some? ==>
          && |outbox| == |old(outbox)| + 1 && outbox[..|old(outbox)|] == old(outbox)
          && var p := outbox[|old(outbox)|];
          && p.message.body.CatJson? && p == Reply(message, p.message.body)
          && p.message.body.cat.id !in old(service.cats)
          && service.cats == old(service.cats)[p.message.body.cat.id :=
               Cat(req.name, req.dateOfBirth, req.breed, req.color, req.ownerId, [])]
          && service.GetCat(p.message.body.cat.id) == Some(p.message.body.cat))
      ensures Valid(old(service.cats)) ==> Valid(service.cats)
    {
      if !message.body.CreateCatJson? {
        return;
      }
      var req := message.body.createCat;
      var created := service.CreateCat(req.name, req.dateOfBirth, req.breed, req.color, req.ownerId,
                                       correlationId, ownerReply);
      if created.Some? {
        outbox := outbox + [Reply(message, CatJson(created.value))];
      }
    }

    /** `handleGetCat`: replies with the cat if it is stored, and stays
        silent otherwise (the caller then times out). */
    method HandleGetCat(message: Envelope)
      modifies this
      ensures !message.body.Id? || message.body.id !in service.cats ==> outbox == old(outbox)
      ensures message.body.Id? && message.body.id in service.cats ==>
        outbox == old(outbox) + [Reply(message, CatJson(ToDto(message.body.id, service.cats[message.body.id])))]
    {
      if !message.body.Id? {
        return;
      }
      var cat := service.GetCat(message.body.id);
      if cat.Some? {
        outbox := outbox + [Reply(message, CatJson(cat.value))];
      }
    }

    /** `handleMakeFriends`: always answers with the boolean result. */
    method HandleMakeFriends(message: Envelope)
      modifies this, service`cats
      ensures !TwoIds(message.body) ==> outbox == old(outbox) && service.cats == old(service.cats)
      ensures TwoIds(message.body) ==>
        var ids := message.body.ids;
        var o := Link(old(service.cats), ids["id1"], ids["id2"]);
        service.cats == o.store && outbox == old(outbox) + [Reply(message, Flag(o.result))]
      ensures Valid(old(service.cats)) ==> Valid(service.cats)
    {
      if !TwoIds(message.body) {
        return;
      }
      var ids := message.body.ids;
      var success := service.MakeFriendsWith(ids["id1"], ids["id2"]);
      outbox := outbox + [Reply(message, Flag(success))];
    }

    /** `handleDeleteFriendship`: always answers with the boolean result. */
    method HandleDeleteFriendship(message: Envelope)
      modifies this, service`cats
      ensures !TwoIds(message.body) ==> outbox == old(outbox) && service.cats == old(service.cats)
      ensures TwoIds(message.body) ==>
        var ids := message.body.ids;
        var o := Unlink(old(service.cats), ids["id1"], ids["id2"]);
        service.cats == o.store && outbox == old(outbox) + [Reply(message, Flag(o.result))]
      ensures Valid(old(service.cats)) ==> Valid(service.cats)
    {
      if !TwoIds(message.body) {
        return;
      }
      var ids := message.body.ids;
      var success := service.DeleteFriendshipWith(ids["id1"], ids["id2"]);
      outbox := outbox + [Reply(message, Flag(success))];
    }

    /** `handleDeleteCat`: deletes and answers with an empty body, whether
        or not the cat existed. */
    method HandleDeleteCat(message: Envelope)
      modifies this, service`cats
      ensures !message.body.Id? ==> outbox == old(outbox) && service.cats == old(service.cats)
      ensures message.body.Id? ==>
        && service.cats == Deleted(old(service.cats), message.body.id)
        && outbox == old(outbox) + [Reply(message, Empty)]
      ensures Valid(old(service.cats)) ==> Valid(service.cats)
    {
      if !message.body.Id? {
        return;
      }
      service.DeleteCat(message.body.id);
      outbox := outbox + [Reply(message, Empty)];
    }

    /** `handleDeleteByOwner`: deletes the owner's cats and answers with an
        empty body. */
    method HandleDeleteByOwner(message: Envelope)
      modifies this, service`cats
      ensures !message.body.Id? ==> outbox == old(outbox) && service.cats == old(service.cats)
      ensures message.body.Id? ==>
        && service.cats == WithoutOwner(old(service.cats), message.body.id)
        && outbox == old(outbox) + [Reply(message, Empty)]
    {
      if !message.body.Id? {
        return;
      }
      service.DeleteCatsByOwner(message.body.id);
      outbox := outbox + [Reply(message, Empty)];
    }

    /** `handleUpdateCat`: replies with the updated cat, and only if the
        update went through. A body that is not a cat dto throws. */
    method HandleUpdateCat(message: Envelope, correlationId: string, ownerReply: Option<Body>)
      modifies this, service
      ensures !message.body.CatJson? ==>
        outbox == old(outbox) && service.cats == old(service.cats) && service.sent == old(service.sent)
      ensures message.body.CatJson? ==>
        var dto := message.body.cat;
        var updated := dto.id in old(service.cats) && ownerReply.Some? && Acceptable(old(service.cats), dto);
        && (dto.id !in old(service.cats) ==> service.sent == old(service.sent))
        && (dto.id in old(service.cats) ==> service.sent == old(service.sent) + [OwnerLookup(correlationId, dto.ownerId)])
        && (updated ==> service.cats == Reconciled(old(service.cats), dto)
                        && outbox == old(outbox) + [Reply(message, CatJson(dto))])
        && (!updated ==> service.cats == old(service.cats) && outbox == old(outbox))
      ensures Valid(old(service.cats)) ==> Valid(service.cats)
    {
      if !message.body.CatJson? {
        return;
      }
      var updated := service.UpdateCat(message.body.cat, correlationId, ownerReply);
      if updated.Some? {
        outbox := outbox + [Reply(message, CatJson(updated.value))];
      }
    }
  }

  /** A JSON object holding the two ids `id1` and `id2` the friendship
      handlers read; without either one the service is called with `null`
      and throws. */
  predicate TwoIds(b: Body) {
    b.Ids? && "id1" in b.ids && "id2" in b.ids
  }
}
