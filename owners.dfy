/** The owner store (owner-service `OwnerService`).

    Owners are plain records keyed by id. Deleting an owner first asks the
    cat service to delete that owner's cats and drops the owner only when
    that request was answered. */
module Owners {
  import opened Common
  import opened Dtos
  import opened Messaging

  /** A stored owner. */
  datatype Owner = Owner(firstName: string, lastName: string, birthDate: Date)

  type Store = map<Uuid, Owner>

  /** `convertToDto`: the dto carries the record under its id. */
  function ToDto(id: Uuid, o: Owner): (r: OwnerDto)
    ensures r.id == id && Owner(r.firstName, r.lastName, r.birthDate) == o
  {
    OwnerDto(id, o.firstName, o.lastName, o.birthDate)
  }

  /** The cascade request of `deleteOwner`: the owner's id, as text, to
      `cat.deleteByOwner`. */
  function CascadeRequest(correlationId: string, ownerId: Uuid): (p: Published)
    ensures p.exchange == CatExchange && p.routingKey == "cat.deleteByOwner"
    ensures p.message == Envelope(correlationId, "cat.deleteByOwner.reply.queue", Id(ownerId))
  {
    Call(CatExchange, "cat.deleteByOwner", correlationId, "cat.deleteByOwner.reply.queue", Id(ownerId))
  }

  /** `updateOwner` on the store: the three fields of an existing owner are
      replaced, every other owner is kept. */
  function Overwritten(s: Store, dto: OwnerDto): (r: Option<Store>)
    ensures r.Some? <==> dto.id in s
    ensures r.Some? ==> r.value.Keys == s.Keys
    ensures r.Some? ==> ToDto(dto.id, r.value[dto.id]) == dto
    ensures r.Some? ==> forall k | k in s && k != dto.id :: r.value[k] == s[k]
  {
    if dto.id !in s then None
    else Some(s[dto.id := Owner(dto.firstName, dto.lastName, dto.birthDate)])
  }

  /** Updating twice with the same dto is the same as updating once. */
  lemma OverwriteIsIdempotent(s: Store, dto: OwnerDto)
    requires dto.id in s
    ensures Overwritten(Overwritten(s, dto).value, dto) == Overwritten(s, dto)
  {
    var once := Overwritten(s, dto).value;
    assert once[dto.id] == Owner(dto.firstName, dto.lastName, dto.birthDate);
    assert once[dto.id := once[dto.id]] == once;
  }

  /** An update that sends back what is stored changes nothing. */
  lemma OverwriteWithStoredIsIdentity(s: Store, id: Uuid)
    requires id in s
    ensures Overwritten(s, ToDto(id, s[id])) == Some(s)
  {
    assert s[id := s[id]] == s;
  }

  class OwnerService {
    /** The owner repository. */
    var owners: Store
    /** Requests this service published, in order. */
    var sent: seq<Published>

    constructor ()
      ensures owners == map[] && sent == []
    {
      owners := map[];
      sent := [];
    }

    /** `getOwner`. */
    function GetOwner(id: Uuid): (r: Option<OwnerDto>)
      reads this
      ensures r.Some? <==> id in owners
      ensures r.Some? ==> r.value == ToDto(id, owners[id]) && r.value.id == id
    {
      if id in owners then Some(ToDto(id, owners[id])) else None
    }

    /** `createOwner`: always succeeds, under a fresh id. */
    method CreateOwner(firstName: string, lastName: string, dateOfBirth: Date) returns (r: Option<OwnerDto>)
      modifies this`owners
      ensures r.Some? && r.value.id !in old(owners)
      ensures owners == old(owners)[r.value.id := Owner(firstName, lastName, dateOfBirth)]
      ensures r == GetOwner(r.value.id)
      ensures r.value.firstName == firstName && r.value.lastName == lastName && r.value.birthDate == dateOfBirth
    {
      ghost var unused := Bound(owners.Keys);
      assert unused !in owners;
      var id :| id !in owners;
      var owner := Owner(firstName, lastName, dateOfBirth);
      owners := owners[id := owner];
      r := Some(ToDto(id, owner));
    }

    /** `deleteOwner`: an unknown id is ignored; otherwise the owner's cats
        are deleted first, and the owner only if that request was answered. */
    method DeleteOwner(id: Uuid, correlationId: string, cascadeReply: Option<Body>)
      modifies this
      ensures id !in old(owners) ==> sent == old(sent) && owners == old(owners)
      ensures id in old(owners) ==> sent == old(sent) + [CascadeRequest(correlationId, id)]
      ensures id in old(owners) && cascadeReply.None? ==> owners == old(owners)
      ensures id in old(owners) && cascadeReply.Some? ==> owners == old(owners) - {id}
      ensures GetOwner(id).None? <==> id !in old(owners) || cascadeReply.Some?
    {
      if id !in owners {
        return;
      }
      sent := sent + [CascadeRequest(correlationId, id)];
      if cascadeReply.None? {
        return;
      }
      owners := owners - {id};
    }

    /** `updateOwner`. */
    method UpdateOwner(dto: OwnerDto) returns (r: Option<OwnerDto>)
      modifies this`owners
      ensures r.None? <==> dto.id !in old(owners)
      ensures r.None? ==> owners == old(owners)
      ensures r.Some? ==> owners == Overwritten(old(owners), dto).value && r == Some(dto) && r == GetOwner(dto.id)
    {
      if dto.id !in owners {
        return None;
      }
      var owner := owners[dto.id];
      owner := owner.(firstName := dto.firstName, lastName := dto.lastName, birthDate := dto.birthDate);
      owners := owners[dto.id := owner];
      r := Some(ToDto(dto.id, owner));
    }
  }
}
