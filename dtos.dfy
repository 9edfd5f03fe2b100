/** The records the services exchange over the broker (the common-dtos package). */
module Dtos {
  import opened Common

  /** A cat as it travels between services; `friends` is the list of friend ids. */
  datatype CatDto = CatDto(
    id: Uuid,
    name: string,
    dateOfBirth: Date,
    breed: string,
    color: Color,
    ownerId: Uuid,
    friends: seq<Uuid>)

  /** The fields a client supplies to create a cat. */
  datatype CreateCatRequest = CreateCatRequest(
    name: string,
    dateOfBirth: Date,
    breed: string,
    color: Color,
    ownerId: Uuid)

  /** An owner as it travels between services. */
  datatype OwnerDto = OwnerDto(
    id: Uuid,
    firstName: string,
    lastName: string,
    birthDate: Date)

  /** The fields a client supplies to create an owner. */
  datatype CreateOwnerRequest = CreateOwnerRequest(
    firstName: string,
    lastName: string,
    dateOfBirth: Date)
}
