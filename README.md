# Pet management services: a verified model

This project models the core of a pet-management system made of three
services that talk over a message broker:

- the **pet service** (`CatService`, `CatMessageListener`) keeps the cats and
  their friendship graph;
- the **owner service** (`OwnerService`, `OwnerMessageListener`) keeps the
  owners and cascades an owner's deletion to the pet service;
- the **gateway** keeps the user accounts (`UserService`) and decides whether
  a user owns a cat (`CatSecurityService`).

Every create or update that names a record of another service first makes
a request/reply round-trip over the broker: `createCat`, `updateCat`,
`createUser` and `updateUser` ask the owner service whether the owner exists.
`deleteOwner` is the one deletion guarded by a round-trip: it drops the owner
only once the pet service has answered its cascade request. The deletions by
owner id, `deleteCatsByOwner` and `deleteAllUsersForOwner`, send nothing. In
the model a round-trip is the
request the service publishes, recorded in an outbox, plus the broker's answer,
passed in as an `Option<Body>`. `None` stands for the timeout, which is when
`sendAndReceive` returns `null`.

How the code is laid out:

- Modules follow the services. `Common` and `Dtos` hold the shared types.
  `Messaging` holds the envelope, the publish log and the reply rule.
  `Cats`, `Owners` and `Users` hold the stores. `CatSecurity`, `CatListener`
  and `OwnerListener` hold the decision and the two broker endpoints.
- Each store is a `map` from id to record, held in a field of the service
  class. The service methods change that field in place, as the Java code
  changes its entities. Each method is proved to end in exactly the map that
  a specification function of the old map describes.
- Lemmas about those functions state what the operations promise: the
  friendship invariant, the effect of `updateCat`, the cascade, and the
  uniqueness of usernames.

The friendship invariant `Cats.Valid` has four parts:

- friend ids name stored cats;
- friendship is mirrored;
- no cat is its own friend;
- no friend list holds an id twice.

Two places where the code is inconsistent with itself are modelled as
written:

- `deleteCatsByOwner` (CatService.java:135-137) removes the owner's cats
  without scrubbing them from the lists of their friends, while `deleteCat`
  scrubs the deleted cat from each friend's list first
  (CatService.java:127-129). The friendship invariant `Cats.Valid` above is what
  every other write path maintains.
  `Cats.DeleteByOwnerCanLeaveDanglingFriend` exhibits a consistent store that
  this deletion leaves inconsistent. `Cats.DeleteByOwnerKeepsValidIff` says
  exactly when it stays consistent. Service methods therefore do not assume
  `Valid`. Every cat method except the two by-owner deletions
  (`Cats.CatService.DeleteCatsByOwner` and
  `CatListener.CatMessageListener.HandleDeleteByOwner`) promises to keep it;
  those two promise nothing about it.
- `handleChangeForPet` fetches the cat and sets the new owner on the fetched
  dto. It then sends the pet's id as text, not that dto, as the body of
  `cat.update`. The `cat.update` handler reads a cat dto and throws on
  anything else, so it stays silent, and the owner never changes.
  `OwnerListener.OwnerMessageListener.HandleChangeForPet` shows the request it
  sends. `CatListener.CatMessageListener.HandleUpdateCat` shows that no reply
  and no change follow from such a body.

## Model

| member | source | states |
|---|---|---|
| Common.RemoveFirst | pet-service/src/main/java/ru/annapvasileva/services/CatService.java:113-114 | `List.remove(Object)`: a list without `x` is unchanged. Otherwise it gets one element shorter and keeps every other element. A duplicate-free list no longer holds `x`. |
| Common.RemoveFirstIsFirstOccurrence | pet-service/src/main/java/ru/annapvasileva/services/CatService.java:113-114 | `List.remove(Object)` drops exactly the first occurrence of `x`: the result is the list before that position followed by the list after it, in order. |
| Common.Minus | pet-service/src/main/java/ru/annapvasileva/services/CatService.java:168-177 | The filter of `updateCat`: keeps exactly the elements of the first list missing from the second. It keeps the first list free of duplicates. |
| Messaging.OwnerLookup | pet-service/src/main/java/ru/annapvasileva/services/CatService.java:38-43 | The `owner.get` request that gates a write. It goes to `owner.exchange` with key `owner.get`, reply queue `owner.get.reply.queue`, the given correlation id and the owner id as body. `updateCat` sends the same request at lines 147-152, and `UserService` at lines 36-41 and 91-96. |
| Messaging.CatGet | owner-service/src/main/java/ru/annapvasileva/services/OwnerMessageListener.java:74-79 | The `cat.get` request of `changeForPet`; `isCatOwner` builds the same one at CatSecurityService.java:32-37. It goes to `cat.exchange` with key `cat.get`, reply queue `cat.get.reply.queue`, the given correlation id and the cat id as body. |
| Messaging.Reply | owner-service/src/main/java/ru/annapvasileva/services/OwnerMessageListener.java:128-138 | The `reply` helper of the owner listener; the pet listener's at CatMessageListener.java:113-123 is the same. The reply answers the request it is built from, under the matching rule `Answers`. It sets no reply destination of its own and carries the given body. |
| Messaging.ReplyAnswersOnlyItsRequest | pet-service/src/main/java/ru/annapvasileva/services/CatMessageListener.java:113-123 | The `reply` helper of both listeners (the owner listener's copy is at OwnerMessageListener.java:128-138): a reply matches the request it answers, since it goes to the request's reply destination with its correlation id, and carries the given body. It matches no request that carries a different correlation id. |
| Cats.ToDto | pet-service/src/main/java/ru/annapvasileva/services/CatService.java:194-206 | `convertToDto`: the dto carries the record under its id, and the record written back from it is the record itself. |
| Cats.FromDtoKeepsAllButTheId | pet-service/src/main/java/ru/annapvasileva/services/CatService.java:182-187 | The setters of `updateCat` copy every field of the dto into the record, so the dto of the written record is the requested dto. |
| Cats.Link | pet-service/src/main/java/ru/annapvasileva/services/CatService.java:73-94 | `makeFriendsWith` returns true exactly when the ids differ and both cats exist. On false the store is unchanged. Only the two cats' friend lists can change. |
| Cats.Unlink | pet-service/src/main/java/ru/annapvasileva/services/CatService.java:96-119 | `deleteFriendshipWith` returns true exactly when the ids differ, both cats exist and the first lists the second. On false the store is unchanged. Only the two friend lists can change. |
| Cats.LinkMakesMutualFriends | pet-service/src/main/java/ru/annapvasileva/services/CatService.java:84-93 | On a consistent store, success leaves each cat listing the other, and the store stays consistent. |
| Cats.LinkIsIdempotent | pet-service/src/main/java/ru/annapvasileva/services/CatService.java:87-91 | Befriending the same cats again changes nothing and returns the same result. |
| Cats.LinkOfFriendsChangesNothing | pet-service/src/main/java/ru/annapvasileva/services/CatService.java:87-93 | On a consistent store, if either cat already lists the other, the call returns true and changes nothing. |
| Cats.UnlinkSeparates | pet-service/src/main/java/ru/annapvasileva/services/CatService.java:107-118 | On a consistent store the result says whether the edge existed. Afterwards neither cat lists the other, and the store stays consistent. |
| Cats.Scrubbed | pet-service/src/main/java/ru/annapvasileva/services/CatService.java:127-129 | The scrubbing loop of `deleteCat` keeps the set of stored ids. |
| Cats.Deleted | pet-service/src/main/java/ru/annapvasileva/services/CatService.java:121-133 | `deleteCat` of an unknown id is a no-op. Otherwise exactly that id leaves the store. |
| Cats.ScrubbedEffect | pet-service/src/main/java/ru/annapvasileva/services/CatService.java:127-129 | For a duplicate-free friend list, each listed cat loses the deleted id once. Every other cat is untouched. |
| Cats.DeleteCatLeavesNoDanglingFriend | pet-service/src/main/java/ru/annapvasileva/services/CatService.java:121-133 | After deleting a cat from a consistent store, no cat lists it. Only its former friends' lists changed, and the store stays consistent. |
| Cats.WithoutOwner | pet-service/src/main/java/ru/annapvasileva/services/CatService.java:135-137 | `deleteCatsByOwner` keeps exactly the cats of other owners, unchanged. |
| Cats.DeleteByOwnerKeepsValidIff | pet-service/src/main/java/ru/annapvasileva/services/CatService.java:135-137 | On a consistent store, deleting by owner keeps the store consistent exactly when no surviving cat is a friend of a deleted one. |
| Cats.DeleteByOwnerCanLeaveDanglingFriend | pet-service/src/main/java/ru/annapvasileva/services/CatService.java:135-137 | A consistent two-cat store that deleting by owner leaves with a dangling friend id. |
| Cats.CreatedCatKeepsValid | pet-service/src/main/java/ru/annapvasileva/services/CatService.java:48-56 | Storing a friendless cat under a fresh id keeps the store consistent. |
| Cats.Acceptable | pet-service/src/main/java/ru/annapvasileva/services/CatService.java:157-166 | The two checks of `updateCat` pass exactly when the requested friend ids are distinct, all name stored cats, and do not include the cat itself. |
| Cats.FoundCountExact | pet-service/src/main/java/ru/annapvasileva/services/CatService.java:157-162 | `findAllById` finds at most as many cats as ids were requested. It finds exactly as many only when the ids are distinct and all resolve. |
| Cats.Unlinked | pet-service/src/main/java/ru/annapvasileva/services/CatService.java:171-173 | The removal loop of `updateCat` keeps the set of stored ids. |
| Cats.Linked | pet-service/src/main/java/ru/annapvasileva/services/CatService.java:178-180 | The adding loop of `updateCat` keeps the set of stored ids. |
| Cats.Reconciled | pet-service/src/main/java/ru/annapvasileva/services/CatService.java:168-189 | The whole write phase of `updateCat` keeps the set of stored ids. |
| Cats.UnlinkedEffect | pet-service/src/main/java/ru/annapvasileva/services/CatService.java:168-173 | Unfriending distinct current friends keeps the store consistent. The cat's list loses exactly them, and each of them loses the cat. |
| Cats.LinkedEffect | pet-service/src/main/java/ru/annapvasileva/services/CatService.java:175-180 | Befriending distinct non-friends appends them to the cat's list and the cat to each of theirs. Other cats are untouched. |
| Cats.LinkedKeepsValid | pet-service/src/main/java/ru/annapvasileva/services/CatService.java:178-180 | Any sequence of befriending calls keeps a consistent store consistent. |
| Cats.UnlinkedKeepsValid | pet-service/src/main/java/ru/annapvasileva/services/CatService.java:171-173 | Any sequence of unfriending calls keeps a consistent store consistent. |
| Cats.SameFriendsKeepsValid | pet-service/src/main/java/ru/annapvasileva/services/CatService.java:182-189 | Overwriting a record with one whose friend list has the same members, without duplicates, keeps the store consistent. |
| Cats.ReconciledIsIntended | pet-service/src/main/java/ru/annapvasileva/services/CatService.java:157-189 | On a consistent store, an accepted update equals the declarative diff. New friends list the cat, dropped friends lose it, and everyone else is untouched. |
| Cats.ReconciledKeepsValid | pet-service/src/main/java/ru/annapvasileva/services/CatService.java:157-189 | On a consistent store, an accepted update keeps the store consistent. |
| Cats.ReconciledEffect | pet-service/src/main/java/ru/annapvasileva/services/CatService.java:139-191 | After an accepted update the record is the requested one. Exactly the requested friends list the cat. No other id enters or leaves any other list. Cats whose friendship did not change are untouched. The store stays consistent. |
| Cats.CatService.constructor | pet-service/src/main/java/ru/annapvasileva/services/CatService.java:30-35 | The service starts with an empty store and nothing sent. |
| Cats.CatService.GetCat | pet-service/src/main/java/ru/annapvasileva/services/CatService.java:61-65 | Found exactly when stored, carrying the stored record under its id. |
| Cats.CatService.CreateCat | pet-service/src/main/java/ru/annapvasileva/services/CatService.java:37-58 | Always sends the owner lookup. Without a reply nothing is stored. Otherwise a friendless cat is stored under a fresh id and `getCat` returns it. Consistency is kept. |
| Cats.CatService.MakeFriendsWith | pet-service/src/main/java/ru/annapvasileva/services/CatService.java:73-94 | The store and result are those of `Link`, and consistency is kept. |
| Cats.CatService.DeleteFriendshipWith | pet-service/src/main/java/ru/annapvasileva/services/CatService.java:96-119 | The store and result are those of `Unlink`, and consistency is kept. |
| Cats.CatService.DeleteCat | pet-service/src/main/java/ru/annapvasileva/services/CatService.java:121-133 | The loop ends in `Deleted`. On a consistent store, no cat lists the deleted one and consistency is kept. |
| Cats.CatService.DeleteCatsByOwner | pet-service/src/main/java/ru/annapvasileva/services/CatService.java:135-137 | The store becomes `WithoutOwner`. |
| Cats.CatService.UnlinkAll | pet-service/src/main/java/ru/annapvasileva/services/CatService.java:171-173 | The removal loop ends in `Unlinked` and keeps a consistent store consistent. |
| Cats.CatService.LinkAll | pet-service/src/main/java/ru/annapvasileva/services/CatService.java:178-180 | The adding loop ends in `Linked` and keeps a consistent store consistent. |
| Cats.CatService.UpdateCat | pet-service/src/main/java/ru/annapvasileva/services/CatService.java:139-191 | Nothing is sent for an unknown cat. The call succeeds exactly when the cat exists, the owner answered and the friend list is acceptable. A failure changes nothing. A success ends in `Reconciled` and returns the requested dto, which `getCat` now returns. Consistency is kept. |
| Owners.ToDto | owner-service/src/main/java/ru/annapvasileva/services/OwnerService.java:89-95 | `convertToDto`: the dto carries the record's three fields under its id. |
| Owners.CascadeRequest | owner-service/src/main/java/ru/annapvasileva/services/OwnerService.java:61-66 | The cascade request of `deleteOwner`. It goes to `cat.exchange` with key `cat.deleteByOwner`, reply queue `cat.deleteByOwner.reply.queue`, the given correlation id and the owner id as body. |
| Owners.Overwritten | owner-service/src/main/java/ru/annapvasileva/services/OwnerService.java:73-87 | Updating an owner succeeds exactly for an existing owner. It stores the dto's fields under its id and keeps every other owner. |
| Owners.OverwriteIsIdempotent | owner-service/src/main/java/ru/annapvasileva/services/OwnerService.java:80-84 | Updating twice with the same dto is the same as updating once. |
| Owners.OverwriteWithStoredIsIdentity | owner-service/src/main/java/ru/annapvasileva/services/OwnerService.java:80-84 | Updating with the stored owner's own dto changes nothing. |
| Owners.OwnerService.constructor | owner-service/src/main/java/ru/annapvasileva/services/OwnerService.java:25-28 | The service starts with no owners and nothing sent. |
| Owners.OwnerService.GetOwner | owner-service/src/main/java/ru/annapvasileva/services/OwnerService.java:42-45 | Found exactly when stored, carrying the stored record under its id. |
| Owners.OwnerService.CreateOwner | owner-service/src/main/java/ru/annapvasileva/services/OwnerService.java:30-39 | Always succeeds under a fresh id, with the given fields, and `getOwner` returns the result. |
| Owners.OwnerService.DeleteOwner | owner-service/src/main/java/ru/annapvasileva/services/OwnerService.java:53-71 | An unknown owner sends nothing and changes nothing. Otherwise the cat cascade is sent. The owner is removed exactly when the cascade was answered, and no other owner is removed. |
| Owners.OwnerService.UpdateOwner | owner-service/src/main/java/ru/annapvasileva/services/OwnerService.java:73-87 | Empty exactly for an unknown id, which changes nothing. Otherwise the store becomes `Overwritten`, and the dto is returned and found again. |
| Users.ToDto | gateway-service/src/main/java/ru/annapvasileva/services/users/UserService.java:111-119 | `convertToDto`: the dto carries the record's four fields, the encoded password among them, under its id. |
| Users.UsernameTaken | gateway-service/src/main/java/ru/annapvasileva/services/users/UserService.java:45 | The name is taken exactly when it is among the usernames of the stored users. |
| Users.FindByUsername | gateway-service/src/main/java/ru/annapvasileva/persistence/UserRepository.java:9 | With unique names, finds a user exactly when the name is taken, and it finds that user. |
| Users.WithoutUsername | gateway-service/src/main/java/ru/annapvasileva/services/users/UserService.java:76-78 | Deleting by username leaves no user with that name and keeps all others unchanged. |
| Users.WithoutOwner | gateway-service/src/main/java/ru/annapvasileva/services/users/UserService.java:80-82 | Deleting by owner leaves no user of that owner and keeps all others unchanged. |
| Users.CreatedKeepsUnique | gateway-service/src/main/java/ru/annapvasileva/services/users/UserService.java:45-55 | Adding a user under an unused name keeps names unique, and the name then finds the new user. |
| Users.SubStoreKeepsUnique | gateway-service/src/main/java/ru/annapvasileva/services/users/UserService.java:72-82 | Deleting users keeps names unique. |
| Users.WithoutUsernameRemovesTheFoundUser | gateway-service/src/main/java/ru/annapvasileva/services/users/UserService.java:76-78 | With unique names, deleting by username removes exactly the user `findByUsername` finds, or nothing. |
| Users.Rewritten | gateway-service/src/main/java/ru/annapvasileva/services/users/UserService.java:101-108 | Updating a user replaces the four fields, with the password encoded. It keeps the id and every other user. |
| Users.RewriteCanDuplicateUsername | gateway-service/src/main/java/ru/annapvasileva/services/users/UserService.java:101-106 | Renaming a user to another user's name passes the update. |
| Users.UserService.constructor | gateway-service/src/main/java/ru/annapvasileva/services/users/UserService.java:26-33 | The service starts with the given encoder, no users and nothing sent. |
| Users.UserService.GetUser | gateway-service/src/main/java/ru/annapvasileva/services/users/UserService.java:60-64 | Found exactly when stored, carrying the stored record under its id. |
| Users.UserService.CreateUser | gateway-service/src/main/java/ru/annapvasileva/services/users/UserService.java:35-58 | Always sends the owner lookup. The call succeeds exactly when the owner answered and the name is free. A success stores one new user with the encoded password under a fresh id, and `getUser` returns it. Unique names are kept. |
| Users.UserService.DeleteUser | gateway-service/src/main/java/ru/annapvasileva/services/users/UserService.java:72-74 | Removes that id, if stored, and nothing else. |
| Users.UserService.DeleteUserByUsername | gateway-service/src/main/java/ru/annapvasileva/services/users/UserService.java:76-78 | The store becomes `WithoutUsername`. |
| Users.UserService.DeleteAllUsersForOwner | gateway-service/src/main/java/ru/annapvasileva/services/users/UserService.java:80-82 | The store becomes `WithoutOwner`. |
| Users.UserService.UpdateUser | gateway-service/src/main/java/ru/annapvasileva/services/users/UserService.java:84-109 | An unknown id sends nothing. The call succeeds exactly when the user exists and the owner answered. A failure changes nothing. A success ends in `Rewritten` and returns the stored dto. |
| CatSecurity.IsCatOwner | gateway-service/src/main/java/ru/annapvasileva/services/cats/CatSecurityService.java:31-50 | False without a cat reply. False for an unknown username. Otherwise true exactly when a user of that name belongs to the cat's owner. |
| CatSecurity.OwnerOfStoredCat | gateway-service/src/main/java/ru/annapvasileva/services/cats/CatSecurityService.java:37-49 | Given the pet service's dto for a stored cat, the check holds exactly when the named user's owner is the cat's owner. |
| CatSecurity.SameOwnerSameAnswer | gateway-service/src/main/java/ru/annapvasileva/services/cats/CatSecurityService.java:43-49 | Two users of the same owner get the same answer for any cat. |
| CatListener.CatMessageListener.constructor | pet-service/src/main/java/ru/annapvasileva/services/CatMessageListener.java:26-30 | The listener wraps the given service and has published nothing. |
| CatListener.CatMessageListener.HandleCreateCat | pet-service/src/main/java/ru/annapvasileva/services/CatMessageListener.java:32-45 | A malformed body does nothing. Otherwise the owner lookup is sent. A reply carrying the new cat is published exactly when the cat was created. Consistency is kept. |
| CatListener.CatMessageListener.HandleGetCat | pet-service/src/main/java/ru/annapvasileva/services/CatMessageListener.java:47-55 | Replies with the stored cat, and stays silent for an unknown id or malformed body. |
| CatListener.CatMessageListener.HandleMakeFriends | pet-service/src/main/java/ru/annapvasileva/services/CatMessageListener.java:71-77 | With both ids present, the store becomes that of `Link` and the result is always answered. Otherwise nothing happens. |
| CatListener.CatMessageListener.HandleDeleteFriendship | pet-service/src/main/java/ru/annapvasileva/services/CatMessageListener.java:79-85 | With both ids present, the store becomes that of `Unlink` and the result is always answered. Otherwise nothing happens. |
| CatListener.CatMessageListener.HandleDeleteCat | pet-service/src/main/java/ru/annapvasileva/services/CatMessageListener.java:87-93 | The store becomes `Deleted`, and an empty reply follows whether or not the cat existed. |
| CatListener.CatMessageListener.HandleDeleteByOwner | pet-service/src/main/java/ru/annapvasileva/services/CatMessageListener.java:95-101 | The store becomes `WithoutOwner`, then an empty reply follows. |
| CatListener.CatMessageListener.HandleUpdateCat | pet-service/src/main/java/ru/annapvasileva/services/CatMessageListener.java:103-111 | A body that is not a cat dto does nothing. Otherwise the update runs, and a reply carrying the dto is published exactly when it succeeded. |
| OwnerListener.CatUpdate | owner-service/src/main/java/ru/annapvasileva/services/OwnerMessageListener.java:88-93 | The `cat.update` request of `changeForPet`. It goes to `cat.exchange` with key `cat.update` and reply queue `cat.update.reply.queue`, the given correlation id and the pet id as body, as `ids.get("petId").toString()` gives it. So its body is not a cat dto. |
| OwnerListener.CatDelete | owner-service/src/main/java/ru/annapvasileva/services/OwnerMessageListener.java:101-106 | The `cat.delete` request of `deletePet`. It goes to `cat.exchange` with key `cat.delete`, reply queue `cat.delete.reply.queue` and the pet id as body. |
| OwnerListener.OwnerMessageListener.constructor | owner-service/src/main/java/ru/annapvasileva/services/OwnerMessageListener.java:27-31 | The listener wraps the given service and has published nothing. |
| OwnerListener.OwnerMessageListener.HandleCreateOwner | owner-service/src/main/java/ru/annapvasileva/services/OwnerMessageListener.java:33-44 | A well-formed request always stores a new owner under a fresh id and replies with it. |
| OwnerListener.OwnerMessageListener.HandleGetOwner | owner-service/src/main/java/ru/annapvasileva/services/OwnerMessageListener.java:46-54 | Replies with the stored owner, and stays silent for an unknown id or malformed body. |
| OwnerListener.OwnerMessageListener.HandleChangeForPet | owner-service/src/main/java/ru/annapvasileva/services/OwnerMessageListener.java:70-95 | Sends `cat.get`. Without a reply it answers false. With a cat reply it sends `cat.update` with the pet id as body and answers whether that got a reply. A non-cat reply throws. |
| OwnerListener.OwnerMessageListener.HandleDeletePet | owner-service/src/main/java/ru/annapvasileva/services/OwnerMessageListener.java:97-108 | Sends `cat.delete` for the pet and answers whether it got a reply. |
| OwnerListener.OwnerMessageListener.HandleDeleteOwner | owner-service/src/main/java/ru/annapvasileva/services/OwnerMessageListener.java:110-116 | Runs `deleteOwner`, with its send and removal rules, then always answers with an empty body. |
| OwnerListener.OwnerMessageListener.HandleUpdateOwner | owner-service/src/main/java/ru/annapvasileva/services/OwnerMessageListener.java:118-126 | Updates an existing owner and replies with it. An unknown owner gets silence and no change. |

## Left out

- Paging and sorting (`getAllCats`, `getAllOwners`, `getAllUsers` and the `getAll` listener handlers) are not modelled, because they are Spring Data `Page` plumbing with no logic of their own.
- JSON and UUID text encoding is not modelled. A message body is the already-decoded `Body`, and an undecodable body is one of the wrong constructor.
- Generated ids are not modelled. Correlation ids are parameters, and a new record's id is any id not yet stored.
- Password encoding is a parameter: the `encode` function of `UserService`.
- Broker delivery, timeouts, concurrency and transactions are not modelled. A round-trip's answer is a parameter, and each call runs alone to completion with no rollback.
- Database constraints on the `cat_friends` join table are not modelled, because its schema is not part of this model. A foreign key there could make `deleteByOwnerId` fail at flush rather than leave a dangling friend id.
- The `cat.get` request that `isCatOwner` publishes is given by `Messaging.CatGet` but not logged, because the check is modelled as a pure decision over the reply.
- Every logged request and reply is recorded as the code builds it, with the reply queue and correlation id the code sets. The reply-address and correlation handling that `RabbitTemplate.sendAndReceive` applies on top of these is library behaviour and is not modelled; `Messaging.Answers` matches a reply to its request by those recorded values.
- Each service's own requests and its listener's replies are kept in two separate logs, although the same `RabbitTemplate` publishes both.
- HTTP controllers, security configuration and startup data are not modelled, because they only route requests and map results to status codes.
- Cats.CatService.UpdateCat: assumes `findAllById` returns the found cats in request order, which is the order the new friend list is stored in. The repository does not promise an order.
- Cats.CatService.DeleteCat: on a store where a cat lists itself, the Java loop removes from the list it iterates and can throw `ConcurrentModificationException`. The model completes the deletion instead. Consistent stores never have such a cat.
- Cats.CatService.DeleteCat: a friend id that names no stored cat is skipped. In the Java code such a join row would fail to load.
- Users.UserService.UpdateUser: does not model the unique constraint on the username column, which would reject a duplicate name when the transaction commits. The model stores it, as the service code does.
- CatSecurity.IsCatOwner: takes the cat reply already decoded as a cat dto. A reply that does not decode makes `readValue` throw `IOException`, which is not modelled. The pet service only ever replies to `cat.get` with a cat dto.
- CatSecurity.IsCatOwner: requires unique usernames, which the username column's unique constraint guarantees. Without them `findByUsername` throws.
