/** The gateway's ownership check (gateway-service `CatSecurityService`):
    may the logged-in user act on a cat? It asks the cat service for the cat,
    looks the user up by name and compares owner ids. The answer of the cat
    service is a parameter, already decoded as a `CatDto`; `None` is a
    round-trip that timed out. */
module CatSecurity {
  import opened Common
  import opened Dtos
  import opened Messaging
  import Users
  import Cats

  /** `isCatOwner`: `catReply` is the decoded answer to the `cat.get`
      request `Messaging.CatGet` builds. False without a reply, false for an
      unknown username, otherwise whether the cat's owner is the user's
      owner. The user table keeps usernames unique, as `findByUsername`
      needs. */
  function IsCatOwner(catReply: Option<CatDto>, users: Users.Store, username: string): (b: bool)
    requires Users.UniqueUsernames(users)
    ensures catReply.None? ==> !b
    ensures !Users.UsernameTaken(users, username) ==> !b
    ensures b <==> (catReply.Some? &&
      exists k | k in users :: users[k].username == username && users[k].ownerId == catReply.value.ownerId)
  {
    if catReply.None? then false
    else
      match Users.FindByUsername(users, username)
      case None => false
      case Some(userId) => catReply.value.ownerId == users[userId].ownerId
  }

  /** Against the cat service's answer for a stored cat (its `getCat` dto),
      the check holds exactly when the user named `username` belongs to the
      cat's owner. */
  lemma OwnerOfStoredCat(cats: Cats.Store, catId: Uuid, users: Users.Store, username: string)
    requires catId in cats && Users.UniqueUsernames(users)
    ensures IsCatOwner(Some(Cats.ToDto(catId, cats[catId])), users, username) <==> (
      Users.FindByUsername(users, username).Some? &&
      users[Users.FindByUsername(users, username).value].ownerId == cats[catId].ownerId)
  {
  }

  /** Two users of the same owner get the same answer for every cat. */
  lemma SameOwnerSameAnswer(catReply: Option<CatDto>, users: Users.Store, name1: string, name2: string)
    requires Users.UniqueUsernames(users)
    requires Users.FindByUsername(users, name1).Some? && Users.FindByUsername(users, name2).Some?
    requires users[Users.FindByUsername(users, name1).value].ownerId == users[Users.FindByUsername(users, name2).value].ownerId
    ensures IsCatOwner(catReply, users, name1) == IsCatOwner(catReply, users, name2)
  {
  }
}
