/** The cat store and its friendship graph (pet-service `CatService`).

    The repository is a map from cat id to record; each record keeps its own
    list of friend ids (the `cat_friends` join rows it owns). The store
    operations are first given as functions on the map, then as the methods
    of `CatService`, which perform the same steps in place and are proved to
    end in exactly the map the functions describe. */
module Cats {
  import opened Common
  import opened Dtos
  import opened Messaging

  /** A stored cat. `friends` is the entity's friend list, as ids. */
  datatype Cat = Cat(
    name: string,
    birthDate: Date,
    breed: string,
    color: Color,
    ownerId: Uuid,
    friends: seq<Uuid>)

  type Store = map<Uuid, Cat>

  /** `convertToDto`: the dto carries the record under its id, and reading
      it back gives the record. */
  function ToDto(id: Uuid, c: Cat): (r: CatDto)
    ensures r.id == id && FromDto(r) == c
  {
    CatDto(id, c.name, c.birthDate, c.breed, c.color, c.ownerId, c.friends)
  }

  /** The record `updateCat` writes from a dto (its setters and `setFriends`). */
  function FromDto(dto: CatDto): Cat {
    Cat(dto.name, dto.dateOfBirth, dto.breed, dto.color, dto.ownerId, dto.friends)
  }

  /** The record written from a dto keeps everything but the id, which stays
      the key: the dto of the written record is the dto itself. */
  lemma FromDtoKeepsAllButTheId(dto: CatDto)
    ensures ToDto(dto.id, FromDto(dto)) == dto
  {
  }

  // ---------------------------------------------------------------------------
  // The friendship invariant

  /** Friend ids name stored cats. */
  ghost predicate Closed(s: Store) {
    forall a, b | a in s && b in s[a].friends :: b in s
  }

  /** Friendship is mirrored: if a lists b, b lists a. */
  ghost predicate Mirrored(s: Store) {
    forall a, b | a in s && b in s[a].friends && b in s :: a in s[b].friends
  }

  /** No cat is its own friend. */
  ghost predicate Irreflexive(s: Store) {
    forall a | a in s :: a !in s[a].friends
  }

  /** No friend list holds an id twice. */
  ghost predicate DuplicateFree(s: Store) {
    forall a | a in s :: NoDup(s[a].friends)
  }

  ghost predicate Valid(s: Store) {
    Closed(s) && Mirrored(s) && Irreflexive(s) && DuplicateFree(s)
  }

  // ---------------------------------------------------------------------------
  // makeFriendsWith and deleteFriendshipWith

  /** The store after a call, and the boolean the call returned. */
  datatype Outcome = Outcome(store: Store, result: bool)

  /** `makeFriendsWith(a, b)`: only `a`'s list is consulted before both lists
      are extended. */
  function Link(s: Store, a: Uuid, b: Uuid): (r: Outcome)
    ensures r.result <==> a != b && a in s && b in s
    ensures !r.result ==> r.store == s
    ensures r.store.Keys == s.Keys
    ensures forall k | k in s :: r.store[k] == s[k].(friends := r.store[k].friends)
    ensures forall k | k in s && k != a && k != b :: r.store[k] == s[k]
  {
    if a == b || a !in s || b !in s then Outcome(s, false)
    else if b in s[a].friends then Outcome(s, true)
    else
      var s1 := s[a := s[a].(friends := s[a].friends + [b])];
      Outcome(s1[b := s[b].(friends := s[b].friends + [a])], true)
  }

  /** `deleteFriendshipWith(a, b)`: reports whether `a` listed `b`, and if so
      drops the edge from both lists. */
  function Unlink(s: Store, a: Uuid, b: Uuid): (r: Outcome)
    ensures r.result <==> a != b && a in s && b in s && b in s[a].friends
    ensures !r.result ==> r.store == s
    ensures r.store.Keys == s.Keys
    ensures forall k | k in s :: r.store[k] == s[k].(friends := r.store[k].friends)
    ensures forall k | k in s && k != a && k != b :: r.store[k] == s[k]
  {
    if a == b || a !in s || b !in s then Outcome(s, false)
    else if b in s[a].friends then
      var s1 := s[a := s[a].(friends := RemoveFirst(s[a].friends, b))];
      Outcome(s1[b := s[b].(friends := RemoveFirst(s[b].friends, a))], true)
    else Outcome(s, false)
  }

  /** On a consistent store a successful call leaves the two cats listing
      each other, and keeps the store consistent. */
  lemma LinkMakesMutualFriends(s: Store, a: Uuid, b: Uuid)
    requires Valid(s)
    ensures var r := Link(s, a, b);
      && (r.result ==> b in r.store[a].friends && a in r.store[b].friends)
      && Valid(r.store)
  {
    var r := Link(s, a, b);
    if r.result && b !in s[a].friends {
      assert a !in s[b].friends;
      var t := r.store;
      assert t[a].friends == s[a].friends + [b] && t[b].friends == s[b].friends + [a];
      forall k | k in t ensures NoDup(t[k].friends) {
        if k == a || k == b {
          var xs, y := s[k].friends, if k == a then b else a;
          assert y !in xs;
          assert forall i | 0 <= i < |xs| :: (xs + [y])[i] == xs[i];
        }
      }
      forall x, y | x in t && y in t[x].friends ensures y in t && x in t[y].friends {
        if x == a || x == b || y == a || y == b {
          assert y in s[x].friends || y == (if x == a then b else a);
        }
      }
    }
  }

  /** Asking again once the cats are friends changes nothing. */
  lemma LinkIsIdempotent(s: Store, a: Uuid, b: Uuid)
    ensures Link(Link(s, a, b).store, a, b) == Link(s, a, b)
  {
  }

  /** When either side already lists the other, a consistent store is left as
      it is (only `a`'s list is checked, mirroring covers `b`'s). */
  lemma LinkOfFriendsChangesNothing(s: Store, a: Uuid, b: Uuid)
    requires Valid(s) && a in s && b in s
    requires b in s[a].friends || a in s[b].friends
    ensures Link(s, a, b) == Outcome(s, true)
  {
  }

  /** On a consistent store an unfriending call returns whether the edge was
      there, leaves neither cat listing the other, and keeps the store
      consistent. */
  lemma UnlinkSeparates(s: Store, a: Uuid, b: Uuid)
    requires Valid(s) && a in s && b in s && a != b
    ensures var r := Unlink(s, a, b);
      && r.result == (b in s[a].friends)
      && b !in r.store[a].friends && a !in r.store[b].friends
      && Valid(r.store)
  {
    var r := Unlink(s, a, b);
    if r.result {
      assert a in s[b].friends;
      var t := r.store;
      assert t[a].friends == RemoveFirst(s[a].friends, b);
      assert t[b].friends == RemoveFirst(s[b].friends, a);
      forall x, y | x in t && y in t[x].friends ensures y in t && x in t[y].friends {
        assert y in s[x].friends;
      }
    } else {
      assert a !in s[b].friends;
    }
  }

  // ---------------------------------------------------------------------------
  // deleteCat and deleteCatsByOwner

  /** The scrubbing loop of `deleteCat`: `id` is removed from the list of each
      cat named in `fs` that is stored, in order. */
  function Scrubbed(s: Store, id: Uuid, fs: seq<Uuid>): (r: Store)
    ensures r.Keys == s.Keys
    decreases |fs|
  {
    if fs == [] then s
    else
      var t := Scrubbed(s, id, fs[..|fs| - 1]);
      var f := fs[|fs| - 1];
      if f in t then t[f := t[f].(friends := RemoveFirst(t[f].friends, id))] else t
  }

  /** `deleteCat(id)`: a no-op for an unknown id; otherwise each friend's list
      loses `id`, then the record goes. */
  function Deleted(s: Store, id: Uuid): (r: Store)
    ensures id !in s ==> r == s
    ensures r.Keys == s.Keys - {id}
  {
    if id !in s then s else Scrubbed(s, id, s[id].friends) - {id}
  }

  /** With a duplicate-free list, the scrub touches each listed cat once. */
  lemma {:induction false} ScrubbedEffect(s: Store, id: Uuid, fs: seq<Uuid>)
    requires NoDup(fs)
    ensures forall k | k in s ::
      Scrubbed(s, id, fs)[k] == (if k in fs then s[k].(friends := RemoveFirst(s[k].friends, id)) else s[k])
    decreases |fs|
  {
    if fs != [] {
      var p, f := fs[..|fs| - 1], fs[|fs| - 1];
      assert fs == p + [f];
      assert NoDup(p) && f !in p;
      ScrubbedEffect(s, id, p);
    }
  }

  /** After deleting a cat of a consistent store no remaining cat lists it,
      only the friend lists of its former friends changed, and the store is
      consistent. */
  lemma DeleteCatLeavesNoDanglingFriend(s: Store, id: Uuid)
    requires Valid(s) && id in s
    ensures var r := Deleted(s, id);
      && (forall k | k in r :: id !in r[k].friends)
      && (forall k | k in r :: r[k] == if k in s[id].friends then s[k].(friends := RemoveFirst(s[k].friends, id)) else s[k])
      && Valid(r)
  {
    var r := Deleted(s, id);
    ScrubbedEffect(s, id, s[id].friends);
    forall k | k in r ensures id !in r[k].friends {
      if k !in s[id].friends {
        assert id !in s[k].friends;
      }
    }
    forall x, y | x in r && y in r[x].friends ensures y in r && x in r[y].friends {
      assert y in s[x].friends;
    }
  }

  /** `deleteCatsByOwner(o)`: the repository drops every cat of `o`; nothing
      scrubs the friend lists of the cats that stay. */
  function WithoutOwner(s: Store, ownerId: Uuid): (r: Store)
    ensures forall k :: k in r <==> k in s && s[k].ownerId != ownerId
    ensures forall k | k in r :: r[k] == s[k]
  {
    map k | k in s && s[k].ownerId != ownerId :: s[k]
  }

  /** On a consistent store, deleting by owner keeps it consistent exactly when
      no cat of another owner is a friend of a deleted cat. */
  lemma DeleteByOwnerKeepsValidIff(s: Store, ownerId: Uuid)
    requires Valid(s)
    ensures Valid(WithoutOwner(s, ownerId)) <==>
      forall a, b | a in s && b in s[a].friends && s[a].ownerId != ownerId :: s[b].ownerId != ownerId
  {
    var r := WithoutOwner(s, ownerId);
    if forall a, b | a in s && b in s[a].friends && s[a].ownerId != ownerId :: s[b].ownerId != ownerId {
      forall x, y | x in r && y in r[x].friends ensures y in r {
        assert y in s;
      }
    } else {
      var a, b :| a in s && b in s[a].friends && s[a].ownerId != ownerId && s[b].ownerId == ownerId;
      assert a in r && b in r[a].friends && b !in r;
    }
  }

  /** Two friends with different owners: deleting one owner's cats leaves
      the other cat listing an id that no longer resolves. */
  lemma DeleteByOwnerCanLeaveDanglingFriend(s: Store)
    requires s == map[1 := Cat("Tom", 0, "tabby", "BLACK", 10, [2]),
                      2 := Cat("Kit", 0, "siamese", "WHITE", 20, [1])]
    ensures Valid(s) && !Closed(WithoutOwner(s, 20))
  {
    var r := WithoutOwner(s, 20);
    assert 1 in r && 2 in r[1].friends && 2 !in r;
    assert NoDup(s[1].friends) && NoDup(s[2].friends);
  }

  // ---------------------------------------------------------------------------
  // createCat

  /** A new cat has no friends, so adding it under a fresh id keeps a
      consistent store consistent. */
  lemma CreatedCatKeepsValid(s: Store, id: Uuid, c: Cat)
    requires Valid(s) && id !in s && c.friends == []
    ensures Valid(s[id := c])
  {
    assert forall a, b | a in s && b in s[a].friends :: b != id;
  }

  // ---------------------------------------------------------------------------
  // updateCat

  /** `findAllById(ids)` returns one entity per distinct stored id. */
  function FoundIds(s: Store, ids: seq<Uuid>): set<Uuid> {
    set f | f in ids && f in s
  }

  /** The checks `updateCat` makes after the owner lookup: as many cats were
      found as ids were requested, and the cat is not in its own list. */
  predicate Acceptable(s: Store, dto: CatDto): (ok: bool)
    ensures ok <==> NoDup(dto.friends) && (forall f | f in dto.friends :: f in s) && dto.id !in dto.friends
  {
    FoundCountExact(s, dto.friends);
    |FoundIds(s, dto.friends)| == |dto.friends| && dto.id !in dto.friends
  }

  /** The found-count check passes exactly when every requested id resolves
      and none is requested twice. */
  lemma {:induction false} FoundCountExact(s: Store, ids: seq<Uuid>)
    ensures |FoundIds(s, ids)| <= |ids|
    ensures |FoundIds(s, ids)| == |ids| <==> NoDup(ids) && forall f | f in ids :: f in s
  {
    if ids != [] {
      var x, rest := ids[0], ids[1..];
      assert ids == [x] + rest;
      FoundCountExact(s, rest);
      var found, found' := FoundIds(s, ids), FoundIds(s, rest);
      assert NoDup(ids) <==> x !in rest && NoDup(rest) by {
        if x !in rest && NoDup(rest) {
          forall i, j | 0 <= i < j < |ids| ensures ids[i] != ids[j] {
            if i > 0 { assert ids[i] == rest[i - 1] && ids[j] == rest[j - 1]; }
            else { assert ids[j] == rest[j - 1]; }
          }
        }
        if NoDup(ids) {
          forall i, j | 0 <= i < j < |rest| ensures rest[i] != rest[j] {
            assert rest[i] == ids[i + 1] && rest[j] == ids[j + 1];
          }
          forall j | 0 <= j < |rest| ensures rest[j] != x {
            assert rest[j] == ids[j + 1];
          }
        }
      }
      if x in s && x !in rest {
        assert found == found' + {x};
        assert x !in found';
      } else {
        assert found == found';
      }
    }
  }

  /** The removal loop of `updateCat`: `deleteFriendshipWith(id, f)` for each
      `f` in `fs`, in order. */
  function Unlinked(s: Store, id: Uuid, fs: seq<Uuid>): (r: Store)
    ensures r.Keys == s.Keys
    decreases |fs|
  {
    if fs == [] then s else Unlink(Unlinked(s, id, fs[..|fs| - 1]), id, fs[|fs| - 1]).store
  }

  /** The addition loop of `updateCat`: `makeFriendsWith(id, f)` for each `f`
      in `fs`, in order. */
  function Linked(s: Store, id: Uuid, fs: seq<Uuid>): (r: Store)
    ensures r.Keys == s.Keys
    decreases |fs|
  {
    if fs == [] then s else Link(Linked(s, id, fs[..|fs| - 1]), id, fs[|fs| - 1]).store
  }

  /** `updateCat` once its checks passed: unfriend the dropped friends, befriend
      the new ones, then overwrite the record. The entity list `findAllById`
      returns is taken in request order. */
  function Reconciled(s: Store, dto: CatDto): (r: Store)
    requires dto.id in s
    ensures r.Keys == s.Keys
  {
    var s1 := Unlinked(s, dto.id, Minus(s[dto.id].friends, dto.friends));
    var s2 := Linked(s1, dto.id, Minus(dto.friends, s1[dto.id].friends));
    s2[dto.id := FromDto(dto)]
  }

  /** Unfriending distinct current friends of `id` one after the other. */
  lemma {:induction false} UnlinkedEffect(s: Store, id: Uuid, fs: seq<Uuid>)
    requires Valid(s) && id in s && NoDup(fs)
    requires forall f | f in fs :: f in s[id].friends
    ensures var r := Unlinked(s, id, fs);
      && Valid(r)
      && r[id] == s[id].(friends := r[id].friends)
      && (forall x :: x in r[id].friends <==> x in s[id].friends && x !in fs)
      && (forall k | k in s && k != id ::
            r[k] == if k in fs then s[k].(friends := RemoveFirst(s[k].friends, id)) else s[k])
    decreases |fs|
  {
    if fs != [] {
      var p, f := fs[..|fs| - 1], fs[|fs| - 1];
      assert fs == p + [f];
      assert NoDup(p) && f !in p;
      UnlinkedEffect(s, id, p);
      var t := Unlinked(s, id, p);
      assert f in s && f != id;
      assert f in t[id].friends && t[f] == s[f];
      UnlinkSeparates(t, id, f);
    }
  }

  /** Befriending distinct non-friends of `id` one after the other appends
      them to `id`'s list and `id` to each of theirs. */
  lemma {:induction false} LinkedEffect(s: Store, id: Uuid, fs: seq<Uuid>)
    requires id in s && NoDup(fs)
    requires forall f | f in fs :: f in s && f != id && f !in s[id].friends
    ensures var r := Linked(s, id, fs);
      && r[id] == s[id].(friends := s[id].friends + fs)
      && (forall k | k in s && k != id ::
            r[k] == if k in fs then s[k].(friends := s[k].friends + [id]) else s[k])
    decreases |fs|
  {
    if fs != [] {
      var p, f := fs[..|fs| - 1], fs[|fs| - 1];
      assert fs == p + [f];
      assert NoDup(p) && f !in p;
      LinkedEffect(s, id, p);
      var t := Linked(s, id, p);
      assert f !in t[id].friends && t[f] == s[f];
      assert t[id].friends + [f] == s[id].friends + fs;
    }
  }

  /** Any sequence of `makeFriendsWith` calls keeps a consistent store consistent. */
  lemma {:induction false} LinkedKeepsValid(s: Store, id: Uuid, fs: seq<Uuid>)
    requires Valid(s)
    ensures Valid(Linked(s, id, fs))
    decreases |fs|
  {
    if fs != [] {
      LinkedKeepsValid(s, id, fs[..|fs| - 1]);
      LinkMakesMutualFriends(Linked(s, id, fs[..|fs| - 1]), id, fs[|fs| - 1]);
    }
  }

  /** Any sequence of `deleteFriendshipWith` calls keeps a consistent store
      consistent. */
  lemma {:induction false} UnlinkedKeepsValid(s: Store, id: Uuid, fs: seq<Uuid>)
    requires Valid(s)
    ensures Valid(Unlinked(s, id, fs))
    decreases |fs|
  {
    if fs != [] {
      UnlinkedKeepsValid(s, id, fs[..|fs| - 1]);
      var t, f := Unlinked(s, id, fs[..|fs| - 1]), fs[|fs| - 1];
      if id in t && f in t && id != f {
        UnlinkSeparates(t, id, f);
      }
    }
  }

  /** Replacing a record by one whose friend list has the same members, without
      duplicates, keeps a consistent store consistent. */
  lemma SameFriendsKeepsValid(s: Store, id: Uuid, c: Cat)
    requires Valid(s) && id in s && NoDup(c.friends)
    requires forall x :: x in c.friends <==> x in s[id].friends
    ensures Valid(s[id := c])
  {
  }

  /** The declarative reading of `updateCat`: the record becomes the requested
      one; a cat that is in the requested list but was not a friend lists `id`
      in addition, a former friend that is no longer requested drops `id`, and
      every other cat is left as it was. */
  function Intended(s: Store, dto: CatDto): (r: Store)
    requires dto.id in s
  {
    var id, was, wanted := dto.id, s[dto.id].friends, dto.friends;
    map k | k in s ::
      if k == id then FromDto(dto)
      else if k in wanted && k !in was then s[k].(friends := s[k].friends + [id])
      else if k in was && k !in wanted then s[k].(friends := RemoveFirst(s[k].friends, id))
      else s[k]
  }

  /** On a consistent store, the remove-then-add reconciliation of `updateCat`
      computes exactly the intended diff. */
  lemma ReconciledIsIntended(s: Store, dto: CatDto)
    requires Valid(s) && dto.id in s && Acceptable(s, dto)
    ensures Reconciled(s, dto) == Intended(s, dto)
  {
    var id, wanted := dto.id, dto.friends;
    FoundCountExact(s, wanted);
    var fs1 := Minus(s[id].friends, wanted);
    UnlinkedEffect(s, id, fs1);
    var s1 := Unlinked(s, id, fs1);
    var fs2 := Minus(wanted, s1[id].friends);
    LinkedEffect(s1, id, fs2);
    var r, want := Reconciled(s, dto), Intended(s, dto);
    forall k | k in s ensures r[k] == want[k] {
      if k != id {
        assert k in fs2 <==> k in wanted && k !in s[id].friends;
        assert k in fs1 <==> k in s[id].friends && k !in wanted;
      }
    }
  }

  /** On a consistent store, a successful `updateCat` keeps it consistent. */
  lemma ReconciledKeepsValid(s: Store, dto: CatDto)
    requires Valid(s) && dto.id in s && Acceptable(s, dto)
    ensures Valid(Reconciled(s, dto))
  {
    var id, wanted := dto.id, dto.friends;
    FoundCountExact(s, wanted);
    var fs1 := Minus(s[id].friends, wanted);
    UnlinkedEffect(s, id, fs1);
    var s1 := Unlinked(s, id, fs1);
    var fs2 := Minus(wanted, s1[id].friends);
    LinkedEffect(s1, id, fs2);
    LinkedKeepsValid(s1, id, fs2);
    var s2 := Linked(s1, id, fs2);
    assert forall x :: x in s2[id].friends <==> x in wanted;
    SameFriendsKeepsValid(s2, id, FromDto(dto));
  }

  /** What a successful `updateCat` does to a consistent store: the record is
      the requested one, friend list included; exactly the requested friends
      list the cat back; no other list gains or loses any other id; cats whose
      friendship with it did not change are untouched; the store stays
      consistent. */
  lemma ReconciledEffect(s: Store, dto: CatDto)
    requires Valid(s) && dto.id in s && Acceptable(s, dto)
    ensures var r := Reconciled(s, dto);
      && r[dto.id] == FromDto(dto)
      && (forall k | k in s && k != dto.id :: dto.id in r[k].friends <==> k in dto.friends)
      && (forall k | k in s && k != dto.id :: r[k] == s[k].(friends := r[k].friends))
      && (forall k, x | k in s && k != dto.id && x != dto.id :: x in r[k].friends <==> x in s[k].friends)
      && (forall k | k in s && k != dto.id && (k in dto.friends <==> k in s[dto.id].friends) :: r[k] == s[k])
      && Valid(r)
  {
    ReconciledIsIntended(s, dto);
    ReconciledKeepsValid(s, dto);
    var id, r := dto.id, Intended(s, dto);
    forall k | k in s && k != id ensures id in r[k].friends <==> k in dto.friends {
      if k in s[id].friends {
        assert id in s[k].friends;
      } else {
        assert id !in s[k].friends;
      }
    }
  }

  // ---------------------------------------------------------------------------
  // The service

  class CatService {
    /** The cat repository. */
    var cats: Store
    /** Requests this service published, in order. */
    var sent: seq<Published>

    constructor ()
      ensures cats == map[] && sent == []
    {
      cats := map[];
      sent := [];
    }

    /** `getCat`. */
    function GetCat(id: Uuid): (r: Option<CatDto>)
      reads this
      ensures r.Some? <==> id in cats
      ensures r.Some? ==> r.value == ToDto(id, cats[id]) && r.value.id == id
    {
      if id in cats then Some(ToDto(id, cats[id])) else None
    }

    /** `createCat`: asks the owner service whether `ownerId` exists; without
        a reply nothing is stored, otherwise a friendless cat is stored under
        a fresh id and returned. */
    method CreateCat(name: string, dateOfBirth: Date, breed: string, color: Color, ownerId: Uuid,
                     correlationId: string, ownerReply: Option<Body>) returns (r: Option<CatDto>)
      modifies this
      ensures sent == old(sent) + [OwnerLookup(correlationId, ownerId)]
      ensures ownerReply.None? ==> r.None? && cats == old(cats)
      ensures ownerReply.Some? ==>
        && r.Some? && r.value.id !in old(cats)
        && cats == old(cats)[r.value.id := Cat(name, dateOfBirth, breed, color, ownerId, [])]
        && r == GetCat(r.value.id)
      ensures Valid(old(cats)) ==> Valid(cats)
    {
      sent := sent + [OwnerLookup(correlationId, ownerId)];
      if ownerReply.None? {
        return None;
      }
      ghost var unused := Bound(cats.Keys);
      assert unused !in cats;
      var id :| id !in cats;
      var cat := Cat(name, dateOfBirth, breed, color, ownerId, []);
      cats := cats[id := cat];
      r := Some(ToDto(id, cat));
      if Valid(old(cats)) {
        CreatedCatKeepsValid(old(cats), id, cat);
      }
    }

    /** `makeFriendsWith`. */
    method MakeFriendsWith(id1: Uuid, id2: Uuid) returns (ok: bool)
      modifies this`cats
      ensures cats == Link(old(cats), id1, id2).store && ok == Link(old(cats), id1, id2).result
      ensures Valid(old(cats)) ==> Valid(cats)
    {
      if id1 == id2 {
        return false;
      }
      if id1 !in cats || id2 !in cats {
        return false;
      }
      var cat1, cat2 := cats[id1], cats[id2];
      if id2 !in cat1.friends {
        cats := cats[id1 := cat1.(friends := cat1.friends + [id2])];
        cats := cats[id2 := cat2.(friends := cat2.friends + [id1])];
      }
      ok := true;
      if Valid(old(cats)) {
        LinkMakesMutualFriends(old(cats), id1, id2);
      }
    }

    /** `deleteFriendshipWith`. */
    method DeleteFriendshipWith(id1: Uuid, id2: Uuid) returns (hadFriendship: bool)
      modifies this`cats
      ensures cats == Unlink(old(cats), id1, id2).store && hadFriendship == Unlink(old(cats), id1, id2).result
      ensures Valid(old(cats)) ==> Valid(cats)
    {
      if id1 == id2 {
        return false;
      }
      if id1 !in cats || id2 !in cats {
        return false;
      }
      var cat1, cat2 := cats[id1], cats[id2];
      hadFriendship := id2 in cat1.friends;
      if hadFriendship {
        cats := cats[id1 := cat1.(friends := RemoveFirst(cat1.friends, id2))];
        cats := cats[id2 := cat2.(friends := RemoveFirst(cat2.friends, id1))];
      }
      if Valid(old(cats)) {
        UnlinkSeparates(old(cats), id1, id2);
      }
    }

    /** `deleteCat`: scrubs the cat from each friend's list, then deletes it. */
    method DeleteCat(id: Uuid)
      modifies this`cats
      ensures cats == Deleted(old(cats), id)
      ensures Valid(old(cats)) && id in old(cats) ==>
        Valid(cats) && forall k | k in cats :: id !in cats[k].friends
    {
      if id !in cats {
        return;
      }
      var friends := cats[id].friends;
      var i := 0;
      while i < |friends|
        invariant 0 <= i <= |friends|
        invariant cats == Scrubbed(old(cats), id, friends[..i])
      {
        var friend := friends[i];
        // An id left behind by deleteCatsByOwner names no stored cat.
        if friend in cats {
          cats := cats[friend := cats[friend].(friends := RemoveFirst(cats[friend].friends, id))];
        }
        assert friends[..i + 1][..i] == friends[..i];
        i := i + 1;
      }
      assert friends[..i] == friends;
      cats := cats[id := cats[id].(friends := [])];
      cats := cats - {id};
      assert cats == Scrubbed(old(cats), id, friends) - {id};
      if Valid(old(cats)) {
        DeleteCatLeavesNoDanglingFriend(old(cats), id);
      }
    }

    /** `deleteCatsByOwner`: the repository's `deleteByOwnerId`. */
    method DeleteCatsByOwner(ownerId: Uuid)
      modifies this`cats
      ensures cats == WithoutOwner(old(cats), ownerId)
    {
      cats := map k | k in cats && cats[k].ownerId != ownerId :: cats[k];
    }

    /** The removal loop of `updateCat`: `deleteFriendshipWith(id, f)` for
        each `f` of `fs`, in order. */
    method UnlinkAll(id: Uuid, fs: seq<Uuid>)
      modifies this`cats
      ensures cats == Unlinked(old(cats), id, fs)
      ensures Valid(old(cats)) ==> Valid(cats)
    {
      var i := 0;
      while i < |fs|
        invariant 0 <= i <= |fs|
        invariant cats == Unlinked(old(cats), id, fs[..i])
        invariant Valid(old(cats)) ==> Valid(cats)
      {
        var removed := DeleteFriendshipWith(id, fs[i]);
        assert fs[..i + 1][..i] == fs[..i];
        i := i + 1;
      }
      assert fs[..i] == fs;
    }

    /** The adding loop of `updateCat`: `makeFriendsWith(id, f)` for each `f`
        of `fs`, in order. */
    method LinkAll(id: Uuid, fs: seq<Uuid>)
      modifies this`cats
      ensures cats == Linked(old(cats), id, fs)
      ensures Valid(old(cats)) ==> Valid(cats)
    {
      var j := 0;
      while j < |fs|
        invariant 0 <= j <= |fs|
        invariant cats == Linked(old(cats), id, fs[..j])
        invariant Valid(old(cats)) ==> Valid(cats)
      {
        var added := MakeFriendsWith(id, fs[j]);
        assert fs[..j + 1][..j] == fs[..j];
        j := j + 1;
      }
      assert fs[..j] == fs;
    }

    /** `updateCat`: looks the cat up, asks the owner service about the new
        owner, validates the requested friend list, then reconciles the
        friendships and overwrites the record. Every check precedes every
        write. */
    method UpdateCat(dto: CatDto, correlationId: string, ownerReply: Option<Body>) returns (r: Option<CatDto>)
      modifies this
      ensures dto.id !in old(cats) ==> sent == old(sent)
      ensures dto.id in old(cats) ==> sent == old(sent) + [OwnerLookup(correlationId, dto.ownerId)]
      ensures r.Some? <==> dto.id in old(cats) && ownerReply.Some? && Acceptable(old(cats), dto)
      ensures r.None? ==> cats == old(cats)
      ensures r.Some? ==> cats == Reconciled(old(cats), dto) && r == Some(dto) && r == GetCat(dto.id)
      ensures Valid(old(cats)) ==> Valid(cats)
    {
      if dto.id !in cats {
        return None;
      }
      sent := sent + [OwnerLookup(correlationId, dto.ownerId)];
      if ownerReply.None? {
        return None;
      }
      var newFriends := set f | f in dto.friends && f in cats;
      assert newFriends == FoundIds(cats, dto.friends);
      if |newFriends| != |dto.friends| {
        return None;
      }
      if dto.id in dto.friends {
        return None;
      }
      var id := dto.id;
      UnlinkAll(id, Minus(cats[id].friends, dto.friends));
      ghost var afterRemoval := cats;
      LinkAll(id, Minus(dto.friends, cats[id].friends));
      assert cats == Linked(afterRemoval, id, Minus(dto.friends, afterRemoval[id].friends));

      cats := cats[id := FromDto(dto)];
      assert cats == Reconciled(old(cats), dto);
      r := Some(ToDto(id, cats[id]));
      assert ToDto(id, FromDto(dto)) == dto;
      if Valid(old(cats)) {
        ReconciledEffect(old(cats), dto);
      }
    }
  }
}
