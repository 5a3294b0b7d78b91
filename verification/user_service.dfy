/**
 * `OpenSearchUsersService` (review-server/server/api/services/opensearchUsers.service.ts): the
 * users collection as a map from document key to user, with the in-memory id counter.
 */
module UserService {
  import opened Options
  import opened DocStore

  datatype User = User(id: int, name: string, email: string)

  datatype CreateUserRequest = CreateUserRequest(name: string, email: string)

  /**
   * The patch `updateUser` passes on: the request body as sent, typed `UpdateUserRequest` but not
   * checked, so it may carry an `id` besides the optional name and email. `None` is a key the
   * object does not carry.
   */
  datatype UserPatch = UserPatch(id: Option<int>, name: Option<string>, email: Option<string>)

  function IdOf(u: User): int { u.id }

  /** The query `match_all`. */
  function AnyUser(u: User): bool { true }

  /** The shallow merge `{ ...existing, ...partial }`. */
  function Merge(existing: User, partial: UserPatch): (r: User)
    ensures r.id == (if partial.id.Some? then partial.id.value else existing.id)
    ensures r.name == (if partial.name.Some? then partial.name.value else existing.name)
    ensures r.email == (if partial.email.Some? then partial.email.value else existing.email)
  {
    User(partial.id.GetOr(existing.id), partial.name.GetOr(existing.name), partial.email.GetOr(existing.email))
  }

  /** An update that leaves the `id` field alone keeps every user's `id` equal to its key. */
  lemma UpdateKeepsIds(store: map<int, User>, id: int, partial: UserPatch)
    requires IdsMatchKeys(store) && id in store && partial.id.None?
    ensures IdsMatchKeys(store[id := Merge(store[id], partial)])
  {
  }

  /** Every stored user's `id` field names the key it is stored under. */
  ghost predicate IdsMatchKeys(store: map<int, User>) {
    forall k :: k in store ==> store[k].id == k
  }

  class OpenSearchUsersService {
    var store: map<int, User>
    var idCounter: int

    /** Every stored key lies below the counter, so `create` never reuses one. */
    ghost predicate Valid()
      reads this
    {
      forall k :: k in store ==> k < idCounter
    }

    /**
     * `new`: the service over the users already in the index. The counter starts at 1; the
     * constructor starts `initializeIndex` without awaiting it, so requests can be served before
     * the counter is seeded.
     */
    constructor (documents: map<int, User>)
      ensures store == documents && idCounter == 1
    {
      store, idCounter := documents, 1;
    }

    /**
     * The end of `initializeIndex`: when the max-aggregation over the `id` field answers, the
     * counter is seeded from the stored `id` fields; when it throws, the error is only logged and
     * the counter keeps its value.
     */
    method InitializeIndex(aggregationAnswers: bool)
      modifies this
      ensures store == old(store)
      ensures aggregationAnswers ==> IsSeededFrom(IdFields(store, IdOf), idCounter)
      ensures !aggregationAnswers ==> idCounter == old(idCounter)
      ensures aggregationAnswers && IdsMatchKeys(store) ==> Valid()
    {
      if aggregationAnswers {
        idCounter := SeedCounter(IdFields(store, IdOf));
        if IdsMatchKeys(store) {
          SeededCounterAboveKeys(store, IdOf, idCounter);
        }
      }
    }

    /** `all()`: a `match_all` search. */
    method All() returns (hits: seq<User>, ghost keys: seq<int>)
      ensures IsSearchResult(store, AnyUser, hits, keys)
      ensures |hits| <= MAX_RETURNED_RESULTS
      ensures forall i :: 0 <= i < |hits| ==> hits[i] in store.Values
    {
      hits, keys := Search(store, AnyUser);
    }

    /**
     * `create`: the user takes the counter's value as id (post-increment) and the request's
     * fields, and is indexed under that id, replacing any document already stored there. The key
     * is fresh only while `Valid()` holds.
     */
    method Create(request: CreateUserRequest) returns (user: User)
      modifies this
      ensures old(Valid()) ==> Valid()
      ensures user == User(old(idCounter), request.name, request.email) && idCounter == old(idCounter) + 1
      ensures old(Valid()) ==> user.id !in old(store)
      ensures store == old(store)[user.id := user]
    {
      user := User(idCounter, request.name, request.email);
      idCounter := idCounter + 1;
      store := store[user.id := user];
    }

    /**
     * `update`: the merge of `partial` over the stored user, written back under the key `id` even
     * when `partial` carries another `id` field.
     */
    method Update(id: int, partial: UserPatch) returns (result: Result<User, ServiceError>)
      modifies this
      ensures (old(Valid()) ==> Valid()) && idCounter == old(idCounter)
      ensures id in old(store) ==>
                result == Success(Merge(old(store)[id], partial)) && store == old(store)[id := result.value]
      ensures id !in old(store) ==> result == Failure(DocumentMissing(id)) && store == old(store)
    {
      if id !in store {
        return Failure(DocumentMissing(id));
      }
      var updated := Merge(store[id], partial);
      store := store[id := updated];
      result := Success(updated);
    }

    /** `delete`: removes the document under `id`; deleting an absent key throws. */
    method Delete(id: int) returns (result: Result<(), ServiceError>)
      modifies this
      ensures (old(Valid()) ==> Valid()) && idCounter == old(idCounter)
      ensures id in old(store) ==> result.Success? && store == old(store) - {id}
      ensures id !in old(store) ==> result == Failure(DocumentMissing(id)) && store == old(store)
    {
      if id !in store {
        return Failure(DocumentMissing(id));
      }
      store := store - {id};
      result := Success(());
    }
  }

  /**
   * `PUT /users/2` with the body `{ id: 1 }` while users 1 and 2 are stored, then a restart: the
   * counter is seeded at 2 from the `id` fields, and the next `create` (a first login) is indexed
   * under key 2 and replaces the updated user, so the number of users does not grow.
   */
  method UpdateIdThenRestartThenCreate(u1: User, u2: User, request: CreateUserRequest)
    returns (beforeCreate: map<int, User>, afterCreate: map<int, User>, created: User)
    requires u1.id == 1 && u2.id == 2
    ensures beforeCreate.Keys == {1, 2} && beforeCreate[2].id == 1
    ensures created.id == 2 && afterCreate == beforeCreate[2 := created]
    ensures |afterCreate| == |beforeCreate|
  {
    var running := new OpenSearchUsersService(map[1 := u1, 2 := u2]);
    running.InitializeIndex(true);
    var patch := UserPatch(Some(1), None, None);
    var updated := running.Update(2, patch);
    assert running.store == map[1 := u1, 2 := Merge(u2, patch)];
    var restarted := new OpenSearchUsersService(running.store);
    restarted.InitializeIndex(true);
    assert IdFields(restarted.store, IdOf) == {1} by {
      assert IdOf(restarted.store[1]) == 1 && IdOf(restarted.store[2]) == 1;
      assert restarted.store.Keys == {1, 2};
    }
    beforeCreate := restarted.store;
    created := restarted.Create(request);
    afterCreate := restarted.store;
  }
}
