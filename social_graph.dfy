/**
 The data of the social-connection core: user documents with their friend
 arrays, friend-request documents, the error outcomes of the two controllers
 that change state, the update primitives those controllers use, and the
 invariants that every reachable store satisfies.
 */
module SocialGraph {

  type UserId = string

  /** Request ids are handed out by the store; a counter stands for Mongo's fresh ObjectId. */
  type RequestId = nat

  datatype Option<T> = None | Some(value: T)

  datatype Status = Pending | Accepted

  /** A user document. `friends` is the Mongo array that `$addToSet` appends to. */
  datatype User = User(
    id: UserId,
    fullName: string,
    profilePic: string,
    nativeLanguage: string,
    learningLanguage: string,
    isOnboarded: bool,
    friends: seq<UserId>)

  /** A friend-request document; new documents start `Pending`. */
  datatype Request = Request(id: RequestId, sender: UserId, recipient: UserId, status: Status)

  /** The refusals of `sendFriendRequest` and `acceptFriendRequest`. */
  datatype Error =
    | SelfRequest
    | RecipientNotFound
    | AlreadyFriends
    | DuplicateRequest
    | RequestNotFound
    | Forbidden

  datatype Result<T> = Ok(value: T) | Err(error: Error)

  /** The HTTP status each refusal is answered with. */
  function HttpStatus(e: Error): (code: nat)
    ensures code == 404 <==> e == RequestNotFound
    ensures code == 403 <==> e == Forbidden
    ensures code == 400 <==> e in {SelfRequest, RecipientNotFound, AlreadyFriends, DuplicateRequest}
  {
    match e
    case RequestNotFound => 404
    case Forbidden => 403
    case _ => 400
  }

  predicate NoDup<T(==)>(s: seq<T>)
  {
    forall i, j :: 0 <= i < j < |s| ==> s[i] != s[j]
  }

  /** Mongo's `$addToSet` on an array: append `x` unless it is already there. */
  function AddToSet(s: seq<UserId>, x: UserId): (r: seq<UserId>)
    ensures forall y :: y in r <==> y in s || y == x
    ensures NoDup(s) ==> NoDup(r)
    ensures x in s ==> r == s
    ensures |s| <= |r| <= |s| + 1 && r[..|s|] == s
  {
    if x in s then s else s + [x]
  }

  /** `User.findByIdAndUpdate(id, {$addToSet: {friends: friend}})`; an unknown id updates nothing. */
  function AddFriend(users: map<UserId, User>, id: UserId, friend: UserId): (r: map<UserId, User>)
    ensures r.Keys == users.Keys
    ensures forall u :: u in users && u != id ==> r[u] == users[u]
    ensures id in users ==> r[id] == users[id].(friends := AddToSet(users[id].friends, friend))
  {
    if id in users then users[id := users[id].(friends := AddToSet(users[id].friends, friend))] else users
  }

  predicate AreFriends(users: map<UserId, User>, a: UserId, b: UserId)
  {
    a in users && b in users[a].friends
  }

  /** The two `$addToSet` updates of an acceptance: `b` joins `a`'s friends, then `a` joins `b`'s. */
  function Befriend(users: map<UserId, User>, a: UserId, b: UserId): (r: map<UserId, User>)
    ensures r.Keys == users.Keys
    ensures forall u :: u in users && u != a && u != b ==> r[u] == users[u]
    ensures forall u :: u in users ==> r[u].(friends := users[u].friends) == users[u]
    ensures a in users && b in users ==>
      forall x, y :: AreFriends(r, x, y) <==> AreFriends(users, x, y) || (x == a && y == b) || (x == b && y == a)
  {
    AddFriend(AddFriend(users, a, b), b, a)
  }

  /** `r` is a request between `a` and `b`, in either direction. */
  predicate Between(r: Request, a: UserId, b: UserId)
  {
    (r.sender == a && r.recipient == b) || (r.sender == b && r.recipient == a)
  }

  /** `FriendRequest.findById`: the position of the request with this id, if any. */
  function FindRequest(rs: seq<Request>, id: RequestId): (r: Option<nat>)
    ensures r.Some? ==> r.value < |rs| && rs[r.value].id == id
    ensures r.None? <==> forall i :: 0 <= i < |rs| ==> rs[i].id != id
  {
    if rs == [] then None
    else if rs[0].id == id then Some(0)
    else match FindRequest(rs[1..], id)
      case None => None
      case Some(k) => Some(k + 1)
  }

  /** `FriendRequest.findOne` over both directions: the first request between `a` and `b`, if any. */
  function FindBetween(rs: seq<Request>, a: UserId, b: UserId): (r: Option<nat>)
    ensures r.Some? ==> r.value < |rs| && Between(rs[r.value], a, b)
    ensures r.Some? ==> forall i :: 0 <= i < r.value ==> !Between(rs[i], a, b)
    ensures r.None? <==> forall i :: 0 <= i < |rs| ==> !Between(rs[i], a, b)
  {
    if rs == [] then None
    else if Between(rs[0], a, b) then Some(0)
    else match FindBetween(rs[1..], a, b)
      case None => None
      case Some(k) => Some(k + 1)
  }

  // ---------------------------------------------------------------------
  // Store invariants

  /** The user collection: `directory` lists every user once, in the collection's natural order. */
  ghost predicate DirectoryOk(users: map<UserId, User>, directory: seq<UserId>)
  {
    && NoDup(directory)
    && (forall id :: id in directory <==> id in users)
    && (forall id :: id in users ==> users[id].id == id)
  }

  /** Friend arrays hold no duplicates, never their owner, and only known users. */
  ghost predicate FriendListsOk(users: map<UserId, User>)
  {
    forall id :: id in users ==>
      && NoDup(users[id].friends)
      && id !in users[id].friends
      && (forall f :: f in users[id].friends ==> f in users)
  }

  /** The friend relation is symmetric. */
  ghost predicate Symmetric(users: map<UserId, User>)
  {
    forall a, b :: AreFriends(users, a, b) ==> AreFriends(users, b, a)
  }

  /** No self-requests, both parties known, ids below the next id to hand out. */
  ghost predicate RequestsWellFormed(users: map<UserId, User>, rs: seq<Request>, nextId: RequestId)
  {
    forall i :: 0 <= i < |rs| ==>
      rs[i].sender != rs[i].recipient && rs[i].sender in users && rs[i].recipient in users && rs[i].id < nextId
  }

  ghost predicate DistinctIds(rs: seq<Request>)
  {
    forall i, j :: 0 <= i < j < |rs| ==> rs[i].id != rs[j].id
  }

  /** At most one request per unordered pair of users, whatever its status. */
  ghost predicate OnePerPair(rs: seq<Request>)
  {
    forall i, j :: 0 <= i < j < |rs| ==> !Between(rs[j], rs[i].sender, rs[i].recipient)
  }

  /** A request is accepted exactly when its two parties are friends. */
  ghost predicate StatusMatchesFriendship(users: map<UserId, User>, rs: seq<Request>)
  {
    forall i :: 0 <= i < |rs| ==> (rs[i].status == Accepted <==> AreFriends(users, rs[i].sender, rs[i].recipient))
  }

  ghost predicate GraphOk(users: map<UserId, User>, directory: seq<UserId>)
  {
    DirectoryOk(users, directory) && FriendListsOk(users) && Symmetric(users)
  }

  ghost predicate StoreOk(users: map<UserId, User>, directory: seq<UserId>, rs: seq<Request>, nextId: RequestId)
  {
    && GraphOk(users, directory)
    && RequestsWellFormed(users, rs, nextId)
    && DistinctIds(rs)
    && OnePerPair(rs)
    && StatusMatchesFriendship(users, rs)
  }

  // ---------------------------------------------------------------------
  // Lemmas

  /** Two requests between the same two users are the same request. */
  lemma OnlyRequestOfPair(rs: seq<Request>, i: nat, j: nat)
    requires OnePerPair(rs)
    requires i < |rs| && j < |rs|
    requires Between(rs[j], rs[i].sender, rs[i].recipient)
    ensures i == j
  {
  }

  /** Linking two distinct known users keeps the friend graph well formed. */
  lemma BefriendKeepsGraphOk(users: map<UserId, User>, directory: seq<UserId>, a: UserId, b: UserId)
    requires GraphOk(users, directory)
    requires a in users && b in users && a != b
    ensures GraphOk(Befriend(users, a, b), directory)
  {
  }

  /** A successful send appends a pending request and keeps every invariant. */
  lemma SendKeepsStoreOk(
    users: map<UserId, User>, directory: seq<UserId>, rs: seq<Request>, nextId: RequestId,
    me: UserId, to: UserId)
    requires StoreOk(users, directory, rs, nextId)
    requires me in users && to in users && me != to
    requires !AreFriends(users, to, me)
    requires forall i :: 0 <= i < |rs| ==> !Between(rs[i], me, to)
    ensures StoreOk(users, directory, rs + [Request(nextId, me, to, Pending)], nextId + 1)
  {
  }

  /** Accepting request `i` (status update plus both friend links) keeps every invariant. */
  lemma AcceptKeepsStoreOk(
    users: map<UserId, User>, directory: seq<UserId>, rs: seq<Request>, nextId: RequestId, i: nat)
    requires StoreOk(users, directory, rs, nextId)
    requires i < |rs|
    ensures StoreOk(Befriend(users, rs[i].sender, rs[i].recipient), directory,
                    rs[i := rs[i].(status := Accepted)], nextId)
  {
  }

  /** Accepting an already accepted request changes neither the requests nor any friend array. */
  lemma AcceptAgainIsNoOp(
    users: map<UserId, User>, directory: seq<UserId>, rs: seq<Request>, nextId: RequestId, i: nat)
    requires StoreOk(users, directory, rs, nextId)
    requires i < |rs| && rs[i].status == Accepted
    ensures rs[i := rs[i].(status := Accepted)] == rs
    ensures Befriend(users, rs[i].sender, rs[i].recipient) == users
  {
  }
}
