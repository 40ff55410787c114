/**
 The store the two state-changing controllers work on: the user collection
 (documents keyed by id, plus the collection's natural order) and the
 friend-request collection. `sendFriendRequest` and `acceptFriendRequest`
 are methods that update it; each runs as one atomic step.
 */
module FriendService {
  import opened SocialGraph
  import Queries

  /** Some request in `rs` is between `a` and `b`, in either direction and in any status. */
  ghost predicate PairTaken(rs: seq<Request>, a: UserId, b: UserId)
  {
    exists i :: 0 <= i < |rs| && Between(rs[i], a, b)
  }

  ghost predicate HasRequest(rs: seq<Request>, id: RequestId)
  {
    exists i :: 0 <= i < |rs| && rs[i].id == id
  }

  class FriendStore {
    var users: map<UserId, User>
    var directory: seq<UserId>
    var requests: seq<Request>
    var nextId: RequestId

    ghost predicate Valid()
      reads this
    {
      StoreOk(users, directory, requests, nextId)
    }

    /** A store over an existing, consistent user collection and no requests yet. */
    constructor (users0: map<UserId, User>, directory0: seq<UserId>)
      requires GraphOk(users0, directory0)
      ensures Valid()
      ensures users == users0 && directory == directory0 && requests == [] && nextId == 0
    {
      users, directory, requests, nextId := users0, directory0, [], 0;
    }

    /**
     `me` (the authenticated caller) asks `to` to be friends. The guards run in
     the order `sendFriendRequest` checks them; only a request that passes all four is stored.
     */
    method SendFriendRequest(me: UserId, to: UserId) returns (res: Result<Request>)
      requires Valid() && me in users
      modifies this
      ensures Valid()
      ensures users == old(users) && directory == old(directory)
      ensures me == to ==> res == Err(SelfRequest)
      ensures me != to && to !in users ==> res == Err(RecipientNotFound)
      ensures me != to && to in users && me in users[to].friends ==> res == Err(AlreadyFriends)
      ensures me != to && to in users && me !in users[to].friends && PairTaken(old(requests), me, to) ==>
        res == Err(DuplicateRequest)
      ensures res.Ok? <==>
        me != to && to in users && me !in users[to].friends && !PairTaken(old(requests), me, to)
      ensures res.Err? ==> requests == old(requests) && nextId == old(nextId)
      ensures res.Ok? ==>
        && res.value == Request(old(nextId), me, to, Pending)
        && requests == old(requests) + [res.value]
        && nextId == old(nextId) + 1
    {
      if me == to {
        return Err(SelfRequest);
      }
      if to !in users {
        return Err(RecipientNotFound);
      }
      if me in users[to].friends {
        return Err(AlreadyFriends);
      }
      var existing := FindBetween(requests, me, to);
      if existing.Some? {
        return Err(DuplicateRequest);
      }
      SendKeepsStoreOk(users, directory, requests, nextId, me, to);
      var fr := Request(nextId, me, to, Pending);
      requests := requests + [fr];
      nextId := nextId + 1;
      res := Ok(fr);
    }

    /**
     `me` accepts request `requestId`. Only the recipient may; the status is
     set first, then each party is added to the other's friend array. An
     already accepted request may be accepted again and nothing changes.
     */
    method AcceptFriendRequest(me: UserId, requestId: RequestId) returns (res: Result<Request>)
      requires Valid()
      modifies this
      ensures Valid()
      ensures directory == old(directory) && nextId == old(nextId)
      ensures !HasRequest(old(requests), requestId) ==>
        res == Err(RequestNotFound) && requests == old(requests) && users == old(users)
      ensures forall i :: 0 <= i < |old(requests)| && old(requests)[i].id == requestId ==>
        var q := old(requests)[i];
        && (q.recipient != me ==> res == Err(Forbidden) && requests == old(requests) && users == old(users))
        && (q.recipient == me ==>
              && res == Ok(q.(status := Accepted))
              && requests == old(requests)[i := q.(status := Accepted)]
              && users == Befriend(old(users), q.sender, q.recipient))
        && (q.recipient == me && q.status == Accepted ==> requests == old(requests) && users == old(users))
    {
      var found := FindRequest(requests, requestId);
      if found.None? {
        return Err(RequestNotFound);
      }
      var i := found.value;
      if requests[i].recipient != me {
        return Err(Forbidden);
      }
      AcceptKeepsStoreOk(users, directory, requests, nextId, i);
      if requests[i].status == Accepted {
        AcceptAgainIsNoOp(users, directory, requests, nextId, i);
      }
      var fr := requests[i].(status := Accepted);
      requests := requests[i := fr];
      users := AddFriend(users, fr.sender, fr.recipient);
      users := AddFriend(users, fr.recipient, fr.sender);
      res := Ok(fr);
    }
  }

  /**
   A sends to B, then B sends to A before anything is accepted: the second call
   is refused as a duplicate and exactly one request is stored.
   */
  method ReverseRequestIsDuplicate(users0: map<UserId, User>, directory0: seq<UserId>, a: UserId, b: UserId)
    returns (first: Result<Request>, second: Result<Request>, stored: seq<Request>)
    requires GraphOk(users0, directory0)
    requires a in users0 && b in users0 && a != b && a !in users0[b].friends
    ensures first == Ok(Request(0, a, b, Pending))
    ensures second == Err(DuplicateRequest)
    ensures stored == [Request(0, a, b, Pending)]
  {
    var store := new FriendStore(users0, directory0);
    first := store.SendFriendRequest(a, b);
    assert Between(store.requests[0], b, a);
    assert b !in users0[a].friends by {
      assert !AreFriends(users0, a, b);
    }
    second := store.SendFriendRequest(b, a);
    stored := store.requests;
  }

  /**
   A sends to B and B accepts: both friend arrays hold the other, the request
   is accepted, it is in neither pending list any more, and it is listed as
   accepted for both, with the right role and other user.
   */
  method SendThenAccept(users0: map<UserId, User>, directory0: seq<UserId>, a: UserId, b: UserId)
    returns (sent: Result<Request>, accepted: Result<Request>,
             incomingB: seq<Queries.RequestView>, outgoingA: seq<Queries.RequestView>,
             acceptedA: seq<Queries.AcceptedView>, acceptedB: seq<Queries.AcceptedView>,
             friendsA: seq<UserId>, friendsB: seq<UserId>)
    requires GraphOk(users0, directory0)
    requires a in users0 && b in users0 && a != b && a !in users0[b].friends
    ensures sent == Ok(Request(0, a, b, Pending))
    ensures accepted == Ok(Request(0, a, b, Accepted))
    ensures b in friendsA && a in friendsB
    ensures incomingB == [] && outgoingA == []
    ensures exists v :: v in acceptedA && v.request == Request(0, a, b, Accepted) && v.userType == Queries.AsSender
    ensures exists v :: v in acceptedB && v.request == Request(0, a, b, Accepted) && v.userType == Queries.AsRecipient
  {
    var store := new FriendStore(users0, directory0);
    var q := Request(0, a, b, Pending);
    sent := store.SendFriendRequest(a, b);
    assert sent == Ok(q) && store.requests == [q];
    assert HasRequest(store.requests, 0) && store.requests[0].id == 0;
    ghost var before := store.users;
    accepted := store.AcceptFriendRequest(b, 0);
    assert store.requests == [q.(status := Accepted)];
    assert store.users == Befriend(before, a, b);
    var rs := store.requests;
    incomingB := Queries.IncomingRequests(store.users, rs, b);
    outgoingA := Queries.OutgoingRequests(store.users, rs, a);
    acceptedA := Queries.AcceptedRequests(store.users, rs, a);
    acceptedB := Queries.AcceptedRequests(store.users, rs, b);
    assert rs[0] in rs;
    friendsA := store.users[a].friends;
    friendsB := store.users[b].friends;
    assert AreFriends(store.users, a, b) && AreFriends(store.users, b, a);
  }
}
