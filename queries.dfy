/**
 The four read-only controllers: recommendations, the caller's friends, the
 caller's incoming and accepted requests, and the caller's outgoing requests.
 Each is a filter over the store's collections followed by the `populate`
 projection of the referenced user documents.
 */
module Queries {
  import opened SocialGraph

  /** The fields `populate` selects: fullName, profilePic, nativeLanguage, learningLanguage (and the id). */
  datatype Profile = Profile(
    id: UserId,
    fullName: string,
    profilePic: string,
    nativeLanguage: string,
    learningLanguage: string)

  /** The caller's part in a request: the `userType` tag of an accepted request. */
  datatype Role = AsSender | AsRecipient

  /** A request with one party populated; `None` is the `null` of a dangling reference. */
  datatype RequestView = RequestView(request: Request, party: Option<Profile>)

  /** An accepted request, tagged with the caller's role and the opposite party. */
  datatype AcceptedView = AcceptedView(request: Request, userType: Role, otherUser: Option<Profile>)

  /** The body of the `getFriendRequests` response. */
  datatype FriendRequestsView = FriendRequestsView(incomingRequests: seq<RequestView>, acceptedRequests: seq<AcceptedView>)

  function ProfileOf(u: User): Profile
  {
    Profile(u.id, u.fullName, u.profilePic, u.nativeLanguage, u.learningLanguage)
  }

  /** `populate` of a single reference. */
  function Lookup(users: map<UserId, User>, id: UserId): Option<Profile>
  {
    if id in users then Some(ProfileOf(users[id])) else None
  }

  function Party(r: Request, role: Role): UserId
  {
    if role == AsSender then r.sender else r.recipient
  }

  function Opposite(role: Role): Role
  {
    if role == AsSender then AsRecipient else AsSender
  }

  // ---------------------------------------------------------------------
  // getRecommendedUsers

  /** The three conditions of the recommendation query. */
  predicate Recommendable(current: User, u: User)
  {
    u.id != current.id && u.id !in current.friends && u.isOnboarded
  }

  /**
   Every onboarded user other than `current` and its friends, in the collection's
   order. `current` is the caller's document as the authentication step loaded it.
   */
  function RecommendedUsers(users: map<UserId, User>, directory: seq<UserId>, current: User): (r: seq<User>)
    ensures |r| <= |directory|
    ensures forall u :: u in r ==> u.id != current.id && u.id !in current.friends && u.isOnboarded
    ensures forall u :: u in r ==> u in users.Values
    ensures forall id :: id in directory && id in users && Recommendable(current, users[id]) ==> users[id] in r
    ensures DirectoryOk(users, directory) ==>
      forall id :: id in users && Recommendable(current, users[id]) ==> users[id] in r
  {
    if directory == [] then []
    else
      var rest := RecommendedUsers(users, directory[1..], current);
      var id := directory[0];
      if id in users && Recommendable(current, users[id]) then [users[id]] + rest else rest
  }

  // ---------------------------------------------------------------------
  // getMyFriends

  /** `populate` of an array of references: dangling ones are dropped. */
  function ProfilesOf(users: map<UserId, User>, ids: seq<UserId>): (r: seq<Profile>)
    ensures |r| <= |ids|
    ensures forall id :: id in ids && id in users ==> ProfileOf(users[id]) in r
    ensures forall p :: p in r ==> exists id :: id in ids && id in users && p == ProfileOf(users[id])
    ensures (forall id :: id in ids ==> id in users) ==>
      |r| == |ids| && forall k :: 0 <= k < |ids| ==> r[k] == ProfileOf(users[ids[k]])
  {
    if ids == [] then []
    else
      var rest := ProfilesOf(users, ids[1..]);
      if ids[0] in users then [ProfileOf(users[ids[0]])] + rest else rest
  }

  /** The caller's friend array, each entry replaced by that friend's profile. */
  function MyFriends(users: map<UserId, User>, me: UserId): (r: seq<Profile>)
    requires me in users
    ensures forall f :: f in users[me].friends && f in users ==> ProfileOf(users[f]) in r
    ensures forall p :: p in r ==>
      exists f :: f in users[me].friends && f in users && p == ProfileOf(users[f])
    ensures |r| <= |users[me].friends|
  {
    ProfilesOf(users, users[me].friends)
  }

  /**
   Populating an array is the order-keeping filter of its existing ids: a single
   id gives its profile or nothing, and the result for a concatenation is the
   concatenation of the results. Together these fix the result completely.
   */
  lemma {:induction false} ProfilesOfIsOrderedFilter(users: map<UserId, User>, ids1: seq<UserId>, ids2: seq<UserId>, id: UserId)
    ensures ProfilesOf(users, [id]) == if id in users then [ProfileOf(users[id])] else []
    ensures ProfilesOf(users, ids1 + ids2) == ProfilesOf(users, ids1) + ProfilesOf(users, ids2)
  {
    if ids1 != [] {
      assert (ids1 + ids2)[1..] == ids1[1..] + ids2;
      ProfilesOfIsOrderedFilter(users, ids1[1..], ids2, id);
    } else {
      assert ids1 + ids2 == ids2;
    }
  }

  /** In a consistent store the friends view lists exactly the friend array, in order, and is mutual. */
  lemma {:induction false} MyFriendsExact(
    users: map<UserId, User>, directory: seq<UserId>, rs: seq<Request>, nextId: RequestId, me: UserId)
    requires StoreOk(users, directory, rs, nextId)
    requires me in users
    ensures |MyFriends(users, me)| == |users[me].friends|
    ensures forall k :: 0 <= k < |users[me].friends| ==>
      MyFriends(users, me)[k].id == users[me].friends[k] && me in users[users[me].friends[k]].friends
  {
    forall k | 0 <= k < |users[me].friends| ensures me in users[users[me].friends[k]].friends {
      assert AreFriends(users, me, users[me].friends[k]);
    }
  }

  // ---------------------------------------------------------------------
  // getFriendRequests and getOutgoingRequests

  /** `FriendRequest.find({<role>: who, status: status})`, in collection order. */
  function Select(rs: seq<Request>, who: UserId, role: Role, status: Status): (r: seq<Request>)
    ensures |r| <= |rs|
    ensures forall q :: q in r ==> q in rs && Party(q, role) == who && q.status == status
    ensures forall q :: q in rs && Party(q, role) == who && q.status == status ==> q in r
  {
    if rs == [] then []
    else
      var rest := Select(rs[1..], who, role, status);
      if Party(rs[0], role) == who && rs[0].status == status then [rs[0]] + rest else rest
  }

  /** Each request with the party in `role` populated. */
  function Populate(users: map<UserId, User>, rs: seq<Request>, role: Role): seq<RequestView>
  {
    seq(|rs|, k requires 0 <= k < |rs| => RequestView(rs[k], Lookup(users, Party(rs[k], role))))
  }

  /** Each request tagged with the caller's `role` and populated with the opposite party. */
  function Tag(users: map<UserId, User>, rs: seq<Request>, role: Role): seq<AcceptedView>
  {
    seq(|rs|, k requires 0 <= k < |rs| => AcceptedView(rs[k], role, Lookup(users, Party(rs[k], Opposite(role)))))
  }

  /** Every selected request appears in its tagged form. */
  lemma {:induction false} TagCovers(users: map<UserId, User>, sel: seq<Request>, role: Role)
    ensures forall q :: q in sel ==> AcceptedView(q, role, Lookup(users, Party(q, Opposite(role)))) in Tag(users, sel, role)
    ensures forall v :: v in Tag(users, sel, role) ==>
      v.request in sel && v.userType == role && v.otherUser == Lookup(users, Party(v.request, Opposite(role)))
  {
    var t := Tag(users, sel, role);
    forall q | q in sel ensures AcceptedView(q, role, Lookup(users, Party(q, Opposite(role)))) in t {
      var k :| 0 <= k < |sel| && sel[k] == q;
      assert t[k] == AcceptedView(q, role, Lookup(users, Party(q, Opposite(role))));
    }
  }

  /** The pending requests addressed to `me`, each with its sender populated. */
  function IncomingRequests(users: map<UserId, User>, rs: seq<Request>, me: UserId): (r: seq<RequestView>)
    ensures forall v :: v in r ==>
      v.request in rs && v.request.recipient == me && v.request.status == Pending
      && v.party == Lookup(users, v.request.sender)
    ensures forall q :: q in rs && q.recipient == me && q.status == Pending ==>
      RequestView(q, Lookup(users, q.sender)) in r
  {
    var sel := Select(rs, me, AsRecipient, Pending);
    var r := Populate(users, sel, AsSender);
    assert forall q :: q in sel ==> RequestView(q, Lookup(users, q.sender)) in r by {
      forall q | q in sel ensures RequestView(q, Lookup(users, q.sender)) in r {
        var k :| 0 <= k < |sel| && sel[k] == q;
        assert r[k] == RequestView(q, Lookup(users, q.sender));
      }
    }
    r
  }

  /** The pending requests sent by `me`, each with its recipient populated. */
  function OutgoingRequests(users: map<UserId, User>, rs: seq<Request>, me: UserId): (r: seq<RequestView>)
    ensures forall v :: v in r ==>
      v.request in rs && v.request.sender == me && v.request.status == Pending
      && v.party == Lookup(users, v.request.recipient)
    ensures forall q :: q in rs && q.sender == me && q.status == Pending ==>
      RequestView(q, Lookup(users, q.recipient)) in r
  {
    var sel := Select(rs, me, AsSender, Pending);
    var r := Populate(users, sel, AsRecipient);
    assert forall q :: q in sel ==> RequestView(q, Lookup(users, q.recipient)) in r by {
      forall q | q in sel ensures RequestView(q, Lookup(users, q.recipient)) in r {
        var k :| 0 <= k < |sel| && sel[k] == q;
        assert r[k] == RequestView(q, Lookup(users, q.recipient));
      }
    }
    r
  }

  /**
   The accepted requests `me` is party to: first those it received (tagged
   `AsRecipient`, other user = sender), then those it sent (tagged `AsSender`,
   other user = recipient).
   */
  function AcceptedRequests(users: map<UserId, User>, rs: seq<Request>, me: UserId): (r: seq<AcceptedView>)
    ensures forall v :: v in r ==> v.request in rs && v.request.status == Accepted
    ensures forall v :: v in r && v.userType == AsRecipient ==>
      v.request.recipient == me && v.otherUser == Lookup(users, v.request.sender)
    ensures forall v :: v in r && v.userType == AsSender ==>
      v.request.sender == me && v.otherUser == Lookup(users, v.request.recipient)
    ensures forall j, k :: 0 <= j < k < |r| && r[j].userType == AsSender ==> r[k].userType == AsSender
    ensures forall q :: q in rs && q.recipient == me && q.status == Accepted ==>
      AcceptedView(q, AsRecipient, Lookup(users, q.sender)) in r
    ensures forall q :: q in rs && q.sender == me && q.status == Accepted ==>
      AcceptedView(q, AsSender, Lookup(users, q.recipient)) in r
  {
    var recv := Select(rs, me, AsRecipient, Accepted);
    var sent := Select(rs, me, AsSender, Accepted);
    TagCovers(users, recv, AsRecipient);
    TagCovers(users, sent, AsSender);
    var r := Tag(users, recv, AsRecipient) + Tag(users, sent, AsSender);
    assert forall k :: 0 <= k < |r| ==> r[k].userType == (if k < |recv| then AsRecipient else AsSender);
    r
  }

  /** The `getFriendRequests` response. */
  function FriendRequests(users: map<UserId, User>, rs: seq<Request>, me: UserId): FriendRequestsView
  {
    FriendRequestsView(IncomingRequests(users, rs, me), AcceptedRequests(users, rs, me))
  }

  /**
   Once request `i` is accepted it has left both pending lists of its parties
   and appears, tagged, in both accepted lists.
   */
  lemma {:induction false} AcceptMovesRequest(
    users: map<UserId, User>, directory: seq<UserId>, rs: seq<Request>, nextId: RequestId, i: nat)
    requires StoreOk(users, directory, rs, nextId)
    requires i < |rs|
    ensures
      var q := rs[i].(status := Accepted);
      var users' := Befriend(users, q.sender, q.recipient);
      var rs' := rs[i := q];
      && (forall v :: v in IncomingRequests(users', rs', q.recipient) ==> v.request.id != q.id)
      && (forall v :: v in OutgoingRequests(users', rs', q.sender) ==> v.request.id != q.id)
      && AcceptedView(q, AsRecipient, Lookup(users', q.sender)) in AcceptedRequests(users', rs', q.recipient)
      && AcceptedView(q, AsSender, Lookup(users', q.recipient)) in AcceptedRequests(users', rs', q.sender)
  {
    var q := rs[i].(status := Accepted);
    var users' := Befriend(users, q.sender, q.recipient);
    var rs' := rs[i := q];
    assert rs'[i] == q;
    forall v | v in IncomingRequests(users', rs', q.recipient) ensures v.request.id != q.id {
      var j :| 0 <= j < |rs'| && rs'[j] == v.request;
      if j != i {
        assert rs'[j] == rs[j];
      }
    }
    forall v | v in OutgoingRequests(users', rs', q.sender) ensures v.request.id != q.id {
      var j :| 0 <= j < |rs'| && rs'[j] == v.request;
      if j != i {
        assert rs'[j] == rs[j];
      }
    }
  }
}
