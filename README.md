# Streamify social connections, modelled in Dafny

This project models the friend-request core of Streamify's backend
(`backend/src/controllers/user.controller.js`): sending and accepting friend
requests, and the four read-only views built on the user and friend-request
collections (recommended users, my friends, incoming and accepted requests,
outgoing requests).

- `social_graph.dfy` (module `SocialGraph`): user documents (with their
  `friends` array), friend-request documents (`pending` / `accepted`), the
  refusals and their HTTP status codes, Mongo's `$addToSet` and
  `findByIdAndUpdate` as pure functions, the two lookups the controllers make
  (`findById`, `findOne` over both directions), the invariants of a consistent
  store, and the lemmas that the two state changes keep them.
- `queries.dfy` (module `Queries`): `getRecommendedUsers`, `getMyFriends`,
  `getFriendRequests` and `getOutgoingRequests` as functions over the store's
  collections, including `populate` (a dangling single reference becomes
  `None`, as Mongoose's `null`; dangling entries of an array are dropped).
- `friend_store.dfy` (module `FriendService`): the class `FriendStore` holding
  the user collection (a map from id to document plus the collection's natural
  order), the request collection and the id counter; `SendFriendRequest` and
  `AcceptFriendRequest` update it in place. Two client methods run the
  "reverse request is a duplicate" and "send then accept" scenarios against
  those contracts.

The store invariant (`StoreOk`) holds in every store the two operations reach
from a consistent user collection: user ids are unique, friend arrays have no
duplicates and never contain their owner, the friend relation is symmetric,
no request goes from a user to itself, request ids are unique, at most one
request exists per unordered pair of users in any status, and a request is
`accepted` exactly when its two parties are friends.

## Model

| member | source | states |
|---|---|---|
| SocialGraph.HttpStatus | backend/src/controllers/user.controller.js:44-100 | "not found" for a request is 404, "not the recipient" is 403, the four refusals of a send are 400 |
| SocialGraph.AddToSet | backend/src/controllers/user.controller.js:105-111 | `$addToSet`: the array afterwards holds exactly the old members and the new one, keeps the old order as a prefix, gains at most one entry, stays duplicate-free, and is unchanged when the id was already there |
| SocialGraph.AddFriend | backend/src/controllers/user.controller.js:105-107 | `findByIdAndUpdate` with `$addToSet`: no user is added or removed, only the named user's record changes and only its friend array, and an unknown id changes nothing |
| SocialGraph.Befriend | backend/src/controllers/user.controller.js:105-111 | the two updates of an acceptance touch no third user and no field but `friends`, and the friend relation afterwards is the old one plus the pair in both directions |
| SocialGraph.FindRequest | backend/src/controllers/user.controller.js:90-94 | `findById`: a found position holds a request with that id; nothing is found exactly when no request has that id |
| SocialGraph.FindBetween | backend/src/controllers/user.controller.js:61-68 | `findOne` with the two-direction `$or`: the result is the first request between the two users in either direction; nothing is found exactly when no such request exists |
| SocialGraph.OnlyRequestOfPair | backend/src/controllers/user.controller.js:61-72 | in a store with at most one request per unordered pair, two requests between the same two users are the same request |
| SocialGraph.BefriendKeepsGraphOk | backend/src/controllers/user.controller.js:105-111 | linking two distinct known users keeps friend arrays duplicate-free, self-free, within known users, and the relation symmetric |
| SocialGraph.SendKeepsStoreOk | backend/src/controllers/user.controller.js:61-77 | appending a pending request that passed the self, recipient, already-friends and duplicate guards keeps every store invariant, in particular one request per unordered pair |
| SocialGraph.AcceptKeepsStoreOk | backend/src/controllers/user.controller.js:102-111 | setting a request to accepted and linking its two parties keeps every store invariant, including symmetry and "accepted exactly when friends" for every other request |
| SocialGraph.AcceptAgainIsNoOp | backend/src/controllers/user.controller.js:102-111 | accepting an already accepted request leaves the request list and every friend array equal to what they were |
| Queries.RecommendedUsers | backend/src/controllers/user.controller.js:9-15 | every recommended user is a stored user, onboarded, not the caller and not in the caller's friends; every user listed in the directory and meeting those three conditions is recommended, and so, when the directory lists every stored user once, is every stored user meeting them |
| Queries.ProfilesOf | backend/src/controllers/user.controller.js:27-30 | populating an id array yields a profile for every id that has a user and nothing but profiles of such ids, and, when every id has one, exactly those profiles in array order |
| Queries.MyFriends | backend/src/controllers/user.controller.js:25-32 | the friends view holds the profile of every existing user in the caller's friend array, only profiles of such users, and no more entries than the array |
| Queries.ProfilesOfIsOrderedFilter | backend/src/controllers/user.controller.js:27-30 | populating a single id gives that user's profile or nothing, and populating a concatenation gives the concatenation of the two results, so the result is the order-keeping filter of the array's existing ids |
| Queries.MyFriendsExact | backend/src/controllers/user.controller.js:25-32 | in a consistent store the friends view lists exactly the caller's friend array, in order, and each listed friend has the caller among its own friends |
| Queries.Select | backend/src/controllers/user.controller.js:123-138 | the `find` by party and status returns exactly the requests in which the given user holds the given role with the given status |
| Queries.TagCovers | backend/src/controllers/user.controller.js:141-152 | the mapping step tags every selected request with the given role and the opposite party, and produces nothing else |
| Queries.IncomingRequests | backend/src/controllers/user.controller.js:123-126 | the incoming list holds exactly the pending requests addressed to the caller, each with its sender populated |
| Queries.OutgoingRequests | backend/src/controllers/user.controller.js:163-166 | the outgoing list holds exactly the pending requests sent by the caller, each with its recipient populated |
| Queries.AcceptedRequests | backend/src/controllers/user.controller.js:129-152 | the accepted list holds every accepted request the caller received, tagged recipient with the sender as other user, then every accepted request the caller sent, tagged sender with the recipient as other user; no sender-tagged entry precedes a recipient-tagged one |
| Queries.AcceptMovesRequest | backend/src/controllers/user.controller.js:102-166 | after an acceptance the request is in neither party's pending list and is in both parties' accepted lists with the right tag and other user |
| FriendService.FriendStore.SendFriendRequest | backend/src/controllers/user.controller.js:39-79 | refuses a self-request, an unknown recipient, a sender already in the recipient's friends, and any existing request between the two in either direction or status, in that order, changing nothing; otherwise stores exactly one new pending request from caller to recipient with a fresh id, leaving users and existing requests as they were; keeps the store invariant |
| FriendService.FriendStore.AcceptFriendRequest | backend/src/controllers/user.controller.js:86-113 | an unknown id is refused with not-found and a caller other than the recipient with forbidden, changing nothing; otherwise only that request becomes accepted and the two parties are linked as `Befriend` states; re-accepting leaves the store equal; keeps the store invariant |
| FriendService.ReverseRequestIsDuplicate | backend/src/controllers/user.controller.js:61-72 | after A sends to B, B's request to A is refused as a duplicate and exactly one request is stored |
| FriendService.SendThenAccept | backend/src/controllers/user.controller.js:74-166 | after A sends to B and B accepts, each is in the other's friends, both pending lists are empty, and both accepted lists show the request with the right role |

## Left out

- HTTP handling: `req`/`res`, the JSON bodies, the `try`/`catch` that answers 500 and the `console.error` logging are not modelled; the controllers' refusals are `Err` values and `HttpStatus` gives their codes.
- Mongoose and MongoDB calls (`find`, `findOne`, `findById`, `populate`, `create`, `save`, `findByIdAndUpdate`) are replaced by an in-memory store; the store hands out request ids from a counter, standing for a fresh ObjectId.
- Concurrency: each controller is one atomic step. The check-then-insert race of `sendFriendRequest` and the three separate writes of `acceptFriendRequest` are not modelled; the invariant "accepted exactly when friends" relies on that atomicity.
- FriendService.FriendStore.SendFriendRequest: requires the caller to be a stored user, because the authentication step loads the caller's document before the controller runs; the authentication middleware is not part of this model.
- Queries.MyFriends: requires the caller to be a stored user for the same reason; `getMyFriends` would answer 500 if the caller's document were missing.
- Queries.RecommendedUsers: takes the caller's document as a parameter, as `getRecommendedUsers` reads `req.user` rather than the collection; it is specified by membership, not by the collection's order.
- Queries.Select, Queries.IncomingRequests, Queries.OutgoingRequests: are specified by membership; the order of the collection is kept by the definitions but not stated in the contracts.
- FriendService.FriendStore.AcceptFriendRequest: returns the accepted request, where `acceptFriendRequest` answers with a fixed message.
- The store invariant is proved for stores built from a consistent user collection with no requests by these two operations; documents written by other code are not covered.
- ObjectId comparisons (`toString()`, `===`) are modelled as equality of string ids.
- The `populate` projections carry the selected profile fields as strings with no logic.
- The frontend pages and components (home and friends pages, image loader, navbar, friend card) are presentation and browser I/O and are not part of this model.
- A conflict error for a race detected by the store does not exist in the controller and is not modelled. An unknown recipient is answered with 400 "Recipient not found" (not 404), and the model follows the controller.
