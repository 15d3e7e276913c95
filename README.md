# Push-notification server: request handling model

This project models the decision logic of a small Express server that sends
Firebase Cloud Messaging (FCM) push notifications. The server reads a `users`
collection in Firestore. It has two handlers:

- `POST /send-notification` takes `{userId, title, body}`. It checks that all
  three fields are present, reads the user document whose id is `userId`, and
  requires the document to hold a truthy `fcmToken`. It then sends `{title, body}`
  to that one token.
- `POST /notify-circle-members` takes `{circleCode, title, body, senderUid}`. It
  queries the users of the circle whose role is `"Monitoring User"`. It collects,
  in snapshot order, the `fcmToken` of every such user whose `uid` is not the
  sender's and whose token is truthy. It sends one multicast to those tokens.

Each handler is a function from the store contents, the request body and the
gateway to a `Handled` value. That value holds the reply (status code and JSON
body) and the list of gateway calls the request issued, so "nothing is sent"
reads as `calls == []`. The token-collecting `forEach` loop is also an imperative
method, `CollectTokens`, proved equal to the `Tokens` function the handler uses.

Files:

- `wrappers.dfy`: `Option` and JavaScript truthiness of an optional string.
- `messaging.dfy`: gateway calls (`Send`, `SendMulticast`) and replies.
- `firestore.dfy`: user documents, the store, lookup by document id, and the
  circle query.
- `tokens.dfy`: the token-collection loop and its specification.
- `server.dfy`: the two handlers, the reply type and the per-branch lemmas.
- `scenarios.dfy`: concrete requests worked through the handlers.

Modelling choices:

- The store is one sequence of documents, each with its document id and data.
  `doc(userId).get()` is `Lookup` by document id. The circle query is `Audience`,
  which keeps the query snapshot's order. The document id and the `uid` field are
  kept apart, as in the code: the direct handler addresses documents by id, and
  the circle handler compares the `uid` field with `senderUid`.
- A store read that throws is the `Unavailable(error)` store. Both handlers
  answer it with 500 and the error's message.
- The gateway is a parameter `Call -> GatewayReply`. A rejected call becomes
  500 with the gateway's message.
- Request fields and document fields are `Option<string>`. JavaScript's `!x`
  is modelled as "missing or the empty string".

The model covers only what the code does. The code reads tokens only from the
user document's `fcmToken` field; it has no secondary token store, no location
enrichment, no admin-derived or role-only groups, and no per-recipient result
list. The circle handler answers with the multicast receipt as a whole.

## Model

| member | source | states |
|---|---|---|
| `Firestore.Lookup` | server.js:34-35 | reading a document id finds a document exactly when one has that id, and returns the data of a document with that id |
| `Firestore.LookupFindsDocument` | server.js:34 | with unique document ids, reading a document's id returns exactly that document's data |
| `Wrappers.Truthy` | server.js:29 | a string field is falsy, as `!x` tests it at server.js:29, 41, 67 and 89, exactly when it is missing or the empty string |
| `Firestore.InCircle` | server.js:77-78 | (definition, no contract) the query filter: `joinedCircleCode` equals the circle code and `role` equals "Monitoring User" |
| `Firestore.Audience` | server.js:75-79 | the query returns no more documents than the collection holds, and every one has `joinedCircleCode == circleCode` and `role == "Monitoring User"` |
| `Firestore.Matching` | server.js:75-79 | the positions of the documents the query returns are positions of the collection |
| `Firestore.MatchingExact` | server.js:75-79 | a position is listed if and only if its document passes the filter; positions are strictly increasing, so each matching document is returned once, in collection order |
| `Firestore.AudienceOfMatching` | server.js:75-79 | the query result has one entry per matching document, and its k-th entry is the data of the k-th matching document, so documents with equal data each give an entry |
| `Firestore.AudienceExact` | server.js:75-79 | a user is in the query result if and only if some document with that data is a monitoring user of the circle |
| `Firestore.AudienceEmptyIff` | server.js:75-81 | the snapshot is empty if and only if no document is a monitoring user of the circle |
| `TokenCollection.Contributes` | server.js:89 | (definition, no contract) the test of the loop: the member's `uid` is not the sender's (a missing `uid` never equals it) and its `fcmToken` is truthy |
| `TokenCollection.Tokens` | server.js:86-92 | the list the loop builds is no longer than the snapshot, and every entry is a non-empty token |
| `TokenCollection.Contributors` | server.js:87-89 | the positions of contributing members are positions of the snapshot |
| `TokenCollection.ContributorsExact` | server.js:87-91 | a position is listed if and only if that member is not the sender and has a non-empty token; positions are strictly increasing, so each contributor appears once, in snapshot order |
| `TokenCollection.TokensOfContributors` | server.js:86-92 | the collected list has one entry per contributing member, and its k-th entry is the token of the k-th contributor |
| `TokenCollection.TokenMembership` | server.js:89-90 | a token is collected if and only if some member other than the sender holds it as a non-empty `fcmToken` |
| `TokenCollection.TokensEmptyIff` | server.js:86-94 | no token is collected if and only if no member contributes one |
| `TokenCollection.CollectTokens` | server.js:86-92 | the loop over the snapshot leaves in `tokens` exactly the list `Tokens` specifies |
| `Server.Outcome.Status` | server.js:29-56 | every reply has status 200, 400, 404 or 500; it is 200 exactly for a message reply or a success reply |
| `Server.Dispatch` | server.js:50-56 | issuing a gateway call records exactly that call; the reply is success with the gateway's receipt when it delivers, and 500 with the gateway's message when it fails |
| `Server.SendNotification` | server.js:26-58 | at most one call is issued; a 400 or 404 reply issues none; a success reply carries the receipt the gateway gave for its call; any call is a single `send` carrying the caller's title and body |
| `Server.NotifyCircleMembers` | server.js:64-111 | at most one call is issued; a 400, 404 or message reply issues none; a success reply carries the gateway's receipt; any call is one multicast with a non-empty token list and the caller's title and body |
| `Server.SendMissingFields` | server.js:29-31 | a request missing `userId`, `title` or `body`, or with one empty, is answered 400 "Missing fields" with no call, whatever the store and gateway |
| `Server.SendUserNotFound` | server.js:34-37 | with the fields present, the reply is 404 "User not found" with no call if and only if no document has id `userId` |
| `Server.SendTokenNotFound` | server.js:39-43 | an existing user without a non-empty `fcmToken` gets 404 "FCM token not found in Firestore" and no call |
| `Server.SendDelivers` | server.js:45-56 | otherwise exactly one `send` is made, to the stored token, with the title and body unchanged; the reply is 200 with the receipt, or 500 with the gateway's message |
| `Server.SendStoreFailure` | server.js:54-56 | a store read that throws is answered 500 with its message and no call |
| `Server.CircleMissingFields` | server.js:67-71 | a request missing any of `circleCode`, `title`, `body`, `senderUid` is answered 400 with no call, whatever the store and gateway |
| `Server.CircleStoreFailure` | server.js:107-110 | with the fields present, a circle query that throws is answered 500 with its message and no multicast |
| `Server.CircleNoMembers` | server.js:75-83 | with the fields present, the reply is 200 "No members found in this circle" with no call if and only if the circle has no monitoring user |
| `Server.CircleNoOtherMembers` | server.js:86-96 | when the circle has monitoring users but none other than the sender has a non-empty token, the reply is 200 "No other monitoring users found" with no call |
| `Server.CircleMulticast` | server.js:94-110 | when some monitoring user other than the sender has a non-empty token, exactly one multicast is made, carrying the collected tokens and the unchanged title and body; the reply is the receipt or 500 with the gateway's message |
| `Server.MulticastRecipients` | server.js:86-104 | every multicast token belongs to a monitoring user of the circle who is not the sender, and the list is no longer than the audience |
| `Scenarios.DirectSendScenario` | server.js:45-52 | user "u1" with token "T1" gets exactly `send("T1", "Hi", "Hello")` and the reply carries its receipt |
| `Scenarios.CircleScenario` | server.js:86-104 | of a sender, a member with an empty token, a member with "T3" and a member of another circle, only "T3" is multicast |
| `Scenarios.DuplicateTokensKept` | server.js:86-92 | two members sharing one token put it in the multicast twice |

## Left out

- Credential parsing, the private-key newline replacement and Firebase initialisation (server.js:1-18): configuration I/O.
- Express setup, JSON body parsing and `app.listen` (server.js:20-21, 113-117): transport. A request declared as JSON whose body does not parse is rejected by the JSON parser with its own 400 before either handler runs; that reply is not modelled. A request with another content type reaches a handler with an empty body, which the model covers as a missing-fields request.
- Logging with `console.log` and `console.error`: no effect on replies.
- async/await scheduling: each handler runs its steps in order and the model is sequential.
- The internals of Firestore and FCM: the store is given data, and a failed read is an abstract error message. The contents of the multicast response, including per-token results, are an opaque receipt.
- Document paths inside `userId`: `doc(userId)` treats `/` as a path separator. A `userId` that yields an odd number of path segments (such as `a/b`) makes the library throw, which the code answers with 500. A `userId` such as `a/devices/b` addresses a document in a subcollection, and the code reads that document and sends to its `fcmToken`. The model treats every `userId` as a plain document id of the `users` collection, so it answers both cases by the lookup in that collection alone.
- FCM's own limits on multicast (such as the maximum number of tokens per call): a rejected multicast is simply a `Failed` gateway reply.
- Non-string field values: JSON fields that are numbers, booleans or objects are not modelled. Their JavaScript truthiness and equality with strings would differ from the model's strings.
