/** The `users` collection of Firestore, as the two handlers read it. */
module Firestore {
  import opened Wrappers

  /** The role a member must hold to be notified by the circle handler. */
  const MonitoringRole: string := "Monitoring User"

  /** The fields of a user document that the handlers read; any may be missing. */
  datatype UserData = UserData(
    uid: Option<string>,
    joinedCircleCode: Option<string>,
    role: Option<string>,
    fcmToken: Option<string>)

  /** A document of the `users` collection: its document id and its data. The
      document id is what `doc(userId)` addresses; it is unrelated to the `uid`
      field inside the data. */
  datatype Document = Document(id: string, data: UserData)

  /** The store as a handler sees it: either the collection, in the order a
      query snapshot enumerates it, or a read that throws with an error message. */
  datatype Store = Available(users: seq<Document>) | Unavailable(error: string)

  /** Firestore never holds two documents with the same id in one collection. */
  predicate UniqueIds(users: seq<Document>)
  {
    forall i, j :: 0 <= i < j < |users| ==> users[i].id != users[j].id
  }

  /** `collection("users").doc(id).get()`: the data of the document with that id,
      or None when the document does not exist. */
  function Lookup(users: seq<Document>, id: string): (r: Option<UserData>)
    ensures r.None? <==> forall i :: 0 <= i < |users| ==> users[i].id != id
    ensures r.Some? ==> exists i :: 0 <= i < |users| && users[i].id == id && users[i].data == r.value
  {
    if users == [] then None
    else if users[0].id == id then Some(users[0].data)
    else
      var r := Lookup(users[1..], id);
      assert forall i :: 1 <= i < |users| ==> users[i] == users[1..][i - 1];
      assert r.Some? ==> exists i :: 1 <= i < |users| && users[i].id == id && users[i].data == r.value by {
        if r.Some? {
          var k :| 0 <= k < |users[1..]| && users[1..][k].id == id && users[1..][k].data == r.value;
          assert users[k + 1] == users[1..][k];
        }
      }
      r
  }

  /** In a store with unique ids, looking up a document's id yields that document's data. */
  lemma {:induction false} LookupFindsDocument(users: seq<Document>, i: nat)
    requires UniqueIds(users)
    requires i < |users|
    ensures Lookup(users, users[i].id) == Some(users[i].data)
  {
  }

  /** The filter of the circle query: `joinedCircleCode == circleCode` and
      `role == "Monitoring User"`. */
  predicate InCircle(u: UserData, circleCode: string)
  {
    u.joinedCircleCode == Some(circleCode) && u.role == Some(MonitoringRole)
  }

  /** The data of the documents returned by the circle query, in snapshot
      order; defined on prefixes so that it follows the collection one document
      at a time. */
  function Audience(users: seq<Document>, circleCode: string): (r: seq<UserData>)
    ensures |r| <= |users|
    ensures forall k :: 0 <= k < |r| ==> InCircle(r[k], circleCode)
  {
    if users == [] then []
    else
      var n := |users| - 1;
      var rest := Audience(users[..n], circleCode);
      if InCircle(users[n].data, circleCode) then rest + [users[n].data] else rest
  }

  /** The positions of the documents that the circle query returns. */
  function Matching(users: seq<Document>, circleCode: string): (r: seq<nat>)
    ensures forall k :: 0 <= k < |r| ==> r[k] < |users|
  {
    if users == [] then []
    else
      var n := |users| - 1;
      var rest := Matching(users[..n], circleCode);
      if InCircle(users[n].data, circleCode) then rest + [n] else rest
  }

  /** A position is listed exactly when its document passes the query filter,
      and the positions are strictly increasing: each matching document is
      returned once, in collection order. */
  lemma {:induction false} MatchingExact(users: seq<Document>, circleCode: string)
    ensures forall i :: 0 <= i < |users| ==>
              (i in Matching(users, circleCode) <==> InCircle(users[i].data, circleCode))
    ensures forall j, k :: 0 <= j < k < |Matching(users, circleCode)| ==>
              Matching(users, circleCode)[j] < Matching(users, circleCode)[k]
  {
    if users != [] {
      var n := |users| - 1;
      MatchingExact(users[..n], circleCode);
      assert forall i :: 0 <= i < n ==> users[..n][i] == users[i];
    }
  }

  /** The k-th entry of the query result is the data of the k-th matching
      document: documents with equal data each give their own entry. */
  lemma {:induction false} AudienceOfMatching(users: seq<Document>, circleCode: string)
    ensures |Audience(users, circleCode)| == |Matching(users, circleCode)|
    ensures forall k :: 0 <= k < |Audience(users, circleCode)| ==>
              Audience(users, circleCode)[k] == users[Matching(users, circleCode)[k]].data
  {
    if users != [] {
      var n := |users| - 1;
      AudienceOfMatching(users[..n], circleCode);
    }
  }

  /** Every document that satisfies the query filter is in the audience, and
      nothing else is: the audience is exactly the monitoring users of the circle. */
  lemma {:induction false} AudienceExact(users: seq<Document>, circleCode: string, u: UserData)
    ensures u in Audience(users, circleCode) <==>
              exists i :: 0 <= i < |users| && users[i].data == u && InCircle(u, circleCode)
  {
    var audience, ms := Audience(users, circleCode), Matching(users, circleCode);
    AudienceOfMatching(users, circleCode);
    MatchingExact(users, circleCode);
    if u in audience {
      var k :| 0 <= k < |audience| && audience[k] == u;
      assert users[ms[k]].data == u;
    }
    if exists i :: 0 <= i < |users| && users[i].data == u && InCircle(u, circleCode) {
      var i :| 0 <= i < |users| && users[i].data == u && InCircle(u, circleCode);
      var k :| 0 <= k < |ms| && ms[k] == i;
      assert audience[k] == u;
    }
  }

  /** The query returns an empty snapshot exactly when no document of the
      collection is a monitoring user of the circle. */
  lemma {:induction false} AudienceEmptyIff(users: seq<Document>, circleCode: string)
    ensures Audience(users, circleCode) == [] <==>
              forall i :: 0 <= i < |users| ==> !InCircle(users[i].data, circleCode)
  {
    AudienceOfMatching(users, circleCode);
    MatchingExact(users, circleCode);
    if Audience(users, circleCode) != [] {
      assert InCircle(users[Matching(users, circleCode)[0]].data, circleCode);
    }
  }
}
