/** Collecting the push tokens of a circle's audience, skipping the sender
    and every member without a token. */
module TokenCollection {
  import opened Wrappers
  import opened Firestore

  /** A member contributes a token when its `uid` is not the sender's (a missing
      `uid` never equals the sender's) and its `fcmToken` is truthy. */
  predicate Contributes(u: UserData, senderUid: string)
  {
    u.uid != Some(senderUid) && Truthy(u.fcmToken)
  }

  /** The tokens the loop collects from `members`, defined on prefixes so that it
      follows the loop one member at a time. */
  function Tokens(members: seq<UserData>, senderUid: string): (r: seq<string>)
    ensures |r| <= |members|
    ensures forall k :: 0 <= k < |r| ==> r[k] != ""
  {
    if members == [] then []
    else
      var n := |members| - 1;
      var rest := Tokens(members[..n], senderUid);
      if Contributes(members[n], senderUid) then rest + [members[n].fcmToken.value] else rest
  }

  /** The positions of the contributing members, in increasing order. */
  function Contributors(members: seq<UserData>, senderUid: string): (r: seq<nat>)
    ensures forall k :: 0 <= k < |r| ==> r[k] < |members|
  {
    if members == [] then []
    else
      var n := |members| - 1;
      var rest := Contributors(members[..n], senderUid);
      if Contributes(members[n], senderUid) then rest + [n] else rest
  }

  /** A position is listed exactly when the member there contributes, and the
      positions are strictly increasing: each contributor appears once, in
      audience order. */
  lemma {:induction false} ContributorsExact(members: seq<UserData>, senderUid: string)
    ensures forall i :: 0 <= i < |members| ==>
              (i in Contributors(members, senderUid) <==> Contributes(members[i], senderUid))
    ensures forall j, k :: 0 <= j < k < |Contributors(members, senderUid)| ==>
              Contributors(members, senderUid)[j] < Contributors(members, senderUid)[k]
  {
    if members != [] {
      var n := |members| - 1;
      ContributorsExact(members[..n], senderUid);
      assert forall i :: 0 <= i < n ==> members[..n][i] == members[i];
    }
  }

  /** The k-th collected token is the token of the k-th contributor: one token
      per contributing member, in audience order, duplicates kept. */
  lemma {:induction false} TokensOfContributors(members: seq<UserData>, senderUid: string)
    ensures |Tokens(members, senderUid)| == |Contributors(members, senderUid)|
    ensures forall k :: 0 <= k < |Tokens(members, senderUid)| ==>
              members[Contributors(members, senderUid)[k]].fcmToken == Some(Tokens(members, senderUid)[k])
  {
    if members != [] {
      var n := |members| - 1;
      TokensOfContributors(members[..n], senderUid);
    }
  }

  /** Every collected token is the non-empty token of a member other than the
      sender, and every such member's token is collected. */
  lemma {:induction false} TokenMembership(members: seq<UserData>, senderUid: string, t: string)
    ensures t in Tokens(members, senderUid) <==>
              exists i :: 0 <= i < |members| && Contributes(members[i], senderUid) && members[i].fcmToken == Some(t)
  {
    var toks, cs := Tokens(members, senderUid), Contributors(members, senderUid);
    TokensOfContributors(members, senderUid);
    ContributorsExact(members, senderUid);
    if t in toks {
      var k :| 0 <= k < |toks| && toks[k] == t;
      assert Contributes(members[cs[k]], senderUid);
    }
    if exists i :: 0 <= i < |members| && Contributes(members[i], senderUid) && members[i].fcmToken == Some(t) {
      var i :| 0 <= i < |members| && Contributes(members[i], senderUid) && members[i].fcmToken == Some(t);
      var k :| 0 <= k < |cs| && cs[k] == i;
      assert toks[k] == t;
    }
  }

  /** No token is collected exactly when no member contributes. */
  lemma {:induction false} TokensEmptyIff(members: seq<UserData>, senderUid: string)
    ensures Tokens(members, senderUid) == [] <==>
              forall i :: 0 <= i < |members| ==> !Contributes(members[i], senderUid)
  {
    TokensOfContributors(members, senderUid);
    ContributorsExact(members, senderUid);
    if Tokens(members, senderUid) != [] {
      assert Contributes(members[Contributors(members, senderUid)[0]], senderUid);
    }
  }

  /** The `forEach` over the query snapshot that pushes each qualifying token
      onto `tokens`. */
  method CollectTokens(snapshot: seq<UserData>, senderUid: string) returns (tokens: seq<string>)
    ensures tokens == Tokens(snapshot, senderUid)
  {
    tokens := [];
    var i := 0;
    while i < |snapshot|
      invariant 0 <= i <= |snapshot|
      invariant tokens == Tokens(snapshot[..i], senderUid)
    {
      var userData := snapshot[i];
      if userData.uid != Some(senderUid) && Truthy(userData.fcmToken) {
        tokens := tokens + [userData.fcmToken.value];
      }
      assert snapshot[..i + 1][..i] == snapshot[..i];
      i := i + 1;
    }
    assert snapshot[..i] == snapshot;
  }
}
