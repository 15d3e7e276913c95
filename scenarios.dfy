/** Concrete requests worked through both handlers. */
module Scenarios {
  import opened Wrappers
  import opened Firestore
  import opened Messaging
  import opened TokenCollection
  import opened Server

  /** A user document with every field present. */
  function Member(id: string, uid: string, circle: string, token: Option<string>): Document
  {
    Document(id, UserData(Some(uid), Some(circle), Some(MonitoringRole), token))
  }

  /** User "u1" holds token "T1": the direct send goes to "T1" with the
      caller's title and body, and the reply carries the gateway's receipt. */
  lemma {:induction false} DirectSendScenario(gateway: Call -> GatewayReply)
    requires gateway(Send("T1", "Hi", "Hello")) == Delivered(Receipt("m1"))
    ensures SendNotification(Available([Member("u1", "u1", "G1", Some("T1"))]),
                             SendRequest(Some("u1"), Some("Hi"), Some("Hello")), gateway)
            == Handled(Success(Receipt("m1")), [Send("T1", "Hi", "Hello")])
  {
  }

  /** Circle "G1" holds the sender, a member with an empty token and a member
      with token "T3"; a member of another circle also holds a token. Only "T3"
      is multicast. */
  lemma {:induction false} CircleScenario(gateway: Call -> GatewayReply)
    ensures var users := [Member("d1", "s", "G1", Some("T1")), Member("d2", "a", "G1", Some("")),
                          Member("d3", "b", "G1", Some("T3")), Member("d4", "c", "G2", Some("T4"))];
            NotifyCircleMembers(Available(users), CircleRequest(Some("G1"), Some("Hi"), Some("Hello"), Some("s")), gateway).calls
            == [SendMulticast(["T3"], "Hi", "Hello")]
  {
    var users := [Member("d1", "s", "G1", Some("T1")), Member("d2", "a", "G1", Some("")),
                  Member("d3", "b", "G1", Some("T3")), Member("d4", "c", "G2", Some("T4"))];
    var audience := [users[0].data, users[1].data, users[2].data];
    assert Audience(users[..1], "G1") == [users[0].data];
    assert users[..2][..1] == users[..1];
    assert Audience(users[..2], "G1") == [users[0].data, users[1].data];
    assert users[..3][..2] == users[..2];
    assert Audience(users[..3], "G1") == audience;
    assert Audience(users, "G1") == audience;
    assert Tokens(audience[..1], "s") == [];
    assert Tokens(audience[..2], "s") == [];
    assert Tokens(audience, "s") == ["T3"];
  }

  /** Two members sharing one token both contribute it: the list is not deduplicated. */
  lemma {:induction false} DuplicateTokensKept(gateway: Call -> GatewayReply)
    ensures var users := [Member("d1", "a", "G1", Some("T")), Member("d2", "b", "G1", Some("T"))];
            NotifyCircleMembers(Available(users), CircleRequest(Some("G1"), Some("Hi"), Some("Hello"), Some("s")), gateway).calls
            == [SendMulticast(["T", "T"], "Hi", "Hello")]
  {
    var users := [Member("d1", "a", "G1", Some("T")), Member("d2", "b", "G1", Some("T"))];
    var audience := [users[0].data, users[1].data];
    assert Audience(users[..1], "G1") == [users[0].data];
    assert Audience(users, "G1") == audience;
    assert Tokens(audience[..1], "s") == ["T"];
    assert Tokens(audience, "s") == ["T", "T"];
  }
}
