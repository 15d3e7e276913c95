/** The two HTTP handlers of the notification server: the decisions each makes
    between reading the JSON body and replying. */
module Server {
  import opened Wrappers
  import opened Firestore
  import opened Messaging
  import opened TokenCollection

  const MissingFields: string := "Missing fields"
  const UserNotFound: string := "User not found"
  const TokenNotFound: string := "FCM token not found in Firestore"
  const CircleFieldsRequired: string := "circleCode, title, body, and senderUid are required"
  const NoMembers: string := "No members found in this circle"
  const NoOtherMembers: string := "No other monitoring users found"

  /** The JSON body of `POST /send-notification`. */
  datatype SendRequest = SendRequest(userId: Option<string>, title: Option<string>, body: Option<string>)

  /** The JSON body of `POST /notify-circle-members`. */
  datatype CircleRequest = CircleRequest(
    circleCode: Option<string>, title: Option<string>, body: Option<string>, senderUid: Option<string>)

  /** The reply a handler sends: its JSON body, with the status code below. */
  datatype Outcome =
    | BadRequest(error: string)       // 400 {error}
    | NotFound(error: string)         // 404 {error}
    | Message(message: string)        // 200 {message}
    | Success(response: Receipt)      // 200 {success: true, response}
    | InternalError(error: string)    // 500 {error: error.message}
  {
    function Status(): (code: int)
      ensures code in {200, 400, 404, 500}
      ensures code == 200 <==> Message? || Success?
    {
      match this
      case BadRequest(_) => 400
      case NotFound(_) => 404
      case Message(_) => 200
      case Success(_) => 200
      case InternalError(_) => 500
    }
  }

  /** What one request does: the reply, and the gateway calls issued on the way. */
  datatype Handled = Handled(outcome: Outcome, calls: seq<Call>)

  /** Issue `call` and reply with the gateway's receipt, or with 500 and the
      gateway's error message when the call rejects. */
  function Dispatch(call: Call, gateway: Call -> GatewayReply): (h: Handled)
    ensures h.calls == [call]
    ensures gateway(call).Delivered? ==> h.outcome == Success(gateway(call).receipt)
    ensures gateway(call).Failed? ==> h.outcome == InternalError(gateway(call).message)
  {
    match gateway(call)
    case Delivered(receipt) => Handled(Success(receipt), [call])
    case Failed(message) => Handled(InternalError(message), [call])
  }

  /** `POST /send-notification`: notify the single user whose document id is `userId`. */
  function SendNotification(store: Store, req: SendRequest, gateway: Call -> GatewayReply): (h: Handled)
    ensures |h.calls| <= 1
    ensures h.outcome.Status() != 200 && h.outcome.Status() != 500 ==> h.calls == []
    ensures h.outcome.Success? ==> |h.calls| == 1 && gateway(h.calls[0]) == Delivered(h.outcome.response)
    ensures h.calls != [] ==>
              h.calls[0].Send? && Some(h.calls[0].title) == req.title && Some(h.calls[0].body) == req.body
  {
    if !Truthy(req.userId) || !Truthy(req.title) || !Truthy(req.body) then
      Handled(BadRequest(MissingFields), [])
    else
      match store
      case Unavailable(error) => Handled(InternalError(error), [])
      case Available(users) =>
        match Lookup(users, req.userId.value)
        case None => Handled(NotFound(UserNotFound), [])
        case Some(user) =>
          if !Truthy(user.fcmToken) then Handled(NotFound(TokenNotFound), [])
          else Dispatch(Send(user.fcmToken.value, req.title.value, req.body.value), gateway)
  }

  /** `POST /notify-circle-members`: notify the monitoring users of a circle,
      other than the sender, with one multicast. */
  function NotifyCircleMembers(store: Store, req: CircleRequest, gateway: Call -> GatewayReply): (h: Handled)
    ensures |h.calls| <= 1
    ensures h.outcome.Status() != 200 && h.outcome.Status() != 500 ==> h.calls == []
    ensures h.outcome.Message? ==> h.calls == []
    ensures h.outcome.Success? ==> |h.calls| == 1 && gateway(h.calls[0]) == Delivered(h.outcome.response)
    ensures h.calls != [] ==>
              && h.calls[0].SendMulticast? && h.calls[0].tokens != []
              && Some(h.calls[0].title) == req.title && Some(h.calls[0].body) == req.body
  {
    if !Truthy(req.circleCode) || !Truthy(req.title) || !Truthy(req.body) || !Truthy(req.senderUid) then
      Handled(BadRequest(CircleFieldsRequired), [])
    else
      match store
      case Unavailable(error) => Handled(InternalError(error), [])
      case Available(users) =>
        var audience := Audience(users, req.circleCode.value);
        if audience == [] then Handled(Message(NoMembers), [])
        else
          var tokens := Tokens(audience, req.senderUid.value);
          if tokens == [] then Handled(Message(NoOtherMembers), [])
          else Dispatch(SendMulticast(tokens, req.title.value, req.body.value), gateway)
  }

  // ---------------------------------------------------------------------------
  // POST /send-notification

  predicate SendFieldsPresent(req: SendRequest)
  {
    Truthy(req.userId) && Truthy(req.title) && Truthy(req.body)
  }

  /** A request missing any of the three fields is answered 400 whatever the
      store and the gateway hold: nothing is looked up and nothing is sent. */
  lemma {:induction false} SendMissingFields(req: SendRequest, store: Store, gateway: Call -> GatewayReply)
    requires !SendFieldsPresent(req)
    ensures SendNotification(store, req, gateway) == Handled(BadRequest(MissingFields), [])
    ensures SendNotification(store, req, gateway).outcome.Status() == 400
  {
  }

  /** With the fields present, the reply is 404 "User not found", with no send,
      exactly when the collection holds no document with id `userId`. */
  lemma {:induction false} SendUserNotFound(req: SendRequest, users: seq<Document>, gateway: Call -> GatewayReply)
    requires SendFieldsPresent(req)
    ensures (SendNotification(Available(users), req, gateway) == Handled(NotFound(UserNotFound), []))
              <==> forall i :: 0 <= i < |users| ==> users[i].id != req.userId.value
  {
  }

  /** When the user's document exists but its `fcmToken` is missing or empty,
      the reply is 404 "FCM token not found in Firestore" and nothing is sent. */
  lemma {:induction false} SendTokenNotFound(req: SendRequest, users: seq<Document>, i: nat, gateway: Call -> GatewayReply)
    requires SendFieldsPresent(req) && UniqueIds(users)
    requires i < |users| && users[i].id == req.userId.value
    requires !Truthy(users[i].data.fcmToken)
    ensures SendNotification(Available(users), req, gateway) == Handled(NotFound(TokenNotFound), [])
  {
  }

  /** Otherwise exactly one send is made, to the stored token, with the caller's
      title and body unchanged; the reply is 200 with the gateway's receipt, or
      500 with the gateway's error message. */
  lemma {:induction false} SendDelivers(req: SendRequest, users: seq<Document>, i: nat, gateway: Call -> GatewayReply)
    requires SendFieldsPresent(req) && UniqueIds(users)
    requires i < |users| && users[i].id == req.userId.value
    requires Truthy(users[i].data.fcmToken)
    ensures var call := Send(users[i].data.fcmToken.value, req.title.value, req.body.value);
            var h := SendNotification(Available(users), req, gateway);
            && h.calls == [call]
            && (gateway(call).Delivered? ==> h.outcome == Success(gateway(call).receipt) && h.outcome.Status() == 200)
            && (gateway(call).Failed? ==> h.outcome == InternalError(gateway(call).message) && h.outcome.Status() == 500)
  {
  }

  /** A store read that throws is answered 500 with its message, before any send. */
  lemma {:induction false} SendStoreFailure(req: SendRequest, error: string, gateway: Call -> GatewayReply)
    requires SendFieldsPresent(req)
    ensures SendNotification(Unavailable(error), req, gateway) == Handled(InternalError(error), [])
  {
  }

  // ---------------------------------------------------------------------------
  // POST /notify-circle-members

  predicate CircleFieldsPresent(req: CircleRequest)
  {
    Truthy(req.circleCode) && Truthy(req.title) && Truthy(req.body) && Truthy(req.senderUid)
  }

  /** A request missing any of the four fields is answered 400 before any query,
      whatever the store and the gateway hold. */
  lemma {:induction false} CircleMissingFields(req: CircleRequest, store: Store, gateway: Call -> GatewayReply)
    requires !CircleFieldsPresent(req)
    ensures NotifyCircleMembers(store, req, gateway) == Handled(BadRequest(CircleFieldsRequired), [])
    ensures NotifyCircleMembers(store, req, gateway).outcome.Status() == 400
  {
  }

  /** A circle query that throws is answered 500 with its message, and no
      multicast is made. */
  lemma {:induction false} CircleStoreFailure(req: CircleRequest, error: string, gateway: Call -> GatewayReply)
    requires CircleFieldsPresent(req)
    ensures NotifyCircleMembers(Unavailable(error), req, gateway) == Handled(InternalError(error), [])
  {
  }

  /** With the fields present, the reply is 200 "No members found in this circle",
      with no send, exactly when no document is a monitoring user of the circle. */
  lemma {:induction false} CircleNoMembers(req: CircleRequest, users: seq<Document>, gateway: Call -> GatewayReply)
    requires CircleFieldsPresent(req)
    ensures (NotifyCircleMembers(Available(users), req, gateway) == Handled(Message(NoMembers), []))
              <==> forall i :: 0 <= i < |users| ==> !InCircle(users[i].data, req.circleCode.value)
  {
    AudienceEmptyIff(users, req.circleCode.value);
  }

  /** When the circle has monitoring users but none of them other than the sender
      has a non-empty token, the reply is 200 "No other monitoring users found"
      and nothing is sent. */
  lemma {:induction false} CircleNoOtherMembers(req: CircleRequest, users: seq<Document>, gateway: Call -> GatewayReply)
    requires CircleFieldsPresent(req)
    requires exists i :: 0 <= i < |users| && InCircle(users[i].data, req.circleCode.value)
    requires forall i :: 0 <= i < |users| && InCircle(users[i].data, req.circleCode.value) ==>
               !Contributes(users[i].data, req.senderUid.value)
    ensures NotifyCircleMembers(Available(users), req, gateway) == Handled(Message(NoOtherMembers), [])
  {
    var circle, sender := req.circleCode.value, req.senderUid.value;
    var audience := Audience(users, circle);
    AudienceEmptyIff(users, circle);
    TokensEmptyIff(audience, sender);
    forall k | 0 <= k < |audience| ensures !Contributes(audience[k], sender) {
      AudienceExact(users, circle, audience[k]);
    }
  }

  /** Otherwise exactly one multicast is made, carrying the tokens of the
      contributing monitoring users in snapshot order, with the caller's title and
      body unchanged; the reply is the gateway's receipt or its error message. */
  lemma {:induction false} CircleMulticast(req: CircleRequest, users: seq<Document>, gateway: Call -> GatewayReply)
    requires CircleFieldsPresent(req)
    requires exists i :: 0 <= i < |users| && InCircle(users[i].data, req.circleCode.value)
               && Contributes(users[i].data, req.senderUid.value)
    ensures var tokens := Tokens(Audience(users, req.circleCode.value), req.senderUid.value);
            var call := SendMulticast(tokens, req.title.value, req.body.value);
            var h := NotifyCircleMembers(Available(users), req, gateway);
            && tokens != []
            && h.calls == [call]
            && (gateway(call).Delivered? ==> h.outcome == Success(gateway(call).receipt))
            && (gateway(call).Failed? ==> h.outcome == InternalError(gateway(call).message))
  {
    var circle, sender := req.circleCode.value, req.senderUid.value;
    var i :| 0 <= i < |users| && InCircle(users[i].data, circle) && Contributes(users[i].data, sender);
    var audience := Audience(users, circle);
    AudienceExact(users, circle, users[i].data);
    TokenMembership(audience, sender, users[i].data.fcmToken.value);
  }

  /** Every token in the multicast belongs to a monitoring user of the circle who
      is not the sender and has that non-empty token, and the multicast has no
      more tokens than the circle has monitoring users. */
  lemma {:induction false} MulticastRecipients(req: CircleRequest, users: seq<Document>, gateway: Call -> GatewayReply, t: string)
    requires CircleFieldsPresent(req)
    ensures var h := NotifyCircleMembers(Available(users), req, gateway);
            h.calls != [] ==>
              && |h.calls[0].tokens| <= |Audience(users, req.circleCode.value)|
              && (t in h.calls[0].tokens ==>
                    exists i :: 0 <= i < |users| && InCircle(users[i].data, req.circleCode.value)
                      && users[i].data.uid != req.senderUid && users[i].data.fcmToken == Some(t) && t != "")
  {
    var circle, sender := req.circleCode.value, req.senderUid.value;
    var audience := Audience(users, circle);
    var h := NotifyCircleMembers(Available(users), req, gateway);
    if h.calls != [] {
      if t in h.calls[0].tokens {
        TokenMembership(audience, sender, t);
        var k :| 0 <= k < |audience| && Contributes(audience[k], sender) && audience[k].fcmToken == Some(t);
        AudienceExact(users, circle, audience[k]);
      }
    }
  }
}
