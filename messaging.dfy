/** The Firebase Cloud Messaging gateway, seen from the server: the calls it
    receives and the replies it gives. What the gateway does with a call is not
    modelled; a handler is given the gateway as a function from call to reply. */
module Messaging {

  /** What `send` or `sendMulticast` resolves to; its contents are opaque. */
  datatype Receipt = Receipt(id: string)

  /** One call issued to the gateway, carrying the notification `{title, body}`. */
  datatype Call =
    | Send(token: string, title: string, body: string)
    | SendMulticast(tokens: seq<string>, title: string, body: string)

  /** The gateway either resolves with a receipt or rejects with an error message. */
  datatype GatewayReply = Delivered(receipt: Receipt) | Failed(message: string)
}
