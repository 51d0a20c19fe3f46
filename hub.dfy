/**
 * `AspHub`, the Web PubSub event handler: a user event gets a fixed
 * greeting that echoes the user, the event name and the text data.
 */
module Hub {
  import opened Text
  import Protocol

  /** The connection context of a request. */
  datatype ConnectionContext = ConnectionContext(userId: string, eventName: string)

  /** A user event: its context and its data, `data` being the payload's `ToString()`. */
  datatype UserEventRequest = UserEventRequest(context: ConnectionContext, dataType: Protocol.DataType, data: string)

  /** Text payloads are echoed; any other data type shows as the empty string. */
  function EchoedData(request: UserEventRequest): string {
    if request.dataType == Protocol.Text then request.data else ""
  }

  /** The reply `OnMessageReceivedAsync` creates. */
  function MessageReply(request: UserEventRequest): string {
    "Hello user " + request.context.userId + " from server. Got your event "
      + request.context.eventName + " with data " + EchoedData(request)
  }

  /** The reply names the user first and ends with the echoed data. */
  lemma ReplyShape(request: UserEventRequest)
    ensures StartsWith(MessageReply(request), "Hello user " + request.context.userId + " from server.")
    ensures var d := EchoedData(request); var r := MessageReply(request);
      |d| <= |r| && r[|r| - |d|..] == d
    ensures var r := MessageReply(request);
      request.dataType != Protocol.Text ==> |r| >= 11 && r[|r| - 11..] == " with data "
  {
    var r := MessageReply(request);
    var head := "Hello user " + request.context.userId + " from server.";
    assert r[..|head|] == head;
  }

  /** Two text events from the same context get the same reply only when their data agree. */
  lemma ReplyDeterminesData(context: ConnectionContext, d1: string, d2: string)
    requires MessageReply(UserEventRequest(context, Protocol.Text, d1)) == MessageReply(UserEventRequest(context, Protocol.Text, d2))
    ensures d1 == d2
  {
    var head := "Hello user " + context.userId + " from server. Got your event " + context.eventName + " with data ";
    var r1, r2 := MessageReply(UserEventRequest(context, Protocol.Text, d1)), MessageReply(UserEventRequest(context, Protocol.Text, d2));
    assert r1 == head + d1 && r2 == head + d2;
    assert r1[|head|..] == d1 && r2[|head|..] == d2;
  }
}
