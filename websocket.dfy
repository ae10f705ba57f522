/** The realtime chat multiplexer: one STOMP connection, one broadcast
    subscription on `/sub/receiveMessage`, and a registry of per-room
    handlers that inbound frames are routed to by their room id.

    The STOMP client is a value (`StompClient`) held in an optional field;
    every call this service makes into it is appended to `calls`, so that
    "a broker subscription is opened" is a statement about that trace.
    Handlers and broker subscriptions are opaque tokens. */
module WebSocket {
  import opened Js

  const SubscribeDestination := "/sub/receiveMessage"
  const PublishDestination := "/pub/receiveMessage"

  const NoClientText := "WebSocket 클라이언트가 초기화되지 않았습니다."
  const NotConnectedText := "WebSocket이 연결되지 않았습니다. 먼저 연결을 시도해주세요."
  const InactiveText := "STOMP 클라이언트가 활성화되지 않았습니다."
  const StompErrorDefault := "STOMP 연결 에러"

  /** A chat message as `JSON.parse` yields it; the room id may come under
      `roomId` or `chatRoomId`, as a number or a string. */
  datatype ChatMessage = ChatMessage(
    id: Option<string>,
    senderId: JsValue,
    senderName: string,
    senderEmail: string,
    content: string,
    timestamp: string,
    roomId: JsValue,
    chatRoomId: JsValue,
    messageType: Option<string>)

  /** What a consumer hands to `sendMessage`: a chat message without id and timestamp. */
  datatype OutgoingMessage = OutgoingMessage(
    senderId: JsValue,
    senderName: string,
    senderEmail: string,
    content: string,
    roomId: JsValue,
    chatRoomId: JsValue,
    messageType: Option<string>)

  /** The body published to the backend. `senderId == None` is NaN, which
      `JSON.stringify` writes as null. */
  datatype MessageDto = MessageDto(
    senderId: Option<int>,
    senderName: string,
    senderEmail: string,
    content: string,
    chatRoomId: int)

  /** A per-room callback, known only by its identity. */
  datatype Handler = Handler(id: nat)

  /** A broker subscription: the client that opened it and its id there. */
  datatype Subscription = Subscription(client: nat, id: nat)

  /** The STOMP client: its identity, whether it is active, and the counter
      it numbers its subscriptions with. */
  datatype StompClient = StompClient(handle: nat, active: bool, nextSubId: nat)

  /** A call this service makes into the STOMP library, or the closing of a
      client's socket, which the library reports through `onWebSocketClose`. */
  datatype StompCall =
    | Activate(client: nat, userEmail: string)
    | Deactivate(client: nat)
    | Closed(client: nat)
    | Subscribe(sub: Subscription, destination: string)
    | Unsubscribe(sub: Subscription)
    | Publish(client: nat, destination: string, body: MessageDto)

  /** The three ways `sendMessage` throws, in the order it checks them. */
  datatype SendError = NoClient | NotConnected | Inactive {
    function Text(): string
    {
      match this
      case NoClient => NoClientText
      case NotConnected => NotConnectedText
      case Inactive => InactiveText
    }
  }

  /** Which guard failed can be told from the message of the thrown error. */
  lemma SendErrorTextsDistinct(e1: SendError, e2: SendError)
    ensures e1.Text() == e2.Text() ==> e1 == e2
  {
  }

  /** What `sendMessage` does: publishes a DTO, or throws an `Error` with
      the given message. */
  datatype SendResult = Sent(dto: MessageDto) | Thrown(message: string)

  /** What the promise returned by `connect` is rejected with. */
  datatype ConnectError = StompError(message: string) | TransportError(cause: string)

  /** What the dispatch closure does with one inbound frame. */
  datatype Dispatch =
    | Delivered(handler: Handler, message: ChatMessage)
    | NoHandler(key: Option<int>)
    | NoRoomId(message: ChatMessage)
    | ParseFailed

  /** Effect of one library call on the set of open broker subscriptions:
      a deactivated client or a closed socket ends all of its client's
      subscriptions. */
  function Step(open: set<Subscription>, c: StompCall): (r: set<Subscription>)
    ensures c.Subscribe? ==> r == open + {c.sub}
    ensures c.Unsubscribe? ==> r == open - {c.sub}
    ensures c.Deactivate? || c.Closed? ==> r <= open && forall s :: s in r ==> s.client != c.client
    ensures c.Deactivate? || c.Closed? ==> forall s :: s in open && s.client != c.client ==> s in r
    ensures c.Activate? || c.Publish? ==> r == open
  {
    match c
    case Subscribe(s, _) => open + {s}
    case Unsubscribe(s) => open - {s}
    case Deactivate(h) => set s | s in open && s.client != h
    case Closed(h) => set s | s in open && s.client != h
    case _ => open
  }

  /** Broker subscriptions opened along `calls` and not yet unsubscribed or
      ended by their client's socket closing. */
  ghost function OpenSubscriptions(calls: seq<StompCall>): set<Subscription>
  {
    if calls == [] then {} else Step(OpenSubscriptions(calls[..|calls| - 1]), calls[|calls| - 1])
  }

  lemma OpenAfterCall(calls: seq<StompCall>, c: StompCall)
    ensures OpenSubscriptions(calls + [c]) == Step(OpenSubscriptions(calls), c)
  {
    assert (calls + [c])[..|calls|] == calls;
  }

  function Members(o: Option<Subscription>): set<Subscription>
  {
    if o.Some? then {o.value} else {}
  }

  /** Once the socket of the client that holds the only open subscription
      closes, a new connection opens nothing by itself: no subscription is
      left on which a frame could arrive. */
  lemma CloseThenReconnect(calls: seq<StompCall>, g: Subscription, handle: nat, userEmail: string)
    requires OpenSubscriptions(calls) <= {g}
    ensures OpenSubscriptions(calls + [Closed(g.client), Activate(handle, userEmail)]) == {}
  {
    OpenAfterCall(calls, Closed(g.client));
    OpenAfterCall(calls + [Closed(g.client)], Activate(handle, userEmail));
    assert calls + [Closed(g.client)] + [Activate(handle, userEmail)] == calls + [Closed(g.client), Activate(handle, userEmail)];
  }

  /** The room id a frame is routed by: `roomId || chatRoomId`. */
  function RoomIdOf(m: ChatMessage): JsValue
  {
    Or(m.roomId, m.chatRoomId)
  }

  /** The dispatch closure of `subscribeToChatRoom`, as a function of the
      decoded frame (`None` when `JSON.parse` throws) and of the registry at
      the moment the frame arrives. */
  function Route(parsed: Option<ChatMessage>, handlers: map<int, Handler>, numberOf: string -> Option<int>): (d: Dispatch)
    ensures d.ParseFailed? <==> parsed.None?
    ensures d.NoRoomId? <==> parsed.Some? && !Truthy(parsed.value.roomId) && !Truthy(parsed.value.chatRoomId)
    ensures d.Delivered? <==>
      parsed.Some? && Truthy(RoomIdOf(parsed.value))
      && ToNumber(RoomIdOf(parsed.value), numberOf).Some?
      && ToNumber(RoomIdOf(parsed.value), numberOf).value in handlers
    ensures d.Delivered? ==>
      d.message == parsed.value && d.handler == handlers[ToNumber(RoomIdOf(d.message), numberOf).value]
    ensures d.NoHandler? ==> d.key == ToNumber(RoomIdOf(parsed.value), numberOf)
  {
    match parsed
    case None => ParseFailed
    case Some(m) =>
      var id := RoomIdOf(m);
      if !Truthy(id) then NoRoomId(m)
      else
        var key := ToNumber(id, numberOf);
        if key.Some? && key.value in handlers then Delivered(handlers[key.value], m)
        else NoHandler(key)
  }

  /** Removing one room's handler changes the routing of no frame addressed
      to another room; a frame for the removed room finds no handler. */
  lemma RouteAfterUnsubscribe(parsed: Option<ChatMessage>, handlers: map<int, Handler>, r: int, numberOf: string -> Option<int>)
    ensures parsed.Some? && ToNumber(RoomIdOf(parsed.value), numberOf) != Some(r) ==>
      Route(parsed, handlers - {r}, numberOf) == Route(parsed, handlers, numberOf)
    ensures parsed.Some? && Truthy(RoomIdOf(parsed.value)) && ToNumber(RoomIdOf(parsed.value), numberOf) == Some(r) ==>
      Route(parsed, handlers - {r}, numberOf) == NoHandler(Some(r))
  {
  }

  /** After registering `h` for room `r`, frames for `r` reach `h` and no
      earlier handler, and frames for other rooms are routed as before. */
  lemma RouteAfterSubscribe(parsed: Option<ChatMessage>, handlers: map<int, Handler>, r: int, h: Handler, numberOf: string -> Option<int>)
    ensures parsed.Some? && Truthy(RoomIdOf(parsed.value)) && ToNumber(RoomIdOf(parsed.value), numberOf) == Some(r) ==>
      Route(parsed, handlers[r := h], numberOf) == Delivered(h, parsed.value)
    ensures parsed.Some? && ToNumber(RoomIdOf(parsed.value), numberOf) != Some(r) ==>
      Route(parsed, handlers[r := h], numberOf) == Route(parsed, handlers, numberOf)
  {
  }

  /** Preconditions of `sendMessage`, checked in the source's order. */
  function CheckSend(client: Option<StompClient>, isConnected: bool): (r: Option<SendError>)
    ensures r.None? <==> client.Some? && isConnected && client.value.active
    ensures client.None? ==> r == Some(NoClient)
    ensures client.Some? && !isConnected ==> r == Some(NotConnected)
    ensures client.Some? && isConnected && !client.value.active ==> r == Some(Inactive)
  {
    if client.None? then Some(NoClient)
    else if !isConnected then Some(NotConnected)
    else if !client.value.active then Some(Inactive)
    else None
  }

  /** The backend DTO built from a consumer's message for room `roomId`:
      the target room, the sender's fields as given, and the sender id as
      `Number(...)` makes it. */
  function ToDto(roomId: int, m: OutgoingMessage, numberOf: string -> Option<int>): (dto: MessageDto)
    ensures dto.chatRoomId == roomId
    ensures dto.senderName == m.senderName && dto.senderEmail == m.senderEmail && dto.content == m.content
    ensures dto.senderId == ToNumber(m.senderId, numberOf)
  {
    MessageDto(ToNumber(m.senderId, numberOf), m.senderName, m.senderEmail, m.content, roomId)
  }

  /** A numeric sender id is kept, a string one is converted, and the
      message's own room ids and type never reach the DTO. */
  lemma DtoNormalised(roomId: int, m: OutgoingMessage, numberOf: string -> Option<int>)
    ensures var dto := ToDto(roomId, m, numberOf);
      && (m.senderId.Num? ==> dto.senderId == Some(m.senderId.n))
      && (m.senderId.Str? ==> dto.senderId == numberOf(m.senderId.s))
      && ToDto(roomId, m.(roomId := Undefined, chatRoomId := Undefined, messageType := None), numberOf) == dto
  {
  }

  /** The frame the broker fans out for a published DTO, decoded: the DTO's
      fields under the same names, so the room id comes as `chatRoomId`. */
  function Echo(dto: MessageDto, id: Option<string>, timestamp: string): ChatMessage
  {
    ChatMessage(id, if dto.senderId.Some? then Num(dto.senderId.value) else Null,
                dto.senderName, dto.senderEmail, dto.content, timestamp,
                Undefined, Num(dto.chatRoomId), None)
  }

  /** A message sent to room `roomId` comes back, through the `chatRoomId`
      fallback, to the handler registered for `roomId`; sent to room 0 it
      carries a falsy id and is dropped. */
  lemma EchoRoutesToSendersRoom(roomId: int, m: OutgoingMessage, handlers: map<int, Handler>,
                                id: Option<string>, timestamp: string, numberOf: string -> Option<int>)
    ensures var echo := Echo(ToDto(roomId, m, numberOf), id, timestamp);
      && (roomId != 0 && roomId in handlers ==> Route(Some(echo), handlers, numberOf) == Delivered(handlers[roomId], echo))
      && (roomId != 0 && roomId !in handlers ==> Route(Some(echo), handlers, numberOf) == NoHandler(Some(roomId)))
      && (roomId == 0 ==> Route(Some(echo), handlers, numberOf) == NoRoomId(echo))
  {
  }

  class WebSocketService {
    var client: Option<StompClient>
    var subscriptions: map<int, Subscription>
    var globalMessageSubscription: Option<Subscription>
    var messageHandlers: map<int, Handler>
    var isConnected: bool
    var calls: seq<StompCall>

    /** The subscription lifecycle invariant. */
    ghost predicate Valid()
      reads this
    {
      && (globalMessageSubscription.Some? <==> messageHandlers != map[])
      && subscriptions.Keys <= messageHandlers.Keys
      && subscriptions.Values <= Members(globalMessageSubscription)
      && (client.None? ==> messageHandlers == map[])
      && OpenSubscriptions(calls) <= Members(globalMessageSubscription)
    }

    /** Frames reach the dispatch closure: the global subscription is still
        open on the broker. */
    ghost predicate Receiving()
      reads this
    {
      globalMessageSubscription.Some? && globalMessageSubscription.value in OpenSubscriptions(calls)
    }

    /** At most one broker subscription is open at any time; it is the
        global one, and frames arrive exactly when it is open. */
    lemma AtMostOneBroadcastSubscription()
      requires Valid()
      ensures |OpenSubscriptions(calls)| <= 1
      ensures OpenSubscriptions(calls) != {} ==> OpenSubscriptions(calls) == {globalMessageSubscription.value}
      ensures Receiving() <==> OpenSubscriptions(calls) != {}
    {
      if OpenSubscriptions(calls) != {} {
        var s :| s in OpenSubscriptions(calls);
        assert OpenSubscriptions(calls) == {s};
      }
    }

    constructor ()
      ensures Valid()
      ensures client == None && !isConnected && globalMessageSubscription == None
      ensures messageHandlers == map[] && subscriptions == map[] && calls == []
    {
      client := None;
      subscriptions := map[];
      globalMessageSubscription := None;
      messageHandlers := map[];
      isConnected := false;
      calls := [];
    }

    /** `connect`: a new, activated client replaces whatever client there
        was; nothing else changes until the library calls back. */
    method Connect(userEmail: string, handle: nat)
      requires Valid()
      modifies this
      ensures Valid()
      ensures client == Some(StompClient(handle, true, 0))
      ensures calls == old(calls) + [Activate(handle, userEmail)]
      ensures isConnected == old(isConnected) && globalMessageSubscription == old(globalMessageSubscription)
      ensures messageHandlers == old(messageHandlers) && subscriptions == old(subscriptions)
      ensures Receiving() == old(Receiving())
    {
      assert OpenSubscriptions(calls + [Activate(handle, userEmail)]) == OpenSubscriptions(calls) by {
        OpenAfterCall(calls, Activate(handle, userEmail));
      }
      client := Some(StompClient(handle, true, 0));
      calls := calls + [Activate(handle, userEmail)];
    }

    /** `onConnect`: the handshake succeeded. */
    method OnConnect()
      requires Valid()
      modifies this`isConnected
      ensures Valid()
      ensures isConnected
    {
      isConnected := true;
    }

    /** `onWebSocketClose` for the socket of client `handle`: the socket's
        subscriptions end, and only the flag and the compatibility map are
        cleared; the handlers and the global subscription stay, so after a
        close of the global subscription's client no frame arrives. */
    method OnWebSocketClose(handle: nat)
      requires Valid()
      modifies this`isConnected, this`subscriptions, this`calls
      ensures Valid()
      ensures !isConnected && subscriptions == map[]
      ensures calls == old(calls) + [Closed(handle)]
      ensures forall s :: s in OpenSubscriptions(calls) ==> s.client != handle
      ensures globalMessageSubscription.Some? && globalMessageSubscription.value.client == handle ==> !Receiving()
    {
      assert OpenSubscriptions(calls + [Closed(handle)]) == Step(OpenSubscriptions(calls), Closed(handle)) by {
        OpenAfterCall(calls, Closed(handle));
      }
      calls := calls + [Closed(handle)];
      isConnected := false;
      subscriptions := map[];
    }

    /** `onStompError`: rejects with the frame's message header, or a
        default text when it is empty; no state changes. */
    method OnStompError(headerMessage: Option<string>) returns (e: ConnectError)
      ensures headerMessage.Some? && headerMessage.value != "" ==> e == StompError(headerMessage.value)
      ensures headerMessage.None? || headerMessage.value == "" ==> e == StompError(StompErrorDefault)
    {
      if headerMessage.Some? && headerMessage.value != "" {
        e := StompError(headerMessage.value);
      } else {
        e := StompError(StompErrorDefault);
      }
    }

    /** `onWebSocketError`: rejects with the transport's error as it is; no
        state changes. */
    method OnWebSocketError(cause: string) returns (e: ConnectError)
      ensures e == TransportError(cause)
    {
      e := TransportError(cause);
    }

    /** `disconnect`: with a client, tears everything down; without one, does
        nothing, so a second call is a no-op. */
    method Disconnect()
      requires Valid()
      modifies this
      ensures Valid()
      ensures old(client).None? ==> unchanged(this)
      ensures old(client).Some? ==>
        && client == None && !isConnected && globalMessageSubscription == None
        && messageHandlers == map[] && subscriptions == map[]
        && calls == old(calls)
                    + (if old(globalMessageSubscription).Some? then [Unsubscribe(old(globalMessageSubscription).value)] else [])
                    + [Deactivate(old(client).value.handle)]
    {
      if client.Some? {
        if globalMessageSubscription.Some? {
          assert OpenSubscriptions(calls + [Unsubscribe(globalMessageSubscription.value)]) == {} by {
            OpenAfterCall(calls, Unsubscribe(globalMessageSubscription.value));
          }
          calls := calls + [Unsubscribe(globalMessageSubscription.value)];
          globalMessageSubscription := None;
        }
        subscriptions := map[];
        messageHandlers := map[];
        assert OpenSubscriptions(calls + [Deactivate(client.value.handle)]) == {} by {
          OpenAfterCall(calls, Deactivate(client.value.handle));
        }
        calls := calls + [Deactivate(client.value.handle)];
        client := None;
        isConnected := false;
      }
    }

    /** `subscribeToChatRoom`: silently does nothing unless connected;
        otherwise registers the handler (last write wins) and opens the
        broadcast subscription only if none is open. */
    method SubscribeToChatRoom(roomId: int, onMessage: Handler)
      requires Valid()
      modifies this
      ensures Valid()
      ensures !(old(client).Some? && old(isConnected)) ==> unchanged(this)
      ensures old(client).Some? && old(isConnected) ==>
        && messageHandlers == old(messageHandlers)[roomId := onMessage]
        && isConnected
        && globalMessageSubscription.Some?
        && subscriptions == old(subscriptions)[roomId := globalMessageSubscription.value]
      ensures old(client).Some? && old(isConnected) && old(globalMessageSubscription).Some? ==>
        && globalMessageSubscription == old(globalMessageSubscription)
        && client == old(client) && calls == old(calls)
      ensures old(client).Some? && old(isConnected) ==>
        (Receiving() <==> old(globalMessageSubscription).None? || old(Receiving()))
      ensures old(client).Some? && old(isConnected) && old(globalMessageSubscription).None? ==>
        var c := old(client).value;
        && globalMessageSubscription == Some(Subscription(c.handle, c.nextSubId))
        && client == Some(c.(nextSubId := c.nextSubId + 1))
        && calls == old(calls) + [Subscribe(Subscription(c.handle, c.nextSubId), SubscribeDestination)]
    {
      if client.None? || !isConnected {
        return;
      }
      messageHandlers := messageHandlers[roomId := onMessage];
      assert roomId in messageHandlers;
      if globalMessageSubscription.None? {
        var c := client.value;
        var s := Subscription(c.handle, c.nextSubId);
        client := Some(c.(nextSubId := c.nextSubId + 1));
        assert OpenSubscriptions(calls + [Subscribe(s, SubscribeDestination)]) == {s} by {
          OpenAfterCall(calls, Subscribe(s, SubscribeDestination));
        }
        calls := calls + [Subscribe(s, SubscribeDestination)];
        globalMessageSubscription := Some(s);
      }
      subscriptions := subscriptions[roomId := globalMessageSubscription.value];
    }

    /** `unsubscribeFromChatRoom`: removes room `roomId` from both maps and
        closes the broadcast subscription when no handler is left. */
    method UnsubscribeFromChatRoom(roomId: int)
      requires Valid()
      modifies this
      ensures Valid()
      ensures messageHandlers == old(messageHandlers) - {roomId}
      ensures subscriptions == old(subscriptions) - {roomId}
      ensures client == old(client) && isConnected == old(isConnected)
      ensures messageHandlers == map[] && old(globalMessageSubscription).Some? ==>
        globalMessageSubscription == None && calls == old(calls) + [Unsubscribe(old(globalMessageSubscription).value)]
      ensures messageHandlers != map[] || old(globalMessageSubscription).None? ==>
        globalMessageSubscription == old(globalMessageSubscription) && calls == old(calls)
    {
      messageHandlers := messageHandlers - {roomId};
      subscriptions := subscriptions - {roomId};
      assert subscriptions.Keys <= messageHandlers.Keys;
      if messageHandlers == map[] && globalMessageSubscription.Some? {
        assert subscriptions == map[];
        assert OpenSubscriptions(calls + [Unsubscribe(globalMessageSubscription.value)]) == {} by {
          OpenAfterCall(calls, Unsubscribe(globalMessageSubscription.value));
        }
        calls := calls + [Unsubscribe(globalMessageSubscription.value)];
        globalMessageSubscription := None;
      }
    }

    /** The dispatch closure run on one frame of `/sub/receiveMessage`:
        `parse` is `JSON.parse`, `None` when it throws. At most one handler,
        the one registered for `Number(roomId || chatRoomId)`, is chosen;
        every failure is absorbed and no state changes. Frames arrive only
        while the global subscription is open. */
    method OnFrame(body: string, parse: string -> Option<ChatMessage>, numberOf: string -> Option<int>)
      returns (d: Dispatch)
      requires Valid() && Receiving()
      ensures d == Route(parse(body), messageHandlers, numberOf)
    {
      d := Route(parse(body), messageHandlers, numberOf);
    }

    /** `sendMessage`: throws on the first failed precondition; otherwise
        publishes the DTO to the fixed destination. */
    method SendMessage(roomId: int, message: OutgoingMessage, numberOf: string -> Option<int>)
      returns (r: SendResult)
      requires Valid()
      modifies this`calls
      ensures Valid()
      ensures CheckSend(client, isConnected).Some? ==>
        r == Thrown(CheckSend(client, isConnected).value.Text()) && calls == old(calls)
      ensures CheckSend(client, isConnected).None? ==>
        && r == Sent(ToDto(roomId, message, numberOf))
        && calls == old(calls) + [Publish(client.value.handle, PublishDestination, r.dto)]
    {
      if client.None? {
        return Thrown(NoClient.Text());
      }
      if !isConnected {
        return Thrown(NotConnected.Text());
      }
      if !client.value.active {
        return Thrown(Inactive.Text());
      }
      var dto := ToDto(roomId, message, numberOf);
      assert OpenSubscriptions(calls + [Publish(client.value.handle, PublishDestination, dto)]) == OpenSubscriptions(calls) by {
        OpenAfterCall(calls, Publish(client.value.handle, PublishDestination, dto));
      }
      calls := calls + [Publish(client.value.handle, PublishDestination, dto)];
      r := Sent(dto);
    }

    /** `isWebSocketConnected` */
    method IsWebSocketConnected() returns (b: bool)
      ensures b <==> isConnected
    {
      b := isConnected;
    }

    /** `getSubscribedRoomIds`: the rooms of the compatibility map, all of
        which have a handler. */
    method GetSubscribedRoomIds() returns (ids: set<int>)
      requires Valid()
      ensures ids == subscriptions.Keys
      ensures ids <= messageHandlers.Keys
    {
      ids := subscriptions.Keys;
    }
  }
}
