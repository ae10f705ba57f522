# Realtime chat multiplexer and page logic, modelled in Dafny

This project models the client side of a patent marketplace's realtime chat
and three pieces of page logic around it.

The core is `WebSocketService` (`src/utils/websocket.ts`). It holds one STOMP
client and one broadcast subscription on `/sub/receiveMessage`. Over these it
keeps a registry of per-room handlers. Every inbound frame is decoded and
handed to the handler registered for its room id. Outbound messages go to the
fixed destination `/pub/receiveMessage` as a normalised DTO.

In `websocket.dfy` the service is a class. Its fields are the ones the source
mutates: `client`, `isConnected`, `globalMessageSubscription`,
`messageHandlers` and `subscriptions`. A sixth field, `calls`, is the trace of
calls the service makes into the STOMP library (activate, deactivate,
subscribe, unsubscribe and publish), together with the closing of a client's
socket. A deactivated client or a closed socket ends that client's broker
subscriptions. `Valid()` is the lifecycle invariant that every method keeps:

- the global subscription exists exactly when some handler is registered;
- every room of `subscriptions` has a handler, and every entry there is the
  global subscription;
- without a client there are no handlers;
- every broker subscription opened along the trace and not yet ended is the
  global one, so at most one is open.

`Receiving()` says that the global subscription is still open, so frames reach
the dispatch closure.

The library callbacks `onConnect`, `onWebSocketClose`, `onStompError` and
`onWebSocketError` are event methods. The dispatch closure is `OnFrame`,
specified by the pure function `Route`. `JSON.parse` and `Number(string)` are
supplied as function parameters.

The companions are in their own modules:

- `patents.dfy` covers the listing page (`src/app/patents/page.tsx`): image
  URL normalisation, response normalisation, the top-10 slice, the
  category-tag toggle, the search and category filter, and the like toggle.
- `room_params.dfy` covers deep-link room resolution
  (`src/components/chat/ChatRoomWithParams.tsx`): the decision table of the
  effect, the `isLoadingRoom` flag, and the fallback room built from a direct
  lookup.
- `register.dfy` covers the sign-up form (`src/app/register/page.tsx`): the
  field update and the validation order of `handleSubmit`.
- `js.dfy` holds the JavaScript semantics these modules share: truthiness,
  `||`, `Number(...)`, `startsWith`, `includes`, `findIndex`, and number
  printing.

The model follows the code where it departs from the intended design:

- The close callback clears only `isConnected` and `subscriptions`. Handlers
  and the global subscription survive it. After the socket of the global
  subscription's client closes, the service is no longer receiving. A later
  `connect` and `subscribeToChatRoom` open no new subscription, because one
  is still recorded. So no frame reaches any handler until `disconnect`, or
  until every room is unsubscribed. That drops the stale subscription, so
  the next subscribe opens a new one on the current client.
- `connect` replaces any existing client without checking for one.
- `disconnect` does nothing when there is no client.
- Dispatch does not look at `isConnected`.
- No method checks that a room id is positive.
- `subscribeToChatRoom` returns silently when not connected.

## Model

| member | source | states |
|---|---|---|
| `WebSocket.Route` | src/utils/websocket.ts:138-165 | A parse failure gives `ParseFailed`. A message whose `roomId` and `chatRoomId` are both falsy is dropped. Otherwise exactly the handler registered under `Number(roomId \|\| chatRoomId)` gets the decoded message, or none when that key is NaN or unregistered. |
| `WebSocket.RouteAfterUnsubscribe` | src/utils/websocket.ts:185-197 | Removing room `r` changes the routing of no frame keyed to another room. A frame for `r` then finds no handler. |
| `WebSocket.RouteAfterSubscribe` | src/utils/websocket.ts:123-124 | After registering `h` for `r`, frames for `r` reach `h` and not an earlier handler (last write wins). Other rooms route as before. |
| `WebSocket.CheckSend` | src/utils/websocket.ts:211-226 | `sendMessage` fails on a missing client first, then on `isConnected == false`, then on an inactive client. It succeeds exactly when all three hold. |
| `WebSocket.SendErrorTextsDistinct` | src/utils/websocket.ts:211-226 | The three thrown messages differ, so the message tells which guard failed. |
| `WebSocket.ToDto` | src/utils/websocket.ts:229-235 | The DTO targets `chatRoomId = roomId`, copies name, email and content, and carries `Number(senderId)`. |
| `WebSocket.DtoNormalised` | src/utils/websocket.ts:228-235 | A numeric `senderId` is kept and a string one is converted with `Number`. The message's own room fields and type do not affect the DTO. |
| `WebSocket.EchoRoutesToSendersRoom` | src/utils/websocket.ts:229-244 | Assuming the broker fans back the published DTO's fields unchanged (the `Echo` shape, with no `roomId`), the frame reaches the handler of its room through the `chatRoomId` fallback. Sent to room 0, the falsy id gets it dropped. |
| `WebSocket.WebSocketService.AtMostOneBroadcastSubscription` | src/utils/websocket.ts:127-130 | Under the invariant, at most one broker subscription from the call trace is open, and when one is open it is the global one. Frames arrive exactly when it is open. |
| `WebSocket.CloseThenReconnect` | src/utils/websocket.ts:74-78 | When the socket of the client holding the only open subscription closes and a new client connects, no subscription is left open. |
| `WebSocket.WebSocketService.constructor` | src/utils/websocket.ts:24-29 | The service starts with no client, disconnected, with empty maps and no calls. |
| `WebSocket.WebSocketService.Connect` | src/utils/websocket.ts:37-80 | Installs an activated client with the given handle in place of any earlier one, without checking for it. Records the activation with the user's email. Handlers, maps, flag and global subscription are untouched, and so is whether frames arrive. |
| `WebSocket.WebSocketService.OnConnect` | src/utils/websocket.ts:58-62 | The handshake callback sets `isConnected` and keeps the invariant. |
| `WebSocket.WebSocketService.OnWebSocketClose` | src/utils/websocket.ts:74-78 | The close of client `handle`'s socket ends that client's subscriptions. It clears `isConnected` and `subscriptions` only; handlers and the global subscription stay. When the global subscription belongs to that client, the service is no longer receiving. |
| `WebSocket.WebSocketService.OnStompError` | src/utils/websocket.ts:64-67 | Rejects with the frame's `message` header when it is non-empty, otherwise with `"STOMP 연결 에러"`. Nothing changes. |
| `WebSocket.WebSocketService.OnWebSocketError` | src/utils/websocket.ts:69-72 | Rejects with the transport error itself. Nothing changes. |
| `WebSocket.WebSocketService.Disconnect` | src/utils/websocket.ts:89-109 | With a client: unsubscribes the global subscription if any, empties both maps, deactivates, and leaves client null and disconnected. Without a client it changes nothing, so a second call is a no-op. |
| `WebSocket.WebSocketService.SubscribeToChatRoom` | src/utils/websocket.ts:112-182 | Not connected: no state changes. Connected: `messageHandlers[roomId]` is the new handler and the other rooms keep theirs. A broker subscription on `/sub/receiveMessage` is opened only when no global one exists, and `subscriptions[roomId]` is the global subscription. Afterwards frames arrive exactly when they did before, or when there was no global subscription. |
| `WebSocket.WebSocketService.UnsubscribeFromChatRoom` | src/utils/websocket.ts:185-197 | Removes only `roomId` from both maps. When no handler is left, unsubscribes the global subscription and nulls it; otherwise no call is made. |
| `WebSocket.WebSocketService.OnFrame` | src/utils/websocket.ts:132-166 | For a frame arriving on the open global subscription, the dispatch closure chooses exactly what `Route` chooses on the current registry. It throws nothing and changes no state. |
| `WebSocket.WebSocketService.SendMessage` | src/utils/websocket.ts:200-252 | Throws an `Error` carrying the message of the first failing precondition of `CheckSend`, and publishes nothing. Otherwise publishes exactly one `ToDto` to `/pub/receiveMessage` on the current client. |
| `WebSocket.WebSocketService.IsWebSocketConnected` | src/utils/websocket.ts:255-257 | Reports the connection flag. |
| `WebSocket.WebSocketService.GetSubscribedRoomIds` | src/utils/websocket.ts:265-267 | Returns the rooms of the compatibility map, all of which have a registered handler. |
| `Patents.GetFullImageUrl` | src/app/patents/page.tsx:41-47 | An absent or empty URL gives undefined. An `http://` or `https://` URL is returned unchanged. Any other URL gets the base URL in front. |
| `Patents.Unwrap` | src/app/patents/page.tsx:70-85 | The payload read is the nested `data` when truthy, else the response data when truthy, else an empty array. It is never falsy. |
| `Patents.FullImageUrlIdempotent` | src/app/patents/page.tsx:43-46 | With an absolute base URL every result is absolute, so normalising again changes nothing. |
| `Patents.NormalizePost` | src/app/patents/page.tsx:75-79 | A normalised post keeps id, title, category and count. Its `isLiked` keeps a defined value, and an absent one becomes `false`. Its image URL is normalised. |
| `Patents.NormalizePosts` | src/app/patents/page.tsx:85-95 | A payload that is not an array gives an empty list. An array gives every post normalised, same length, same order. |
| `Patents.NormalizeEnvelope` | src/app/patents/page.tsx:70-74 | `data.data` and a bare array give the same list. An absent payload, or an object with no array, gives an empty list. |
| `Patents.Take` | src/app/patents/page.tsx:80 | The popular list is a prefix of the posts. It is the whole list when that has at most ten posts, and exactly ten posts otherwise. |
| `Patents.ClickTag` | src/app/patents/page.tsx:124-132 | Clicking the active tag clears the tag and selects "전체 카테고리". Clicking another tag makes it both the tag and the category. |
| `Patents.ClickTagTwice` | src/app/patents/page.tsx:124-132 | Clicking a tag that is not active twice returns to the cleared state. After a click, the tag and the selected category agree. |
| `Patents.ToggleLiked` | src/app/patents/page.tsx:169-178 | Only posts with the given id change. Their `isLiked` flips and `favoriteCnt` goes down if the post was liked, up otherwise. Length, order and every other post stay the same. |
| `Patents.ToggleLikedTwice` | src/app/patents/page.tsx:169-173 | On normalised posts two successful toggles restore the list. |
| `Patents.LikeRequestFor` | src/app/patents/page.tsx:141-165 | DELETE is chosen exactly when the first recent post with that id is liked; POST otherwise. |
| `Patents.Matches` | src/app/patents/page.tsx:196-198 | A kept post's lower-cased title contains the lower-cased keyword. Under "전체 카테고리" that is the only condition. With an empty keyword, only the category label must equal the selected one. |
| `Patents.FilteredPosts` | src/app/patents/page.tsx:195-199 | Every kept post's lower-cased title contains the lower-cased keyword, and its category maps to the selected one unless "전체 카테고리" is selected. |
| `Patents.FilteredIsOrderedSublist` | src/app/patents/page.tsx:195-199 | The filtered list is an order-preserving sublist of the posts. Each post occurs in it as often as in the posts when it matches, and not at all otherwise. |
| `Patents.FilterKeepsAll` | src/app/patents/page.tsx:195-197 | An empty keyword with "전체 카테고리" keeps every post. |
| `Patents.PatentsPage.constructor` | src/app/patents/page.tsx:52-58 | The page starts loading, with empty lists, empty search and the cleared tag state. |
| `Patents.PatentsPage.StartFetch` | src/app/patents/page.tsx:63 | Loading is set before the requests are awaited. |
| `Patents.PatentsPage.FinishFetch` | src/app/patents/page.tsx:61-110 | On success the popular list is the first ten normalised popular posts and the recent list is all normalised recent posts. On failure both are empty. Loading ends false either way. |
| `Patents.PatentsPage.HandleCategoryClick` | src/app/patents/page.tsx:124-132 | The tag state after the click is `ClickTag` of the state before. |
| `Patents.PatentsPage.SelectCategory` | src/app/patents/page.tsx:235 | The dropdown sets the category and nothing else. |
| `Patents.PatentsPage.TypeSearchTerm` | src/app/patents/page.tsx:230 | Typing sets the search term and nothing else; the keyword waits for the search. |
| `Patents.PatentsPage.HandleSearch` | src/app/patents/page.tsx:191-193 | The typed term becomes the keyword. |
| `Patents.PatentsPage.ApplyLikeResponse` | src/app/patents/page.tsx:167-179 | On status 200 or 201 both lists get `ToggleLiked`; any other status changes neither. |
| `RoomParams.Resolve` | src/components/chat/ChatRoomWithParams.tsx:16-84 | No action without a parameter (null or empty), and none for a NaN id or the room already current. Otherwise a listed room with the id is selected exactly when one exists, whatever the connection and loading state, and it is the first such room. When none matches, a refresh starts exactly when connected and not loading. Otherwise it waits for a connection or for the pending refresh. |
| `RoomParams.ParamRoomId` | src/components/chat/ChatRoomWithParams.tsx:17-25 | A missing or empty parameter names no room, and neither does one that converts to NaN. Otherwise the id is `Number(param)`. |
| `RoomParams.ResolveSettles` | src/components/chat/ChatRoomWithParams.tsx:27-40 | Once the selected room is current, the next run does nothing. |
| `RoomParams.UnwrapRoom` | src/components/chat/ChatRoomWithParams.tsx:64 | The record read is the nested `data` when there is one, else the response data. A record comes out only if it was given directly or wrapped once. |
| `RoomParams.FallbackRoom` | src/components/chat/ChatRoomWithParams.tsx:64-72 | A room is built only from a record with a truthy id. Its name is the record's non-empty name, or else `채팅방 <id>`. Its participants are the record's or `[]`. |
| `RoomParams.FallbackDefaultName` | src/components/chat/ChatRoomWithParams.tsx:66-70 | The default name is `채팅방 <id>`. An enveloped record with an empty name gives the same room. |
| `Js.NatToStringValue` | src/components/chat/ChatRoomWithParams.tsx:68 | The decimal digits printed for a natural number denote that number. |
| `Js.IntToStringValue` | src/components/chat/ChatRoomWithParams.tsx:68 | `${n}` denotes `n`: a non-negative number prints as its digits, a negative one as `-` and the digits of its magnitude. |
| `RoomParams.RoomLoader.constructor` | src/components/chat/ChatRoomWithParams.tsx:13 | `isLoadingRoom` starts false. |
| `RoomParams.RoomLoader.RunEffect` | src/components/chat/ChatRoomWithParams.tsx:43-50 | The effect's decision is `Resolve` on the current flag. Only a started refresh sets `isLoadingRoom`; nothing else changes it. |
| `RoomParams.RoomLoader.RefreshSucceeded` | src/components/chat/ChatRoomWithParams.tsx:51-55 | A settled refresh clears `isLoadingRoom`. |
| `RoomParams.RoomLoader.RefreshFailed` | src/components/chat/ChatRoomWithParams.tsx:56-80 | A failed refresh clears `isLoadingRoom`. The room to select is the fallback room of the direct lookup, or none when the lookup fails. |
| `Register.InputChanged` | src/app/register/page.tsx:48-54 | The named field becomes `checked` for a checkbox and `value` otherwise. Every other field is unchanged. |
| `Register.InputChangesCommute` | src/app/register/page.tsx:50-53 | Changes to different fields commute. A later change to the same field overrides the earlier one. |
| `Register.Validate` | src/app/register/page.tsx:61-80 | Mismatched passwords give "비밀번호가 일치하지 않습니다." even when the agreement is also missing. Matching passwords without agreement give "이용약관에 동의해주세요.". The form is accepted exactly when both checks pass, with a payload of exactly name, email and password. |
| `Register.FilledFormValidates` | src/app/register/page.tsx:61-80 | Filling the inputs with the same password twice and ticking the agreement yields an accepted form whose payload is what was typed. |
| `Register.FailureText` | src/app/register/page.tsx:85-91 | A failed sign-up shows the server's message when present, otherwise the connection message. It is never empty. |
| `Register.RegisterPage.constructor` | src/app/register/page.tsx:19-27 | The form starts empty with the agreement unticked, not loading, with no error. |
| `Register.RegisterPage.HandleInputChange` | src/app/register/page.tsx:48-54 | The form after the event is `InputChanged` of the form before. |
| `Register.RegisterPage.HandleSubmit` | src/app/register/page.tsx:56-95 | A failed check sets its error and sends no request. A passed check sends the payload and shows `FailureText` on failure. `isLoading` is false at the end in every case. |

## Left out

- SockJS and STOMP internals are not modelled: heartbeats, `reconnectDelay`, the `debug` log filter, frame encoding. The client is a value with an identity, an `active` flag and a subscription counter.
- The promise of `connect` is not modelled. The library callbacks are separate event methods; they act on the service whichever client fires them.
- WebSocket.WebSocketService.SendMessage: the client's `active` flag is set only by `connect`. The library's own changes of that flag are not modelled, so in the class the third guard never fires. `CheckSend` states all three guards for any client.
- Calls into the STOMP library are taken to succeed. A `publish` that throws (rethrown at src/utils/websocket.ts:248-251) is not modelled. Nor is a `subscribe` on a client that has not finished its handshake.
- The broker is not part of this model. `Echo`, the frame it fans back for a published DTO, is an assumption: the DTO's fields under the same names, with no `roomId`.
- The handler's own effects are not modelled, including a handler that unsubscribes while being invoked. `Route` names the one handler that is invoked.
- WebSocket.WebSocketService.GetSubscribedRoomIds: returns the room ids as a set. The insertion order of the JavaScript `Map` is not modelled.
- `getSubscriptions` (src/utils/websocket.ts:260-262) hands out the map object itself. That aliasing is not modelled; the map is the field `subscriptions`.
- `JSON.parse`, `Number(string)` and `toLowerCase` are parameters, not definitions. Numbers are integers: NaN is `None`, and non-integral numbers such as a `roomId` parameter of `"1.5"` are not represented.
- Logging, `alert`, redirects through `window.location` and `router.push`, and the focus listener are not modelled. The loading screen and JSX rendering are not modelled either.
- HTTP calls through `apiClient` are not modelled: posts, likes (including the DELETE-then-POST fallback on 405), sign-up and room lookup. Their responses are inputs.
- `next.config.ts` is not part of this model; it holds static configuration only.
- Post fields the code never reads (description, price, status, dates) are not represented. The spreads copy them unchanged.
- Patents.PatentsPage.ApplyLikeResponse: applies the toggle to the current lists. The source applies it to the lists captured when `toggleLike` ran, which can be stale after a concurrent refetch.
- The `toggleLike` branches that redirect unauthenticated users (before the request, or on 401/403) are not modelled; they only navigate away.
- Register.RegisterPage.HandleSubmit: the submit runs as one step. The state while the request is pending (`isLoading` true, error cleared) is not observable in the model.
- A room lookup record whose `id` is not a number is not represented. `selectRoom` and `refreshChatRooms` belong to the chat context; the model returns what would be passed to them.
- When React re-runs the room-resolution effect is not modelled. Each run is a call of `RunEffect`.
