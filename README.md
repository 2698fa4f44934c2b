# Smooch web widget: chat controller, SDK facade and transport adapter

This project models the core of the Smooch web messaging widget in Dafny and proves properties of that model. The core has three parts:

- **The chat controller** (`chatController.js`). It keeps the session's one conversation in step with the server's copy. It subscribes to that conversation's real-time channel, merges inbound messages keyed by id, and counts unread messages against a last-read marker kept in a cookie. It runs the send pipeline: create the conversation, subscribe, save the user, create the message, and possibly prompt for an email. It also tracks whether the widget is open.
- **The SDK facade** (`main.js`). It validates `init` options. It normalises `login` arguments and derives the email flags. It gets or creates the device id. It keeps the session state `ready` / `_widgetRendered`, and it refuses calls that reach the controller before the SDK is ready.
- **The transport adapter** (`faye.js`). It decorates outgoing subscribe frames with the widget's credentials, names a conversation's channel, and forwards every inbound message to the event bus.

## Layout

| File | Module | What it holds |
|---|---|---|
| `common.dfy` | `Common` | `Option`, `Outcome`, `Result`, `Err`, the `TypeError` error and `Message`. |
| `messages.dfy` | `Messages` | The id-keyed add of a Backbone collection, and lemmas about delivery streams. |
| `unread.dfy` | `Unread` | Pure functions and lemmas: the unread filter, the latest message and the marker a reset writes. |
| `faye.dfy` | `Faye` | Classes `Frame`, `Bus` and `Client`, and the `Init` method. |
| `chat.dfy` | `Chat` | Class `Conversation` (its attributes are a datatype) and class `ChatController`. Also the functions that specify the send pipeline. |
| `sdk.dfy` | `Sdk` | `JsValue`, login normalisation, the email flags and the device id. The facade's state as the value `Session`, with the transition functions `LoginSpec` and `InitSpec` and lemmas about them. Class `Smooch`, whose methods are proved to follow those functions. |

How effects are represented:

- **Network round trips are parameters.** A round trip is a fetch, a create, a user save, an API call or a subscribe handshake. Each one's outcome (`Outcome`/`Result`) is an argument of the method that makes it.
- **Requests are logged in order.** The controller records the requests it makes in `steps`, and the facade records them in `requests`, so fail-stop ordering can be stated.
- **Watched effects are recorded too.** Events that views observe go to `adds`. The facade's calls into the controller go to `controllerCalls`. Where the facade returns the controller's promise (`sendMessage`, main.js:214-217), its `Pass` only means that the call did not throw and was passed on: the send's own outcome is that of `Chat.ChatController.SendMessage`, and it is not modelled at the facade.
- **The cookie and local storage are fields.** The `sk_latestts` cookie is the field `cookie: Option<int>`, and local storage is a `map<string, string>`.
- **`uuid.v4()` is a parameter.**
- **The user's email at send time is a parameter.** `sendMessage` reads `user.get('email')` when the message has been created, and `updateUser` or a save can change it in between. `SendMessage` and `SubmitMessage` take that value as `email`.

## Model

| member | source | states |
|---|---|---|
| Unread.IsUnread | src/js/controllers/chatController.js:362-367 | A message is unread when no end-user participant wrote it and the floor of its receipt time is after the marker. |
| Unread.UnreadMessages | src/js/controllers/chatController.js:361-369 | Every result element is unread: it was not authored by an end-user participant, and the floor of its receipt time is after the marker. Each unread message keeps its multiplicity and no other message appears. |
| Unread.UnreadMessagesAppend | src/js/controllers/chatController.js:361-369 | The unread filter distributes over concatenation. |
| Unread.OwnMessageNeverCounts | src/js/controllers/chatController.js:362-365 | Appending a message written by an end-user participant never changes the unread list, whatever its receipt time. |
| Unread.LaterMarkerFewerUnread | src/js/controllers/chatController.js:366-368 | A later marker never gives more unread messages. |
| Unread.LatestMessage | src/js/controllers/chatController.js:378-382 | `None` exactly for an empty list (the `-Infinity` of `max`). Otherwise the result is a member of the list and no message was received later. |
| Unread.ResetLeavesNothingUnread | src/js/controllers/chatController.js:376-386 | With the marker a reset writes, no message is unread, whoever wrote it. |
| Unread.ResetMarker | src/js/controllers/chatController.js:377-384 | The marker is 0 without messages. Otherwise it is the floor of some message's receipt time, and no message's floor is greater. |
| Unread.ResetMarkerBounds | src/js/controllers/chatController.js:377-384 | The marker a reset writes is at least the floor of every receipt time. |
| Messages.Ids | src/js/controllers/chatController.js:155 | The id set of a list holds exactly the ids of its elements. |
| Messages.AddById | src/js/controllers/chatController.js:155 | Adding to the id-keyed collection gives id set `Ids(msgs) + {m.id}` and keeps ids distinct. A known id changes nothing; an unknown one is appended. |
| Messages.IdsAppend | src/js/controllers/chatController.js:155 | Appending a message adds exactly its id. |
| Messages.AppendDistinct | src/js/controllers/chatController.js:84-91 | Appending a message without the id check, as the send's optimistic add ends up doing, keeps the ids distinct exactly when its id is not already present. |
| Messages.DistinctIdsCard | src/js/controllers/chatController.js:155 | A list with distinct ids has as many elements as ids. |
| Messages.DeliverAllCountsDistinctIds | src/js/controllers/chatController.js:143-157 | After any delivery stream, duplicates included, the ids stay distinct. The result holds every id seen, and its length is the number of distinct ids. |
| Messages.DeliverAllIds | src/js/controllers/chatController.js:155 | Delivering a stream keeps ids distinct, and the id set becomes the union of the old ids and the stream's. |
| Messages.RedeliveryIsNoOp | src/js/controllers/chatController.js:155 | Redelivering a message that is present leaves the list unchanged. |
| Unread.ScenarioUnreadThenReset | src/js/controllers/chatController.js:359-387 | With receipts 10.2 and 15.9 and marker 10, only the second message is unread. A reset then writes 15 and leaves nothing unread. |
| Faye.Decorate | src/js/faye.js:11-14 | A `/meta/subscribe` frame gets the endpoint's `appToken` and `appUserId`. Any other frame is unchanged. Channel and other fields are always kept. |
| Faye.DecorateIdempotent | src/js/faye.js:10-17 | Passing a frame through the extension twice is the same as passing it once. |
| Faye.ChannelFor | src/js/faye.js:23 | The channel is exactly the prefix `/conversations/` followed by the id. |
| Faye.ChannelInjective | src/js/faye.js:23 | Different conversations never share a channel. |
| Faye.Frame.constructor | src/js/faye.js:10 | A frame object with the given content. |
| Faye.Client.constructor | src/js/faye.js:8 | A client on the given URL: connected, with no subscription. |
| Faye.Client.Outgoing | src/js/faye.js:10-17 | The frame object is decorated in place. It is handed to the callback exactly once, as the same object. |
| Faye.Client.Inbound | src/js/faye.js:23-24 | Each inbound message is published exactly once, unmodified, as `receive:message`. |
| Faye.Client.Disconnect | src/js/controllers/chatController.js:390-392 | The client is no longer connected. |
| Faye.Bus.constructor | src/js/faye.js:24 | An empty event log. |
| Faye.Init | src/js/faye.js:7-31 | A fresh client on `rootUrl + "/faye"`, subscribed to the conversation's channel. A successful handshake resolves with that client; a failed one rejects with the transport's own error. |
| Chat.ReadMarker | src/js/controllers/chatController.js:347-351 | A truthy cached marker is returned as is. An unset or 0 cache falls back to the cookie, which reads as 0 when absent. |
| Chat.CacheAfterRead | src/js/controllers/chatController.js:347-351 | After a read, the cache holds the marker that was returned. |
| Chat.MarkerRoundTrip | src/js/controllers/chatController.js:347-357 | A marker written by `_setLatestReadTime` is read back unchanged, 0 included. |
| Chat.Recount | src/js/controllers/chatController.js:359-373 | `unread` becomes the length of the unread list under the marker just read. Every other attribute is unchanged. |
| Chat.AddAppMaker | src/js/controllers/chatController.js:149-153 | The author is in `appMakers` afterwards. It is appended only when it was absent. |
| Chat.Authors | src/js/controllers/chatController.js:93-95 | The authors of the messages, position by position. |
| Chat.CountAuthored | src/js/controllers/chatController.js:93-95 | The number of messages by one author is at most the list's length. |
| Chat.CountAuthoredIsMultiplicity | src/js/controllers/chatController.js:93-95 | The count is the number of times the author occurs among the messages' authors. |
| Chat.CountAuthoredAppend | src/js/controllers/chatController.js:93-95 | Appending a message adds one exactly when it has that author. |
| Chat.ShouldPromptEmail | src/js/controllers/chatController.js:97-99 | The prompt condition: capture on, exactly one message by the end user, and an email that is unset or empty. |
| Chat.EmailPromptNotRepeated | src/js/controllers/chatController.js:97-101 | Once the prompt condition holds, one more message by the end user falsifies it. |
| Chat.EmailPromptOnFirstMessage | src/js/controllers/chatController.js:97-101 | With capture on and no email, the end user's first message satisfies the prompt condition. |
| Chat.FullSendTrace | src/js/controllers/chatController.js:64-104 | The requests of a send in which nothing fails: create if new, subscribe, save the user, create the message. |
| Chat.PrepareTrace | src/js/controllers/chatController.js:66-81 | The requests of the first three steps. Each is issued only when the previous one succeeded. |
| Chat.PrepareError | src/js/controllers/chatController.js:66-81 | The error of the first of those three steps that failed, if any. |
| Chat.SendTrace | src/js/controllers/chatController.js:64-104 | The requests of the whole send: the message is created only when the first three steps succeeded. |
| Chat.SendError | src/js/controllers/chatController.js:64-104 | The error the send rejects with: that of the first step that failed. |
| Chat.SendTraceFailStop | src/js/controllers/chatController.js:64-104 | A send's requests are a prefix of the full order: create if new, subscribe, save the user, create the message. A failure cuts off every later request, and a send without failure issues them all. The send rejects exactly when one step fails. |
| Chat.Conversation.constructor | src/js/controllers/chatController.js:174-176 | A conversation object with the given attributes. |
| Chat.ChatController.constructor | src/js/controllers/chatController.js:31-37 | Closed, not initiated, no conversation, no client, no listeners. |
| Chat.ChatController.GetLatestReadTime | src/js/controllers/chatController.js:347-351 | Returns `ReadMarker` of the old cache and the cookie, and leaves `CacheAfterRead` in the cache. |
| Chat.ChatController.SetLatestReadTime | src/js/controllers/chatController.js:354-357 | The marker is written to both the cache and the cookie. |
| Chat.ChatController.UpdateUnread | src/js/controllers/chatController.js:359-373 | The conversation's attributes become `Recount` of the old ones. Without a conversation it throws, after the marker has been read. |
| Chat.ChatController.UnreadReset | src/js/controllers/chatController.js:376-387 | The effect of `resetUnread`. Cache and cookie hold `ResetMarker` of the messages (0 when there are none). The unread count becomes 0, the conversation is the same object, and its other attributes are unchanged. Without a conversation it throws and changes nothing. |
| Chat.ChatController.ResetUnread | src/js/controllers/chatController.js:376-387 | `UnreadReset` holds: cache and cookie hold the reset marker, the unread count becomes 0 and nothing else changes. Without a conversation it throws and changes nothing. |
| Chat.ChatController.ManageUnread | src/js/controllers/chatController.js:223-227 | One recount, then the `add` listener is registered. |
| Chat.ChatController.ReceiveMessage | src/js/controllers/chatController.js:143-157 | Without a conversation nothing happens. Otherwise an unseen author is added to `appMakers` (and announced) before the message is added by id. A real add is announced and, when the listener is registered, recounted. Redelivering a known id by a known author changes nothing. Distinct ids stay distinct. |
| Chat.ChatController.AddMessage | src/js/controllers/chatController.js:155 | Adds the message by id and runs the collection's `add` listeners: the announcement, and the unread recount when registered. |
| Chat.ChatController.Reconciled | src/js/controllers/chatController.js:159-181 | The effect of `_getConversation` on a given collection. A new local conversation takes the first remote one's attributes and its place, keeping its identity. Without a local one, the first remote one is adopted, or a fresh one is made for the user. Otherwise nothing changes. |
| Chat.ChatController.GetConversation | src/js/controllers/chatController.js:159-181 | `Reconciled` holds. A new local conversation takes the first remote one's attributes and its place at index 0, keeping its identity. Without a local one, the first remote one is adopted, or a new one is made for the user. Otherwise nothing changes. The collection length never changes. |
| Chat.ChatController.InitFaye | src/js/controllers/chatController.js:183-192 | A new conversation passes through untouched. A persisted one is subscribed to its channel. On success the new client replaces `fayeClient` with no guard and no disconnect; on failure the call rejects with the handshake's error. |
| Chat.ChatController.InitConversation | src/js/controllers/chatController.js:194-216 | Once initiated, only the reconciliation runs: no fetch, no subscription. Otherwise it fetches, reconciles and subscribes. A persisted conversation whose handshake passes gets a fresh, connected client subscribed to its channel; a new conversation or a failed handshake keeps the old client. The flag becomes "resolved and persisted", and the `conversationStarted` listener is registered exactly when the conversation is still new. A failed fetch changes nothing but the request log. |
| Chat.ChatController.OnConversationStarted | src/js/controllers/chatController.js:324-329 | A false value changes nothing. A true one removes the listener and runs the bootstrap again, with every outcome of `InitConversation`. When already initiated, only the reconciliation runs. Otherwise a failed fetch changes only the request log. A successful fetch is reconciled and subscribed to: a passing handshake on a persisted conversation stores a fresh, connected client on its channel, and otherwise the client is kept. The flag records "resolved and persisted", and the listener is registered again exactly when the conversation is still new. |
| Chat.ChatController.SendMessage | src/js/controllers/chatController.js:64-105 | The requests are `SendTrace`, and the send rejects exactly when `SendError` is set, with that error. A created conversation takes the server's id and participants and joins the collection. A persisted conversation is subscribed on every send, by a fresh client. Once the first three steps pass, the message is announced without an id and the unread recount counts only the earlier messages, whether or not the create then succeeds. On success the message, authored by the end user, is appended with the server's id and receipt time; the ids stay distinct exactly when that id is new. The email prompt shows exactly when `ShouldPromptEmail` holds of the collection afterwards and of the user's email at that moment. |
| Chat.ChatController.PrepareSend | src/js/controllers/chatController.js:66-81 | Steps one to three of the send: create if new, subscribe, save the user, each only after the previous one succeeded. The result is the first error. |
| Chat.ChatController.SubmitMessage | src/js/controllers/chatController.js:82-104 | Steps four and five. The create adds the message before the answer: it is announced as `MessageAdded(None)` and, when the listener is registered, the recount counts only the earlier messages, since a message without receipt time is never unread. On success the message is appended with the server's id and receipt time and no further recount, and the ids stay distinct exactly when that id is new. The prompt shows exactly when `ShouldPromptEmail` holds of the collection and of the user's current email. A failure rejects after the announce and the recount. |
| Chat.ChatController.AddUnsavedMessage | src/js/controllers/chatController.js:84-91 | The add that `messages.create` without `wait` makes before the answer: the message is announced with no id, and the recount, when registered, counts only the earlier messages, since a message without receipt time is never unread. Nothing else changes. |
| Chat.ChatController.CreateRemoteConversation | src/js/controllers/chatController.js:67-71 | On success the object takes the server's id and end-user participants (`appUsers`) and joins the collection. On failure nothing changes but the request log. |
| Chat.ChatController.Open | src/js/controllers/chatController.js:39-46 | Opens only when both the view and the input exist. |
| Chat.ChatController.Close | src/js/controllers/chatController.js:48-54 | Acts only with a view and when open, and otherwise changes nothing. When it acts it closes, and `UnreadReset` holds: the reset marker is in cache and cookie and the unread count is 0. |
| Chat.ChatController.Toggle | src/js/controllers/chatController.js:56-62 | When open it closes as `close` does: without a view nothing changes, with one `UnreadReset` holds. When closed it opens exactly when view and input exist. |
| Chat.ChatController.OnDestroy | src/js/controllers/chatController.js:389-395 | The current client, if any, is disconnected; its subscription and the frames it passed on are kept. |
| Sdk.Prop | src/js/main.js:155 | A property read throws exactly on `undefined` and `null`. |
| Sdk.Pick | src/js/main.js:110 | `_.pick` keeps exactly the listed own properties of an object, and gives `{}` for others. |
| Sdk.NormalizeLogin | src/js/main.js:114-119 | Two arguments with an object second mean `(userId, attributes)` and `jwt` is undefined. Any other call with fewer than three has `attributes = {}`. Three arguments are taken as given. |
| Sdk.JsAnd | src/js/main.js:156 | JavaScript's `&&`: truthy exactly when both operands are, and the left operand itself when that is falsy. |
| Sdk.DeriveEmailFlags | src/js/main.js:155-156 | It throws exactly when `attributes` is `undefined` or `null`. `readOnlyEmail` holds exactly when the email is non-empty. The capture value is truthy exactly when the option is truthy and the email is not read-only, and it is the option itself when that is falsy. |
| Sdk.EmailCaptureExclusive | src/js/main.js:154-161 | An email given at login turns capture off. Without one, capture follows the option. |
| Sdk.NormalisedAttributesReadable | src/js/main.js:114-119 | After normalisation from fewer than three arguments, reading the email never throws. |
| Sdk.StripDashes | src/js/main.js:202 | The result has no dash and keeps every other character of the input. |
| Sdk.DeviceIdFor | src/js/main.js:201-202 | A stored non-empty id is returned. Otherwise the id is the generated one without dashes. |
| Sdk.DeviceIdStable | src/js/main.js:197-206 | Once an id computed from a well-formed uuid is stored, every later call returns it. |
| Sdk.CallsClearUnread | src/js/main.js:121-125 | `login` reaches `clearUnread` exactly when the current user is persisted, has no user id, and a truthy user id is given. |
| Sdk.CleanSession | src/js/main.js:312-322 | `_cleanState` on the session value: the user cleared, the controller destroyed exactly when rendered, the endpoint reset, neither ready nor rendered. |
| Sdk.LoginSpec | src/js/main.js:113-191 | `login` as a transition: a `clearUnread` throw changes nothing; otherwise `LoginPastCheck` of the normalised arguments. |
| Sdk.LoginPastCheck | src/js/main.js:127-191 | Past the check: `_cleanState`, the device id and credentials; then a throw reading the email or the options, or the flags written back by `ExtendOptions` and the promise chain. |
| Sdk.ExtendOptions | src/js/main.js:156-161 | On options stored as an object, the derived flags overwrite `options.emailCaptureEnabled` and the controller's flags. On a primitive the writes are lost, and the controller's flags are both off. Nothing else changes. |
| Sdk.LoginLocal | src/js/main.js:129-152 | The device id stored, and a truthy user id and jwt put into the endpoint. |
| Sdk.LoginRemote | src/js/main.js:163-178 | The init request, then on success the user set from `appUser`, the app user id into the endpoint, and the save request. The first failure settles the call. |
| Sdk.AfterSave | src/js/main.js:175-184 | After a successful save the attributes are set and the controller is made. After a rendered widget the session is ready and forwards events. |
| Sdk.InitSpec | src/js/main.js:58-111 | `init` as a transition: a no-op once ready; otherwise not ready, then the throw on a missing argument, the stored options, the refusal of non-objects, then `InitWithOptions`. |
| Sdk.InitWithOptions | src/js/main.js:95-110 | The token, and a truthy `serviceUrl`, go into the endpoint. A falsy token is refused; otherwise `login` follows with the options' user id, jwt and editable properties. |
| Sdk.LoginWithEmailTurnsCaptureOff | src/js/main.js:154-161 | A `login` whose attributes carry an email, on object options, leaves the email read-only and capture off, in the stored option too. |
| Sdk.LoginKeepsCaptureOff | src/js/main.js:154-161 | Once the stored capture option is falsy, no `login` makes it truthy. A `login` that resolves makes its controller without capture, and one that fails never turns capture on. |
| Sdk.EmailLoginThenLogout | src/js/main.js:154-195 | After a `login` with an email, the `login` that `logout` runs makes its controller without capture, even when `init` asked for capture. |
| Sdk.LoginSuccess | src/js/main.js:163-190 | A successful `login` leaves the session ready, rendered and forwarding events. It sent two requests, made a controller last, and kept the token. |
| Sdk.LoginClearUnreadChangesNothing | src/js/main.js:121-125 | Switching from a persisted anonymous user to a user id throws before any effect. |
| Sdk.LoginReadyIffAllSucceed | src/js/main.js:113-191 | `login` resolves exactly when nothing throws and every round trip succeeds. The session is ready, and the widget rendered, exactly then. |
| Sdk.LoginControllerLifecycle | src/js/main.js:127-181 | The old controller is destroyed exactly when its widget was rendered. A new one is made only after the user is saved. |
| Sdk.LoginRequestsFailStop | src/js/main.js:129-178 | The device id is stored. The init request carries it, and the save is sent only after a successful init. |
| Sdk.RemoteRequests | src/js/main.js:163-178 | The promise chain sends the init request, then the save only after a successful init. It leaves local storage alone. |
| Sdk.RemoteOutcome | src/js/main.js:163-190 | On a cleaned session the chain resolves exactly when the init call, the save and the render succeed, and the session is ready and rendered exactly then. It makes at most one controller, made only after a successful save, and leaves the token and the email flags alone. |
| Sdk.LoginSteps | src/js/main.js:127-191 | Past the `clearUnread` check, `login` cleans the state, stores the device id and credentials, then either throws reading the email or the options or runs the chain on the extended options. |
| Sdk.LoginViaChain | src/js/main.js:127-191 | Past the `clearUnread` check: a throw leaves the session not ready, the old controller destroyed and the email flags as they were. Otherwise the chain's outcome, readiness and controller calls are as in `RemoteOutcome`, and the flags are those `ExtendOptions` wrote. |
| Sdk.LoginKeepsDeviceId | src/js/main.js:197-206 | A second login sends the same device id as the first, whatever uuid it would generate. |
| Sdk.LoginEmailFlagsExclusive | src/js/main.js:154-161 | A read-only email and email capture are never on together. |
| Sdk.InitWhenReadyIsNoOp | src/js/main.js:59-61 | On a ready session `init` resolves and changes nothing. |
| Sdk.InitRejectsBeforeRequests | src/js/main.js:83-106 | Each rejects before any request or controller call, with the session not ready: a missing argument throws, a non-string non-object is refused with its message, and a falsy token is refused after it was written to the endpoint. |
| Sdk.InitStringIsToken | src/js/main.js:84-93 | `init(t)` goes on as `init({appToken: t})`. The options it stores are the string itself, which drops later property writes, unless the string is empty. |
| Sdk.InitObjectTakesOptions | src/js/main.js:83-99 | On a session that is not ready, an object argument is stored as the options, and `init` goes on with its fields. |
| Sdk.InitWithOptionsSuccess | src/js/main.js:95-110 | A successful `init` with object fields leaves the session ready, rendered and forwarding events, with the given truthy token in the endpoint. It sent exactly one init request and one save, and its last controller call made the controller. |
| Sdk.Smooch.constructor | src/js/main.js:29-34 | Not ready, not rendered, no user, no options. |
| Sdk.Smooch.CheckReady | src/js/main.js:52-56 | Fails with the given message exactly when not ready. |
| Sdk.Smooch.GetDeviceId | src/js/main.js:197-207 | Returns `DeviceIdFor` of the stored entry and stores what it returns. |
| Sdk.Smooch.CleanState | src/js/main.js:312-322 | The user is cleared and the endpoint reset. The controller is destroyed exactly when the widget was rendered. `ready` and `_widgetRendered` are false. |
| Sdk.Smooch.Init | src/js/main.js:58-111 | The new state and outcome are those of `InitSpec`, including whether the stored options take property writes. |
| Sdk.Smooch.InitWith | src/js/main.js:95-110 | `init` once the argument is an object: the new state and outcome are those of `InitWithOptions`, whose `login` writes the derived capture flag back into the options. |
| Sdk.Smooch.Login | src/js/main.js:113-191 | The new state and outcome are those of `LoginSpec`, so the derived capture flag overwrites the stored option that the next `login` reads. |
| Sdk.Smooch.LoginAfterCheck | src/js/main.js:127-191 | `login` past the `clearUnread` check follows `LoginPastCheck`, with the flags written as `ExtendOptions` writes them. |
| Sdk.Smooch.ApplyLocal | src/js/main.js:129-152 | The device id is stored, and the user id and jwt go into the endpoint when truthy. |
| Sdk.Smooch.SendLogin | src/js/main.js:163-178 | The init request, then the user set from `appUser` and the save request, each after the previous one succeeded. |
| Sdk.Smooch.SaveAndRender | src/js/main.js:175-184 | After the save, the controller is made and its widget rendered. The session is ready only when all succeed. |
| Sdk.Smooch.Logout | src/js/main.js:193-195 | When ready, a `login` with no arguments, which reads the options as the previous `login` left them. Otherwise it resolves with no effect. |
| Sdk.Smooch.ResetUnread | src/js/main.js:209-212 | Before ready it throws and the controller sees nothing. Afterwards the call is passed on. |
| Sdk.Smooch.SendMessage | src/js/main.js:214-217 | Before ready it throws "Can not send messages until init has completed". Afterwards the call is passed on. |
| Sdk.Smooch.Open | src/js/main.js:219-222 | Gated like `resetUnread`. |
| Sdk.Smooch.Close | src/js/main.js:224-227 | Gated like `resetUnread`. |
| Sdk.Smooch.Track | src/js/main.js:247-271 | Before ready it throws with no request. Afterwards the event is posted with its name, and with the user properties exactly when they are truthy. The call settles as the request does. |
| Sdk.Smooch.Destroy | src/js/main.js:324-327 | `_cleanState`, and the endpoint forgets the token. |
| Sdk.Smooch.UpdateUser | src/js/main.js:229-245 | A non-object (by `typeof`) is refused with no request. Otherwise the editable properties are saved, and set on the user once the server confirms. |

### Where the code decides

These follow `chatController.js` and `main.js` wherever a description of the widget says something different:

- **A message at 10.2 under marker 10 is read.** The floor of its receipt time is 10, which is not after 10. So in `Unread.ScenarioUnreadThenReset` only the 15.9 message is unread.
- **A failed subscription handshake rejects `sendMessage`.** `_initFaye`'s rejection propagates down the promise chain, so the user is not saved and no message is created (lines 76 and 185-188). It is not treated as non-fatal.
- **`this.unread` is read but never written.** The guard `this.unread !== unreadMessages.length` at line 371 therefore always holds, and the count is always written. `ChatController.Valid` records that the field stays unset.
- **`login` can call a method that does not exist.** It calls `this._chatController.clearUnread()` (main.js:124), which the controller does not define. In the model that call is a `TypeError` that rejects `login` before any other effect.
- **`init()` with no argument throws.** It reads `options.customText` (main.js:86) before the type check, so a missing argument throws a `TypeError` there.

## Left out

- **View code.** This covers rendering, templates, the email notification view and positioning. The email prompt is a counter, `emailPrompts`. `hasView` and `hasInput` stand for the existence of the view and the input controller.
- **Library internals.** The internals of Backbone, Faye, jQuery, cookie, uuid and underscore are left out. Collections are sequences keyed by id. The cookie is an optional integer, and `parseInt` of a non-numeric cookie (`NaN`) is not modelled. Backbone's merge of fetched models into existing objects is not modelled: the fetch outcome is the collection's resulting objects.
- **`collection.create`'s optimistic add of the conversation.** The model adds the conversation to the collection only on success.
- **Promise scheduling and concurrency.** Two sends or bootstraps that interleave are not modelled. Each call runs to completion with its outcomes given in order.
- **Listener wiring.** `listenTo` and `stopListening` are reduced to booleans: `startedObserver`, `unreadObserver`, `eventsForwarded`. That a listener may be registered more than once across calls is not modelled. `_initMessagingBus` (the controller's subscription to the bus) is not modelled.
- **`getWidget` and `_renderWidget`'s DOM work.** The facade sees them only as the `widget` outcome and the `NewController` call. `_checkConversationState` and `scrollToBottom` are not modelled.
- **Environment sniffing.** The user-agent test for bots and the CSS `transform` check (main.js:63-81) depend on the browser.
- **The device payload's browser fields** (URL, user agent, referrer, language, title). Only the device id and the user id of the init request are modelled.
- **Files not part of this model.** `endpoint.js`, `models/appUser.js`, `models/conversation.js`, `utils/api.js` and the views are not part of this model. The assumptions made about them:
  - `Sdk.ResetEndpoint` assumes that `endpoint.reset()` clears the user id, the jwt and the app user id, and keeps the token and root URL.
  - `Sdk.EditableProperties` is an assumed list of editable user fields. The only thing the proofs use about it is that it contains `email`.
  - `Sdk.SdkVersion` stands for the build-time `VERSION` constant.
  - A new `Conversation` (`Chat.NewConversationAttrs`) has no id, no messages, empty `appMakers` and `appUsers`, and `unread` 0.
  - The server's answer to a conversation create carries the conversation's id and its end-user participants, and the model takes both (`Chat.ConvCreated`).
  - A user's id attribute is `"id"` (the `idAttribute` of `models/appUser.js`). `Sdk.UserIsNew` and the `appUserId` written after the init request read it.
- **The server's response to a user save.** With `wait: true` the model sets exactly the attributes that were sent.
- **`track`'s `conversationUpdated` refetch.** It is not modelled.
- Sdk.Smooch.Init: does not tell a synchronous throw from a rejected promise: both are a `Fail` outcome. `init` replaces `this.options` wholesale, and the model keeps only the parts read later: whether it is an object and its `emailCaptureEnabled`. `uiText` and the other options are not modelled.
- Faye.Init: records the subscription on the client directly. Faye's own dispatch of the `/meta/subscribe` frame through the outgoing extension is library-internal, so the model does not tie `Faye.Decorate` to that frame; `Faye.Client.Outgoing` states the extension on any frame it is given.
- Chat.ChatController.GetConversation: replaces the local conversation's attributes with the remote one's. Backbone's `set(remote.toJSON())` merges instead, so a key the remote conversation lacks keeps its local value. The modelled attributes always exist on both sides, so the difference concerns only attributes this model does not have.
- Chat.ChatController.SubmitMessage: after a failed message create the source keeps the unsaved message, with no id and no receipt time, in the collection; the model performs its announce and recount but does not keep it. Such a message still counts towards the author count of a later send's email prompt in the source, and not in the model.
- Chat.ChatController.SubmitMessage: the server's answer to the message create is reduced to its id and receipt time. A push of the same message over the subscription that arrives before that answer is not modelled: in the source the message is then in the collection twice.
- Chat.ChatController.SendMessage: the model keeps the same conversation object through the create step. The source assigns `collection.create`'s return value, which for a model passed in is that model itself.
