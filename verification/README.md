# Uploadcare upload client: push channel, upload dispatch and two API requests

This project models in Dafny four pieces of the Uploadcare upload client (TypeScript). It proves what each piece promises.

- **The push-channel client** (`src/uploadFile/pusher.ts`). A `Pusher` object counts subscribers and holds an optional WebSocket, a connected flag and a queue of pending subscribe messages. Subscribing sends a `pusher:subscribe` message when connected and queues it otherwise. The `connected` listener flushes the queue in order. Unsubscribing while disconnected filters the channel out of the queue. The last unsubscribe tears the connection down. Incoming socket events are classified: `pusher:connection_established` emits `connected`; `progress`, `success` and `fail` emit a status record on the message's channel; anything else is ignored.
  - `PusherModel` states every operation as a function on a `State` value, with its lemmas.
  - `PusherClient.Pusher` is the class itself. Its methods update its fields in place. Each is proved to move the fields exactly as the matching `PusherModel` function moves a `State`. Every public method keeps `PusherModel.Consistent`: a connected client has nothing queued, every handler sits on its own event, every socket id was issued by `connect`, and every error wrapper key was issued by `error`. Each also keeps `PusherModel.Coherent`, which adds that a connected client holds a socket. The one exception is a message from a socket that has already been torn down (see Findings).
  - The socket is an append-only log `wire` of open, transmit and close requests.
  - The emitter is a map from event name to registered handlers. Calls of user callbacks are logged in `delivered`.
- **Upload strategy dispatch** (`uploadFile` in `src/uploadFile/index.ts`). File data at or above the multipart threshold goes to the multipart upload. Smaller file data goes to the single-request upload. A URL goes to the URL import and a UUID to the from-uploaded path, tried in that order. Anything else is a `TypeError`. `baseURL` and `baseCDN` are defaulted, and each strategy gets its own subset of the options.
- **The file-info request** (`src/api/info.ts`): the `/info/` query and options, and `info` resolving to the response's `data`.
- **Multipart completion** (`src/api/multipartComplete.ts`). The request is described by its method, URL, form fields, defaults and retry bound. The parsed answer becomes either an `UploadClientError`, with message `[statusCode] content`, or the file info. Module `Decimal` prints integers as the template literal does for magnitudes below 10^21, and parses them back. This proves that the message determines the status code and content.

Files: `common.dfy` (Option, Result), `pusher_model.dfy`, `pusher.dfy`, `upload_file.dfy`, `info.dfy`, `multipart_complete.dfy`.

## Model

| member | source | states |
|---|---|---|
| PusherModel.StatusOf | src/uploadFile/pusher.ts:32-40 | `'success'` gives Success and `'progress'` gives Progress, both ways round; every other type gives Error |
| PusherModel.Response | src/uploadFile/pusher.ts:28-41 | the record has the payload's keys plus `status` and keeps every payload value; `status` is the event's status unless the payload carries its own |
| PusherModel.Classify | src/uploadFile/pusher.ts:90-104 | `pusher:connection_established` is exactly the `connected` case; exactly `progress`/`success`/`fail` emit a status; every other event is ignored |
| PusherModel.ChannelOf | src/uploadFile/pusher.ts:121 | the channel is `task-status-` followed by the token, and can never be the `connected` or `error` event |
| PusherModel.WithoutChannel | src/uploadFile/pusher.ts:148 | a message is kept exactly when it was queued and its channel differs from the unsubscribed one |
| PusherModel.WithoutChannelConcat | src/uploadFile/pusher.ts:148 | filtering distributes over concatenation, so the kept messages keep their queue order |
| PusherModel.WithoutChannelKeeps | src/uploadFile/pusher.ts:148 | a queue with no message for the channel is returned unchanged |
| PusherModel.On | src/uploadFile/pusher.ts:81 | `on` appends the handler to that event's handlers and leaves other events alone |
| PusherModel.OffAll | src/uploadFile/pusher.ts:144 | `off(channel)` leaves the channel with no handlers and other events alone |
| PusherModel.Off | src/uploadFile/pusher.ts:162 | `off(event, handler)` removes exactly that handler from that event |
| PusherModel.Sent | src/uploadFile/pusher.ts:114 | without a socket nothing is transmitted; with one, there is one request per message |
| PusherModel.SentInOrder | src/uploadFile/pusher.ts:114 | with a socket, the i-th request transmits the i-th message over that socket |
| PusherModel.Send | src/uploadFile/pusher.ts:109-115 | `send` appends one transmit on the held socket, and is a no-op when there is no socket |
| PusherModel.SendAll | src/uploadFile/pusher.ts:83 | sending a sequence transmits its messages in order and changes nothing else |
| PusherModel.Connect | src/uploadFile/pusher.ts:73-81 | a socket is opened only when the client is not connected and holds none; it gets the next id `nextSocket` and one more `connected` listener is registered; otherwise nothing changes |
| PusherModel.ConnectOpensFreshSocket | src/uploadFile/pusher.ts:74-75 | in a consistent state, the socket `connect` opens has an id that no earlier open, transmit or close used |
| PusherModel.ConnectIdempotent | src/uploadFile/pusher.ts:74 | calling `connect` again changes nothing |
| PusherModel.Subscribe | src/uploadFile/pusher.ts:117-133 | the count rises by one; the emitter is the one `connect` left, with the callback appended to the token's channel and every other event untouched; the socket and socket counter are those `connect` left (a new socket `nextSocket` when none was held and not connected), and `nextKey` is unchanged; connected: the subscribe message is transmitted and the queue is unchanged; disconnected: the message is appended to the queue and nothing is transmitted (at most a socket is opened) |
| PusherModel.TearDown | src/uploadFile/pusher.ts:151-155 | the held socket is closed, `ws` becomes undefined and the client is disconnected; nothing else changes |
| PusherModel.Unsubscribe | src/uploadFile/pusher.ts:135-156 | the count falls by one and the channel loses its callbacks; connected: the unsubscribe message is transmitted; disconnected: the channel is filtered out of the queue; teardown happens exactly when the new count is 0 |
| PusherModel.SubscribeUnsubscribeRestoresQueue | src/uploadFile/pusher.ts:117-149 | while disconnected, subscribing and unsubscribing a token with nothing queued restores the queue and the count |
| PusherModel.ResubscribeAfterTeardown | src/uploadFile/pusher.ts:74-85 | after the last unsubscribe, the next subscribe opens a new socket, registers one more `connected` listener and queues its message |
| PusherModel.OnError | src/uploadFile/pusher.ts:158-165 | `error(callback)` appends a self-removing handler keyed `nextKey` to the `error` event; no other event changes, and nothing else but the key counter changes |
| PusherModel.OnErrorAddsFreshHandler | src/uploadFile/pusher.ts:159-164 | in a consistent state, the wrapper `error(callback)` registers differs from every wrapper already registered, as a new closure does |
| PusherModel.OnConnected | src/uploadFile/pusher.ts:81-85 | the client becomes connected, every queued message is transmitted in queue order, and the queue ends empty |
| PusherModel.OnConnectedIdempotent | src/uploadFile/pusher.ts:81-85 | running the `connected` listener a second time changes nothing |
| PusherModel.Invoke | src/uploadFile/pusher.ts:81-85 | no handler touches the socket, the count or the id counters; a user callback leaves the queue, the socket log and the connection flag alone; an error wrapper is no longer registered after it runs |
| PusherModel.EmitTo | src/uploadFile/pusher.ts:92-102 | running handlers calls each user callback once, in order; only `error` handlers leave the emitter, each removing itself |
| PusherModel.Emit | src/uploadFile/pusher.ts:92-102 | emitting calls the user callbacks registered for the event, in order, and leaves the socket and the count alone |
| PusherModel.EmitToCallbacksOnly | src/uploadFile/pusher.ts:99-102 | emitting to status callbacks only logs their calls |
| PusherModel.EmitToConnectedListeners | src/uploadFile/pusher.ts:81-85 | however many `connected` listeners reconnects have registered, emitting `connected` flushes exactly once |
| PusherModel.ErrorHandlersFireOnce | src/uploadFile/pusher.ts:158-165 | an error reaches every registered error callback once and removes every error handler, so a second error reaches none |
| PusherModel.SocketError | src/uploadFile/pusher.ts:77-79 | the socket's `error` listener calls every registered error callback in order, and leaves the socket and the count alone |
| PusherModel.EmitToOnceHandlers | src/uploadFile/pusher.ts:158-163 | running only error wrappers changes nothing but the callback log and the emitter |
| PusherModel.SocketErrorOnlyNotifies | src/uploadFile/pusher.ts:77-79 | a socket error leaves no error handler behind and leaves the socket, queue, socket log, connection flag, count and counters as they were |
| PusherModel.Receive | src/uploadFile/pusher.ts:87-105 | an event that is neither the connection event nor a status event changes nothing |
| PusherModel.ReceiveConnectionEstablished | src/uploadFile/pusher.ts:91-94 | `pusher:connection_established` runs the flush once if some `connect` registered a listener |
| PusherModel.ReceiveStatus | src/uploadFile/pusher.ts:96-103 | a status event on a task channel (neither `connected` nor `error`) calls the channel's callbacks with `response(event, data)` and changes nothing else |
| PusherModel.InitialCoherent | src/uploadFile/pusher.ts:66-71 | a new client is disconnected with an empty queue and no handlers, so it satisfies the invariant |
| PusherModel.ConnectKeepsCoherent | src/uploadFile/pusher.ts:73-85 | `connect` keeps both invariants |
| PusherModel.SendKeepsCoherent | src/uploadFile/pusher.ts:109-115 | `send` keeps both invariants |
| PusherModel.SubscribeKeepsCoherent | src/uploadFile/pusher.ts:117-133 | subscribing keeps both invariants |
| PusherModel.UnsubscribeKeepsCoherent | src/uploadFile/pusher.ts:135-156 | unsubscribing keeps both invariants, including the close of the held socket |
| PusherModel.OnErrorKeepsCoherent | src/uploadFile/pusher.ts:158-165 | registering an error callback keeps both invariants |
| PusherModel.OnConnectedKeepsCoherent | src/uploadFile/pusher.ts:81-85 | the flush keeps `Consistent`, and gives `Coherent` when a socket is held |
| PusherModel.EmitToKeepsCoherent | src/uploadFile/pusher.ts:81-85 | running handlers keeps `Consistent`; it keeps `Coherent` while a socket is held or when no `connected` listener runs |
| PusherModel.ReceiveKeepsCoherent | src/uploadFile/pusher.ts:87-105 | every incoming message keeps `Consistent`; a message arriving while a socket is held keeps `Coherent` |
| PusherModel.SocketErrorKeepsCoherent | src/uploadFile/pusher.ts:77-79 | a socket error keeps both invariants |
| PusherModel.StaleConnectionLosesSubscription | src/uploadFile/pusher.ts:81-94 | after subscribe then unsubscribe, a late `pusher:connection_established` leaves the client connected without a socket, breaking `Coherent`; a following subscribe is neither transmitted nor queued |
| PusherModel.ReceiveFrom | src/uploadFile/pusher.ts:87-105 | the intended handling: a message from any socket other than the held one changes nothing, and neither does an ignored event |
| PusherModel.ReceiveFromKeepsCoherent | src/uploadFile/pusher.ts:87-105 | handled as intended, a message keeps `Coherent` whatever socket it comes from |
| PusherClient.Pusher.constructor | src/uploadFile/pusher.ts:66-71 | the fields start as the initial state, which satisfies both invariants |
| PusherClient.Pusher.Connect | src/uploadFile/pusher.ts:73-107 | updates the fields as `PusherModel.Connect`; keeps both invariants |
| PusherClient.Pusher.Send | src/uploadFile/pusher.ts:109-115 | updates the fields as `PusherModel.Send`; keeps each invariant that held before; it runs in the middle of the flush, so it demands neither |
| PusherClient.Pusher.Subscribe | src/uploadFile/pusher.ts:117-133 | updates the fields as `PusherModel.Subscribe`: count plus one, message queued exactly when disconnected; keeps both invariants |
| PusherClient.Pusher.Unsubscribe | src/uploadFile/pusher.ts:135-156 | updates the fields as `PusherModel.Unsubscribe`: count minus one, queue filtered when disconnected, torn down at 0; keeps both invariants |
| PusherClient.Pusher.Error | src/uploadFile/pusher.ts:158-165 | updates the fields as `PusherModel.OnError`; keeps both invariants |
| PusherClient.Pusher.OnConnected | src/uploadFile/pusher.ts:81-85 | the `forEach` loop transmits the queue in order and the queue is then emptied, as `PusherModel.OnConnected` |
| PusherClient.Pusher.Invoke | src/uploadFile/pusher.ts:81-85 | running one handler updates the fields as `PusherModel.Invoke` |
| PusherClient.Pusher.Emit | src/uploadFile/pusher.ts:92-102 | emitting updates the fields as `PusherModel.Emit` |
| PusherClient.Pusher.OnMessage | src/uploadFile/pusher.ts:87-105 | the `message` listener of any socket this client opened, including one torn down since, updates the fields as `PusherModel.Receive`; keeps `Consistent`, and keeps `Coherent` when a socket is held |
| PusherClient.Pusher.OnSocketError | src/uploadFile/pusher.ts:77-79 | the socket's `error` listener emits `error` as `PusherModel.SocketError`; keeps both invariants |
| UploadFile.Effective | src/uploadFile/index.ts:73-91 | a property that is given keeps its value; `baseURL` and `baseCDN` are never undefined; every other property is bound as given |
| UploadFile.Forward | src/uploadFile/index.ts:102-124 | the options object passed on has exactly the listed properties |
| UploadFile.Dispatch | src/uploadFile/index.ts:67-192 | supported input is routed and anything else is a `TypeError` with the "not supported" message; multipart exactly for file data at or above the threshold, base upload exactly for smaller file data, URL import exactly for URL strings, from-uploaded exactly for UUID strings that are not URLs; the data is passed on unchanged |
| UploadFile.DispatchDefaults | src/uploadFile/index.ts:73-91 | `baseURL` and `baseCDN` take the defaults when undefined and are passed through otherwise; every other option is passed through unchanged |
| UploadFile.KeysPerStrategy | src/uploadFile/index.ts:102-188 | the chunking options belong only to multipart, the URL-import options only to the URL import, and the storage and signature options to every path but from-uploaded |
| UploadFile.DispatchForwardsPerStrategy | src/uploadFile/index.ts:102-188 | the routed call receives the shared options plus exactly its own strategy's options |
| UploadFile.UrlGuardFirst | src/uploadFile/index.ts:148-172 | a string that is both a URL and a UUID goes to the URL import |
| InfoApi.GetRequestQuery | src/api/info.ts:9-23 | `pub_key` is the public key or `''`; `file_id` is the uuid; `source` is present, holding the setting, exactly when the setting is truthy; otherwise only `pub_key` and `file_id` |
| InfoApi.GetRequestOptions | src/api/info.ts:25-30 | the path is `/info/` and the query is `getRequestQuery(uuid, settings)`, so `file_id` is the uuid and only `pub_key`, `file_id` and `source` can appear |
| InfoApi.Info | src/api/info.ts:39-44 | resolves to the response's `data` and rejects with the request's error |
| InfoApi.InfoWithoutSettings | src/api/info.ts:39-43 | without settings the query is exactly `pub_key = ''` and `file_id = uuid` |
| Decimal.NatToDecimal | src/api/multipartComplete.ts:57 | a status code prints as a non-empty string of digits |
| Decimal.IntToDecimal | src/api/multipartComplete.ts:57 | an integer prints as digits with at most a leading minus sign |
| Decimal.ParseNatToDecimal | src/api/multipartComplete.ts:57 | parsing the printed digits gives the number back |
| Decimal.ParseIntToDecimal | src/api/multipartComplete.ts:57 | parsing the printed integer gives it back |
| MultipartComplete.CompleteCall | src/api/multipartComplete.ts:27-66 | a `POST` to `/multipart/complete/` with `jsonerrors=1`; form fields exactly `uuid`, `UPLOADCARE_PUB_KEY`, `source` in that order, holding the uuid, the key and the source (default `'local'`); base URL and retry bound defaulted; the attempt is wrapped in the throttle retry |
| MultipartComplete.Settle | src/api/multipartComplete.ts:52-64 | a body with `error` is rejected with message `[statusCode] content`, carrying the error and headers, and the message parses back to that error; any other body is returned unchanged |
| MultipartComplete.ErrorMessage | src/api/multipartComplete.ts:57 | the message `[statusCode] content` parses back to the status code and content it was made from |

## Left out

- The WebSocket transport, the server URL, protocol and port selection, and JSON parsing and printing (`src/uploadFile/pusher.ts:43-51, 88, 101, 110`) are I/O. Sending is an append to the `wire` log, and incoming messages arrive already parsed. A payload that fails to parse is not modelled.
- The `Events` emitter's own file (`./events`) is not part of this model. The model assumes that `on` appends a handler, `off(event)` drops the event's handlers, `off(event, handler)` drops that handler, and `emit` runs the handlers registered when it starts, in registration order. Each `connect` that opens a socket registers one more `connected` listener, as the source does; no reset is invented.
- Which socket a message comes from is not tracked by `PusherClient.Pusher.OnMessage`. The source never removes a socket's `message` listener, so a message from a socket torn down since is handled like any other. Whether `../tools/sockets.node` still delivers messages after `close()` is not part of this model; the consequence is recorded under Findings.
- PusherModel.Response: a status record is a flat map of scalar values (status, text, integer, flag). A `success` payload is a file-info object with nested objects and nulls; those are not modelled.
- Handler functions are opaque numbers. Calling a user callback is an entry in `delivered`; what the callback does is outside the model.
- `isFileData`, `isUrl`, `isUuid`, `getFileSize` and `isMultipart` live in files that are not part of this model. File data carries its size; `isUrl` and `isUuid` are parameters; `isMultipart(size)` is taken to be `size >= threshold`, with the threshold a parameter.
- `uploadMultipart`, `uploadBase`, `uploadFromUrl` and `uploadFromUploaded` are not called. `Dispatch` returns the strategy and its arguments. The promises they return, `cancel` and `onProgress` are outside the model; the two callbacks are opaque handles.
- Any value that is neither file data nor a string is an `OtherValue` carrying the text it shows inside the error message. The source also hands such values to `isUrl` and `isUuid`; the model takes both guards to be false for them.
- `prepareOptions` and `request` (`src/api/info.ts`) are folded into the transport function that `InfoApi.Info` takes. The query is a map, so the order of its parameters is not modelled.
- `request`, `getUrl`, `getUserAgent`, `getFormData`, `camelizeKeys` and `retryIfThrottled` (`src/api/multipartComplete.ts`) are described by their arguments and not run. The retry behaviour itself and the throwing of an error from inside the retried attempt are not modelled. A status code is an integer; a non-integral or missing `statusCode` is not modelled. The `request` object handed to `UploadClientError` is not carried.
- MultipartComplete.Settle: the body arrives already parsed. A body that is not JSON makes `JSON.parse` throw (`src/api/multipartComplete.ts:53`). A body whose `error` is `null` passes the `'error' in response` test and then throws a `TypeError` when line 57 reads `statusCode`. Neither rejection is modelled; `Body.error` is either absent or a full service error.
- `src/uploadFile/uploadBase.ts`, `src/groupFrom/UploadFromObject.ts` and `src/api/fromUrlStatus.ts` are not modelled. The first is a promise pipe, the second is concurrent orchestration, and the third is a one-line request wrapper.
- Integer widths: counts and sizes are unbounded integers; JavaScript numbers are not bounded in the model.
- Decimal.IntToDecimal: prints every integer in plain digits; JavaScript switches to exponent form (`1e+21`) from 10^21 on, so the printed status code matches only below that magnitude.

## Findings

| source | as written | input that shows it | evidently intended | confidence | as-written member | corrected member |
|---|---|---|---|---|---|---|
| src/uploadFile/pusher.ts:81-94 | teardown closes the socket but never removes its `message` listener or the `connected` listener that its `connect` registered; a late `pusher:connection_established` therefore sets `isConnected` with no socket held | `subscribe(t, cb)`, then `unsubscribe(t)` before the server's `pusher:connection_established`; that message then arrives on the closing socket; then `subscribe(t, cb)` again: nothing is sent or queued, and the subscription is lost until the count returns to 0 | messages from a socket that is no longer held are ignored, so a connected client always holds a socket | low: depends on the socket implementation delivering messages after `close()`; not executed | PusherModel.StaleConnectionLosesSubscription | PusherModel.ReceiveFromKeepsCoherent |
