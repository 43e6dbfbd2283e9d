# HumanBios web relay: session cache and message relay

A model of the web relay in `server.py`. The relay keeps one in-memory `cache`
that maps each session id to a record. The record holds the session's history
and the websocket last bound to it. The relay connects three parties:

- **Session bootstrap** (`GET /api/get_session`). It reuses the session named
  by the cookie when the cache knows it and answers 204. Otherwise it creates a
  fresh id with an empty history and answers 201.
- **The websocket handler** (`/api/messages`). It binds its socket to the
  session from the cookie, or, on a `start` event, to the session named in the
  event. On `new_message` it stores a local echo from "You" and forwards an
  envelope to the backend. On `start` it either forwards a "/start" envelope
  (empty history) or replays the history over its socket. A replay clears the
  buttons of every entry but the newest and tags each entry `new_message`; it
  changes the stored entries themselves, not copies.
- **The backend callback** (`POST /api/webhook/out`). It resolves the sender
  name ("HumanBios" when `user_id == chat_id`). It appends the message to the
  addressed session's history and pushes the callback body to the bound socket.

Every history holds at most `MAXSIZE = 15` entries. An append adds at the tail
and then drops the head when the list has grown past 15.

Files:

- `wrappers.dfy`: `Option` and `Result`.
- `history.dfy`: the append-then-trim step (`Push`) and its FIFO properties.
- `messages.dfy`: entries, callback and forwarded envelopes, frames, name
  resolution and the replay rewrite of a history.
- `server.dfy`: the class `Relay`. Its field `cache` is the session map. Its
  fields `framesSent` and `forwarded` log the frames pushed to clients and the
  envelopes posted to the backend. One method models each route or event.
  `EchoThenReplay` is a client of these methods. It shows, from their
  contracts alone, that three messages sent and then a `start` come back as
  three frames, oldest first, with the buttons of the first two cleared.

The websocket handler's local variables (`session`, `name`, its `ws`, the
request cookies) form the `Handler` value. `Connect` returns it and each event
method receives it. The source's `q` is always the same list object as
`cache[session]["history"]`, because history lists are never replaced. So the
model reads that history from the cache instead of keeping an alias. The
source's exceptions become `Err` results: `UnknownSession` for a `KeyError` on
the cache, `NoSession` for a `new_message` before any session is bound, and
`NoActiveChannel` for a push to a session without a socket. An exception ends
the handler's receive loop; in the model the caller then drops the handler.

## Model

| member | source | states |
|---|---|---|
| `History.Push` | server.py:106-119 | An append to a history within capacity stays within capacity (the same append-then-trim is at server.py:180-193). The result is the old list plus the new item, with the head dropped exactly when the length would have been 16; the new item is last. |
| `History.PushAllIsNewest` | server.py:191-193 | Appending any sequence of items, one at a time, to a history within capacity leaves exactly the newest 15 of old-history-followed-by-items, in arrival order (strict FIFO eviction). |
| `History.AppendsFromEmpty` | server.py:106-119 | After N appends to an empty history it has length min(N, 15) and equals the last min(N, 15) appended items, in arrival order. |
| `History.SixteenAppends` | server.py:180-193 | Sixteen appends to an empty history evict only the first item; the other fifteen remain, in order. |
| `Messages.ResolveName` | server.py:173-175 | The stored and pushed sender name is "HumanBios" when the callback's `user_id` equals its `chat_id`, and the callback's own `first_name` otherwise. |
| `Messages.Replayed` | server.py:155-162 | A replay neither adds nor removes entries. |
| `Messages.ReplayStripsButtons` | server.py:157-162 | After a replay every entry keeps its sender, text, `has_file` and `file` and carries `event = "new_message"`. Every entry but the newest has `buttons = None`, and the newest keeps its buttons. |
| `Messages.ReplayIdempotent` | server.py:155-164 | Replaying an already replayed history leaves it unchanged, so a second replay sends the same frames as the first. |
| `Messages.ReplayPrefixStep` | server.py:157-162 | Rewriting entry i in place turns a history replayed up to i into one replayed up to i + 1 (the step of the replay loop). |
| `Messages.Resolved` | server.py:173-175 | Apart from the added `event` tag, the pushed callback body differs from the posted one only in `first_name`, which is the resolved name. The `event = "new_message"` tag set at server.py:173 travels beside the body in `CallbackFrame`. |
| `Messages.RenderCallback` | server.py:180-190 | The history record of a callback has the resolved name, the callback's text, and its `buttons`, `has_file` and `file` unchanged. It carries no event tag. |
| `Messages.LocalEcho` | server.py:106-116 | The echo record has sender "You", the client's text, no buttons, `has_file = False` and no file. It carries no event tag. |
| `Messages.Forward` | server.py:78-90 | A forwarded envelope has `user_id = chat_id = session` and `service_in = "webchat"`. It carries the handler's name, the instance token and name, `has_message = True` and the text. The "/start" envelope at server.py:135-150 is the same literal with text "/start". |
| `Server.EchoesReplayed` | server.py:155-164 | Replaying the echoes "a", "b", "c" sends three frames on the replaying socket, in that order, each from "You" and tagged `event = "new_message"`; the first two have no buttons. |
| `Server.EchoThenReplay` | server.py:74-164 | A fresh session whose client sends "a", "b" and "c" and then `start` gets exactly three frames back on its socket. They are "a", "b", "c" in that order, each from "You" and tagged `event = "new_message"`, and the first two have no buttons. |
| `Server.FreshIdExists` | server.py:205-207 | Whatever the cache holds, there is a non-empty id that is not in it, so a fresh session id can always be chosen. |
| `Server.Relay.constructor` | server.py:37-41 | The process starts with an empty cache and empty output logs. The instance token and name are fixed from then on (None when registration did not succeed). |
| `Server.Relay.ServeSession` | server.py:200-223 | With no cookie, or a cookie the cache does not know, bootstrap returns 201 and a non-empty id that was not in the cache. That id now maps to an empty history with no socket, and nothing else changes. With a known cookie it returns 204 and that id and changes nothing. |
| `Server.BootstrapTwice` | server.py:205-218 | Bootstrap is idempotent: presenting the id the first call returned gets 204 and the same id. At most that one session is created, and an existing session is never reset. |
| `Server.Relay.BindSocket` | server.py:56-57 | Binding replaces any earlier socket of the session, and no other session's entry changes. Binding an id missing from the cache fails and changes nothing. |
| `Server.Relay.Connect` | server.py:50-64 | A truthy session cookie binds the handler's socket to that session (an unknown id is an error) and takes the sender name from the name cookie. Without one the handler starts unbound, with no name. Nothing is sent. |
| `Server.Relay.AppendToHistory` | server.py:180-193 | The addressed history becomes `Push(old history, entry)`; every other session and both output logs are unchanged; every history stays within capacity. |
| `Server.Relay.OnNewMessage` | server.py:74-122 | With a bound session it appends exactly one local echo (sender "You", the client's text, no buttons, `has_file = False`, no file) with the trim rule. It then forwards one envelope with `user_id = chat_id = session`, `service_in = "webchat"`, the instance token and name and `has_message = True`. It sends no frames. Unbound, it fails and changes nothing. |
| `Server.Relay.Replay` | server.py:155-164 | The stored history becomes `Replayed` of the old one, rewritten in place. The frames sent are exactly the rewritten entries, oldest first, one per entry, all on the replaying socket. Nothing is forwarded. |
| `Server.Relay.OnStart` | server.py:124-164 | An unbound handler first binds to the session named in the event; a missing or unknown id is an error that changes nothing. Then an empty history forwards exactly one "/start" envelope, sends no frames and leaves the history unchanged. A non-empty history is replayed over the handler's socket and nothing is forwarded. |
| `Server.Relay.WebhookFromServer` | server.py:166-197 | An unknown `chat_id` is an error that changes nothing. Otherwise the history gets one entry with the resolved name and the callback's text, `buttons`, `has_file` and `file` unchanged, under the trim rule. Then the callback body, with the resolved name and `event = "new_message"`, is pushed to the bound socket and the reply is status 200. Without a bound socket the append still happens and the result is an error. |

## Left out

- Routing, CORS and cookie handling of the web framework: cookies are optional inputs, and the cookie the bootstrap route sets is the returned `session`.
- The HTTP posts to the backend and the startup registration: a post is an append to `forwarded`, and the instance token and name are constants of the `Relay`. A failing post (raised after the history append) is not modelled.
- The websocket receive loop and JSON decoding: one event is one method call. Frames that are not valid JSON, or that lack a key the handler indexes (such as `message.text`), are not modelled. Events other than `new_message` and `start` fall through both branches of the handler and change nothing; the model has no member for them.
- Keys of the client's `new_message` payload other than the message text, which the source forwards verbatim: the `Envelope` carries only the keys the relay sets and the text.
- `ws.send` failures on a closed or stale socket, and closing a connection: sends always succeed and append to `framesSent`, and no binding is ever removed, as in the source.
- The random `uuid4()` id: any non-empty id not already in the cache. The source never checks that the id is fresh; on a uuid collision it would overwrite the existing record. The model assumes the uniqueness of uuid4 instead, through its choice of id and the `reply.session !in old(cache)` clause of `ServeSession`. The monotonic clock: the reply's timestamp is the parameter `now`.
- Concurrency: the source awaits inside a replay and between a callback's append and its push, so other handlers can interleave there. The model runs each operation to completion. The source has no locking.
- Callback `first_name` values are strings; a JSON null name is not modelled.
- The callback body's JSON shape: the push sends every key the backend posted, but `CallbackFrame` carries only the seven fields the relay reads. A callback that lacks `buttons`, `has_file` or `file` raises a KeyError before the append, which is not modelled. A non-string `user_id` never equals `chat_id`; the model types it as a string.
- Bootstrap is a plain check-then-insert with no atomic get-or-create, bindings are never cleared on disconnect, and replay rewrites the stored entries in place and leaves the `event` key on them. The model follows the code.
