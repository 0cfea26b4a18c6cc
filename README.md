# wx-login ticket registry in Dafny

A model of the part of wx-login that pairs a browser with a WeChat scan. The browser opens a
server-sent-event stream. The Durable Object `WxLoginDurableObject` issues it a ticket (the
configured `TicketPrefix` followed by a random UUID), keeps the ticket in its `clients` map,
arms an expiry timer and pushes `{code: 100, data: ticket}`. Three things can end the wait:

- a scan notification for the ticket arrives: the stream gets `{code: 200, data: uid}` and is
  closed, the ticket is dropped, and the notification is answered `登录成功！`;
- the timer fires first: the stream gets `{code: 408, data: '二维码已过期'}` and is closed, and
  the ticket is dropped;
- the browser disconnects: the timer is cleared and the ticket dropped, and nothing is written.

A notification for a ticket that is not live is answered `二维码已过期或不存在。` and changes
nothing. The worker in front of the object forwards a webhook post only when it is a `SCAN`
event with a non-empty `EventKey`.

Files:

- `registry.dfy`, module `Registry`: the registry as a state machine over values. A `State`
  holds the prefix, the live tickets (`clients`: ticket to stream id), the table of every
  stream opened (ticket, event log, closed flag) and the set of tickets with an armed timer.
  `Valid` is the invariant: every live ticket maps to an open stream of its own, every log is
  the issued event followed by at most one terminal event, a writer is closed exactly when
  its terminal event is there, no two streams share a ticket, and every live ticket has an
  armed timer. `Open`, `Publish`, `Expire`, `Abort` and the shared terminal step `Close` each
  keep it; `Run` applies any admissible sequence of them, and the lemmas state what holds
  across whole runs.
- `durable_object.dfy`, module `DurableObject`: class `WxLoginDurableObject`, whose handlers
  update `clients`, `streams` and `armed` in place, in the order of the source, and are each
  proved to perform exactly the matching step of `Registry`.
- `worker.dfy`, module `Worker`: the routing of the worker's `fetch` as a pure function over
  the path, the method, two query parameters and the already-parsed notification fields, and
  the webhook post composed with `Publish`.
- `scenarios.dfy`, module `Scenarios`: three client methods that drive a fresh object
  through a delivered, an expired and an abandoned ticket.

Modelling choices:

- Each handler runs to completion before another starts, as on the object's event loop.
  Timer firings and disconnects are method calls the environment may make in any order. A
  timer can fire only while it is armed (`OnTimeout` and `Expire` require it).
- `crypto.randomUUID` becomes a `uuid` parameter; `HandleSse` and `Open` require the
  resulting ticket to be fresh (no stream was ever opened for it).
- A writer is a stream id into the table `streams`; writing appends to its log, and a write
  to a closed writer is dropped, as the source swallows that error.
- The code clears no timer on delivery (src/index.js:123-131) and closes the writer at once
  (src/index.js:147), with no grace delay; the model follows the code. After a delivery the
  ticket's timer stays armed and its later firing is proved harmless (`StaleTimerIsNoOp`,
  `PublishExpireRace`, `Scenarios.DeliveredOnce`).

## Model

| member | source | states |
|---|---|---|
| `Registry.Write` | src/index.js:133-138 | a write appends the event to an open stream's log, leaves a closed stream's log as it was (the error is swallowed), and changes no other stream |
| `Registry.Close` | src/index.js:140-151 | on an absent ticket nothing changes; on a live ticket the final event, if any, is appended, the writer is closed, the ticket is removed and no other stream or ticket changes |
| `Registry.Open` | src/index.js:97-112 | the new ticket starts with the prefix, becomes live with a stream whose log is exactly the issued event, gets an armed timer; earlier streams and live tickets are unchanged; the invariant is kept |
| `Registry.Publish` | src/index.js:123-131 | on an absent ticket the reply is the failure string and the state is unchanged; on a live ticket the reply is the success string, the stream's log becomes issued then `{200, uid}`, it is closed, the ticket removed, the timer left armed; the invariant is kept |
| `Registry.Expire` | src/index.js:103-105 | the fired timer is disarmed; a live ticket's log becomes issued then the 408 expiry event and it is closed and removed; on a ticket no longer live no stream and no live ticket changes; the invariant is kept |
| `Registry.Abort` | src/index.js:107-110 | the ticket is removed and its timer disarmed; no stream changes (no event, no close); the invariant is kept |
| `Registry.Step` | src/index.js:97-151 | any enabled handler keeps the invariant, and keeps every settled stream (one whose ticket is not live) exactly as it was and its ticket not live |
| `Registry.Run` | src/index.js:97-151 | after any admissible sequence of handlers the invariant holds: every log is the issued event followed by at most one terminal event |
| `Registry.SettledStreamFrozen` | src/index.js:124-151 | once a stream's ticket is not live, no sequence of handlers changes that stream or makes its ticket live again |
| `Registry.ClosedLogNeverGrows` | src/index.js:133-149 | a closed stream's log is the same after any sequence of handlers |
| `Registry.SettledTicketRefused` | src/index.js:123-127 | a ticket that has left the live set, whether delivered, expired or abandoned, gets the failure string and changes nothing, after any sequence of handlers |
| `Registry.PublishIsSingleUse` | src/index.js:123-131 | after a successful delivery and any sequence of handlers, a second notification for the same ticket gets the failure string and changes nothing |
| `Registry.StaleTimerIsNoOp` | src/index.js:103-105 | a timer whose ticket has settled, firing after any sequence of handlers, only disarms itself |
| `Registry.PublishExpireRace` | src/index.js:103-131 | for a live ticket, delivery then expiry leaves the log issued then success, expiry then delivery leaves issued then expiry and the delivery fails: exactly one terminal event either way |
| `DurableObject.WxLoginDurableObject.constructor` | src/index.js:80-83 | the object starts with no live tickets, no streams and no timers, and satisfies the invariant |
| `DurableObject.WxLoginDurableObject.WriteToSse` | src/index.js:133-138 | updates the stream table as `Registry.Write` does and leaves tickets and timers alone |
| `DurableObject.WxLoginDurableObject.CloseConnection` | src/index.js:140-151 | updates the object as `Registry.Close` does |
| `DurableObject.WxLoginDurableObject.HandleSse` | src/index.js:97-121 | returns prefix plus uuid, now live with log exactly the issued event; the new state is `Registry.Open` of the old one; keeps the invariant |
| `DurableObject.WxLoginDurableObject.HandleQrLogin` | src/index.js:123-131 | replies success exactly when the ticket was live and failure otherwise; the new state and reply are `Registry.Publish` of the old state; keeps the invariant |
| `DurableObject.WxLoginDurableObject.OnTimeout` | src/index.js:103-105 | the new state is `Registry.Expire` of the old one; keeps the invariant |
| `DurableObject.WxLoginDurableObject.OnAbort` | src/index.js:107-110 | the new state is `Registry.Abort` of the old one; keeps the invariant |
| `Worker.Dispatch` | src/index.js:164-216 | for each route, exactly the requests that reach it: GET `/` echoes `echostr`; POST `/` forwards `(EventKey, FromUserName)` exactly for a SCAN event with a non-empty key, throws (status 500) exactly when the body has no `<xml>` root, and acknowledges every other post; `/qrcode` without a non-empty ticket is status 400; other methods on `/` and unknown paths are 404 |
| `Worker.HandleWebhook` | src/index.js:169-195 | a post without an `<xml>` root fails, and another non-scan post gets an empty body, both leaving the registry as it was; a scan gets the success string exactly when its ticket was live and the failure string otherwise; the registry changes only for a scan of a live ticket |
| `Scenarios.DeliveredOnce` | src/index.js:97-151 | open then scan: first reply success, second failure, the log is issued then `{200, uid}`, and the stale timer firing adds nothing |
| `Scenarios.ExpiredUnscanned` | src/index.js:97-151 | open then timer: the log is issued then the expiry event, the stream is closed, a later scan fails |
| `Scenarios.AbandonedAtOnce` | src/index.js:97-151 | open then disconnect: the ticket is not live, its timer is not armed, the log is only the issued event, a later scan fails |

## Left out

- The login page HTML and its browser script (src/index.js:8-75): user interface.
- QR code rendering with `qrcode-svg` (src/index.js:207-208): a foreign library; the model only says which ticket the image carries.
- XML parsing with `fast-xml-parser` (src/index.js:171-172): a foreign call; the model takes the parsed fields, with a missing field as the empty string, or no record at all when the body has no `<xml>` root. Which texts the parser accepts is not modelled. A numeric `EventKey`, which the parser may produce, and an absent `FromUserName` (sent on as `undefined`) are not modelled.
- The XML reply template and its `Date.now()` timestamp (src/index.js:185-191): formatting and a clock; `HandleWebhook` returns only the content the reply carries.
- `TransformStream`, `TextEncoder`, `Response` headers, the `data:` framing and `JSON.stringify` of events: I/O plumbing; a stream is its event log and a closed flag.
- Timer durations and `AuthExpireSecs` arithmetic (src/index.js:103-105): firing is an environment call, enabled while the timer is armed.
- `crypto.randomUUID` (src/index.js:98): replaced by a caller-supplied identifier whose ticket must be fresh.
- The Durable Object lookup `idFromName`/`get` (src/index.js:161-162) and the object's internal URL routing with its JSON body (src/index.js:86-95): plumbing between the worker and the object.
- Interleaving at the `await` inside `handleQrLogin` (src/index.js:128): each handler is atomic here, so a timer firing between the success write and the close is not covered.
