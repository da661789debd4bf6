# Currency-rate chat server and batch fetcher, modelled in Dafny

The repository has two scripts that both read the PrivatBank exchange-rate
answer (a JSON object whose `exchangeRate` list holds one record per currency):

- `server.py` runs a websocket chat server. Each connection is registered under
  a generated display name. Every received message is either a rate command or
  a chat line. A command is a message that starts with the literal `exchange`
  and has at least two words. It gets the quote for the upper-cased second
  word, sent back to the sender alone. A chat line is sent as `<name>: <message>`
  to every registered connection, the sender included. The handler always
  unregisters the connection on the way out.
- `exchange_rate.py` fetches the rates for a list of past days. For each day
  it picks the USD record, the EUR record and the record of an optional
  requested currency, and returns two or three formatted lines, or nothing.

The model:

| file | module | models |
|---|---|---|
| `wrappers.dfy` | `Wrappers` | Python's `None`-or-value (`Option`) |
| `text.dfy` | `Text` | `str.isspace`, `split()`, `startswith`, `upper`, `strip` |
| `rates.dfy` | `Rates` | the decoded bank answer, its truthiness, the quote line format |
| `quote_lookup.dfy` | `QuoteLookup` | the server's `get_exchange` search loop |
| `router.dfy` | `Router` | the command/chat decision of `distrubute` |
| `chat_server.dfy` | `ChatServer` | class `Server`: registry, sends, receive loop, handler |
| `exchange_rate.dfy` | `ExchangeRate` | the batch `get_exchange`, the date list and the currency normalisation of `main` |

A rate record is a map from field name to an opaque string value. A field the
code reads but the record lacks is therefore a `KeyError`, and the model
follows where each script catches it. The server turns it into
`Failed to retrieve data`. The batch fetcher turns it into `None`.

The `Server` class holds the `clients` set, the display names (`ws.name`) and
an `outbox` that records every successful send. Each sending operation takes
the transport's state as a map from connection to how it was closed. A send to
a closed peer raises `ConnectionClosedOK` or `ConnectionClosedError`. A send of
`None` raises `TypeError`. The model assumes the legacy
`WebSocketServerProtocol` API that `server.py` imports: its `send` checks that
the peer is open before it looks at the payload, so `None` sent to a closed
peer raises the close exception. (The newer asyncio `ServerConnection.send`
checks the payload type first.) A broadcast visits the set in its iteration
order. That order is a parameter `order` that lists each client exactly once,
and it is the same for the whole receive loop, because the set does not change
during it. The broadcast's first failing send ends it. The exception reaches
the sender's handler, so a recipient's closed connection can end the sender's
session.

The code differs from a natural reading of its purpose in four places. The
model follows the code in all four:

- The command test is `message.startswith("exchange")` on the whole message.
  It is case-sensitive and not limited to the first word. `"exchangeX usd"` is
  a command and `"Exchange usd"` is chat (`Router.GluedCommandExample`,
  `Router.ChatExamples`).
- A bare `exchange` has only one word, so it is chat.
- A broadcast does not isolate recipients. One closed recipient stops the
  sends to the rest and raises in the sender's handler
  (`ChatServer.NothingAfterFirstClosed`).
- When no record matches, the server's lookup returns `None` rather than the
  failure text. Sending that `None` raises `TypeError`, which ends the sender's
  handler after unregistering it. Likewise `unregister` uses `set.remove`, so
  it needs the connection to be present.

## Model

| member | source | states |
|---|---|---|
| `Text.IsSpace` | server.py:78 | space, tab, newline and carriage return are whitespace to `split()`; ASCII letters, digits and `_` are not |
| `Text.StartsWith` | server.py:79 | `startswith` holds exactly when the message is the prefix followed by the rest of the message |
| `Text.Split` | server.py:78 | every word of `split()` is non-empty and free of whitespace |
| `Text.SplitSkipsSpaces` | server.py:78 | leading whitespace produces no word |
| `Text.SplitWord` | server.py:78 | a word followed by nothing or by whitespace is split off whole, as the first element |
| `Text.SplitJoinSpaced` | server.py:78 | round trip: splitting words joined by single spaces returns exactly those words |
| `Text.UpperChar` | server.py:80 | a lower-case ASCII letter becomes its capital (same offset from `A` as from `a`); every other character is unchanged; whitespace stays whitespace |
| `Text.Upper` | server.py:80 | `upper()` keeps the length, leaves no lower-case ASCII letter, turns each `a`-`z` into its capital and keeps every other character; whitespace positions are unchanged and a word stays a word |
| `Text.UpperSlice` | server.py:80 | upper-casing a slice equals slicing the upper-cased string |
| `Text.UpperOfUpper` | exchange_rate.py:74 | a string without lower-case ASCII letters is its own upper case |
| `Text.UpperIdempotent` | exchange_rate.py:74 | upper-casing twice equals once and keeps a word a word |
| `Text.StripLeft` | exchange_rate.py:74 | the result is a suffix of the input, everything removed is whitespace, and it does not start with whitespace |
| `Text.StripRight` | exchange_rate.py:74 | the result is a prefix of the input, everything removed is whitespace, and it does not end with whitespace |
| `Text.Strip` | exchange_rate.py:74 | `strip()` is an infix `s[i..j]` with only whitespace outside it, and starts and ends with non-whitespace |
| `Text.StripOfTrimmed` | exchange_rate.py:74 | a string that neither starts nor ends with whitespace is its own strip |
| `Text.StripUpper` | exchange_rate.py:74 | stripping after upper-casing equals upper-casing after stripping |
| `Text.StripIdempotent` | exchange_rate.py:74 | stripping twice equals stripping once |
| `Rates.Truthy` | server.py:36 | a truthy answer is a decoded body; any body that has an `exchangeRate` field is truthy |
| `Rates.QuoteLine` | server.py:39 | a quote line starts with `<code> - buy: ` and ends with the date |
| `QuoteLookup.Reply` | server.py:39 | a matching record yields the failure text exactly when it lacks an NB rate field (the caught `KeyError`) |
| `QuoteLookup.Search` | server.py:37-39 | any answer is the failure text or the reply built from a record whose currency is the code |
| `QuoteLookup.Quote` | server.py:33-44 | a falsy answer, or one without `exchangeRate`, yields `Failed to retrieve data` |
| `QuoteLookup.GetExchange` | server.py:33-44 | the search loop with early returns computes `Quote` |
| `QuoteLookup.FirstMatchAnswers` | server.py:37-39 | the first record whose currency equals the code decides the reply, when all earlier records carry another currency |
| `QuoteLookup.UntaggedBeforeMatchFails` | server.py:37-44 | a record without `currency` before any match raises `KeyError`, caught as `Failed to retrieve data` |
| `QuoteLookup.SearchNoneIff` | server.py:37-39 | the search gives `None` if and only if every record has a currency and none equals the code |
| `QuoteLookup.QuoteCases` | server.py:33-44 | the lookup returns `None`, not the failure text, if and only if the answer is valid and no record matches |
| `Router.Classify` | server.py:78-80 | chat keeps the message unchanged; a command's code is a non-empty whitespace-free word |
| `Router.CommandOfTwoWords` | server.py:78-80 | a first word beginning with `exchange`, then any non-empty whitespace, then a second word, is a command for the upper-cased second word |
| `Router.ChatWithoutKeyword` | server.py:79 | a message not starting with the exact lower-case `exchange` is chat |
| `Router.ChatOfOneWord` | server.py:78-79 | a single word followed only by whitespace, such as a bare `exchange`, is chat |
| `Router.CommandExample` | server.py:78-80 | `exchange usd` is the command `USD` |
| `Router.GluedCommandExample` | server.py:78-80 | `exchangeX usd` is the command `USD`: the test is a prefix test on the whole message |
| `Router.TabCommandExample` | server.py:78-80 | `exchange<TAB>usd` is the command `USD`: `split()` separates on any whitespace |
| `Router.ChatExamples` | server.py:78-80 | `Exchange usd` (case-sensitive test) and a bare `exchange` (one word) are chat |
| `ChatServer.SendFailure` | server.py:63-64 | a send succeeds exactly when the peer is open and the payload is a string; a closed peer raises the exception of its close kind; `None` to an open peer raises `TypeError` |
| `ChatServer.Broadcast` | server.py:59-61 | one delivery per recipient, in order, each carrying the same text |
| `ChatServer.BroadcastReachesEachOnce` | server.py:59-61 | a broadcast to distinct recipients reaches each of them exactly once and nobody else |
| `ChatServer.Server.constructor` | server.py:47-48 | the registry starts with no clients, no names and nothing sent |
| `ChatServer.Server.Register` | server.py:50-53 | the connection is added and named; no other member is added or removed |
| `ChatServer.Server.Unregister` | server.py:55-57 | requires membership (`set.remove`); removes exactly that connection |
| `ChatServer.Server.SendToClient` | server.py:63-64 | one delivery to `ws` when the send succeeds, none otherwise, and the error it raises |
| `ChatServer.FirstClosed` | server.py:61 | the position in the iteration order of the first closed client, or the order's length when none is closed |
| `ChatServer.SentAlongIsBroadcasted` | server.py:59-61 | sending along an iteration order reaches distinct open members only; it completes if and only if no member is closed, and then every member received it; otherwise a closed member's exception is raised |
| `ChatServer.NothingAfterFirstClosed` | server.py:61 | once a send has raised, no client later in the iteration order receives the message |
| `ChatServer.Server.SendToClients` | server.py:59-61 | sends go out along the iteration order up to, not including, the first closed client. That client's close exception is raised, or nothing is raised when no client is closed. The outbox gains exactly those deliveries. It also states the set-level outcome of `SentAlongIsBroadcasted`. An empty registry sends nothing. |
| `ChatServer.Server.Dispatch` | server.py:76-84 | a command sends the quote for its code to the sender only, raising what that send raises. Chat broadcasts `<name>: <message>` to the clients along the iteration order, sender included, with the broadcast's outcome. The deliveries are appended to the outbox; the registry is unchanged. |
| `ChatServer.Server.Distribute` | server.py:75-84 | one log step per handled message, in inbox order, each the dispatch of that message with its deliveries. The loop stops at the first message whose dispatch raises and re-raises that error. A used-up inbox ends normally on a clean close and raises `ConnectionClosedError` otherwise. The outbox grows by exactly the logged deliveries. |
| `ChatServer.Server.WsHandler` | server.py:66-73 | registers and names the connection, runs the receive loop as `Distribute` specifies, and unregisters it. The raised exception is the loop's error unless it is `ConnectionClosedOK`; `ConnectionClosedError` and `TypeError` escape. With an empty inbox and an abnormal close it raises `ConnectionClosedError`; with a clean close, open peers and answerable commands it raises nothing. |
| `ChatServer.EndError` | server.py:76 | the end of the message stream raises nothing on a clean close and `ConnectionClosedError` otherwise |
| `ChatServer.ReceivedAnswerable` | server.py:75-84 | with no closed peer and every command answerable, the loop handles every message and ends as the stream ends |
| `ChatServer.BroadcastSnoc` | server.py:61 | one more recipient adds exactly one delivery, to it, at the end |
| `ExchangeRate.Assign` | exchange_rate.py:36-41 | a `USD` record goes to the USD slot, else an `EUR` record to the EUR slot, else a record of the requested currency to its slot; the other slots keep their records |
| `ExchangeRate.Fill` | exchange_rate.py:35-41 | every filled slot holds a record of the list with that slot's currency; the requested slot is filled only for a currency other than `USD` and `EUR` |
| `ExchangeRate.Select` | exchange_rate.py:43-53 | three lines exactly when all three slots are filled with records carrying cash rates; two exactly when USD and EUR are, and no requested record was found; each line starts with its code |
| `ExchangeRate.BatchOf` | exchange_rate.py:26-53 | a falsy answer or one without `exchangeRate` gives `None`; three lines only for a currency other than `USD` and `EUR` |
| `ExchangeRate.LastWith` | exchange_rate.py:35-41 | the result is the last record with the code, or `None` when no record has it |
| `ExchangeRate.Line` | exchange_rate.py:44-49 | a batch line starts with `<code> - buy: ` |
| `ExchangeRate.GetExchange` | exchange_rate.py:26-53 | the selection loop and tuple building compute `BatchOf` |
| `ExchangeRate.FillStaysNone` | exchange_rate.py:35-41 | once a record without `currency` is read the loop has raised, whatever follows |
| `ExchangeRate.LastWithSnoc` | exchange_rate.py:35-41 | appending a record with the code makes it the last match |
| `ExchangeRate.FillIsLastWins` | exchange_rate.py:35-41 | the loop leaves in each slot the last record of its currency; the requested-currency slot stays empty for `USD` or `EUR` |
| `ExchangeRate.FillNoneIff` | exchange_rate.py:35-41 | the loop raises if and only if some record lacks `currency` |
| `ExchangeRate.ThreeLines` | exchange_rate.py:43-46 | with USD, EUR and the requested currency present, the result is the triple of lines in the order USD, EUR, currency |
| `ExchangeRate.TwoLines` | exchange_rate.py:47-49 | with USD and EUR present and the requested currency absent, the result is the pair (USD line, EUR line) |
| `ExchangeRate.NoLines` | exchange_rate.py:30-53 | no answer, no `exchangeRate` list, an untagged record, or USD or EUR missing gives `None` |
| `ExchangeRate.NeverTripleForUsdOrEur` | exchange_rate.py:36-43 | requesting `USD` or `EUR` never yields three lines |
| `ExchangeRate.Dates` | exchange_rate.py:62 | the date list has `days` entries (none for `days <= 0`); entry `i` is today minus `i`; it is strictly decreasing |
| `ExchangeRate.NormalizeCurrency` | exchange_rate.py:74 | the normalised code is the upper case of an infix of the argument with only whitespace around it; it has no lower-case ASCII letter and no leading or trailing whitespace |
| `ExchangeRate.NormalizeIsStrippedUpper` | exchange_rate.py:74 | `upper().strip()` equals the upper case of the argument's stripped infix |
| `ExchangeRate.NormalizeIdempotent` | exchange_rate.py:74 | normalising twice equals normalising once |

## Left out

- `request` in both scripts (server.py:19-30, exchange_rate.py:12-23): the HTTP call is replaced by its result, a `Rates.Response` parameter.
- The server's lookup reads one bank answer per connection: every command of one connection sees the same `Response`.
- JSON values are opaque strings. An `exchangeRate` value that is not a list, or a record that is not an object, is not modelled, and neither are numeric rates.
- Websocket transport, `websockets.serve` and `main` (server.py:87-94). Received messages are a sequence ending in a clean or abnormal close. Closed peers are a map. Sends are appended to `outbox`.
- Python's set iteration order is not computed: `order` may be any listing of the clients, each exactly once, and the results hold for every such order.
- Concurrency between connection tasks. Handlers run one at a time, so the `RuntimeError` Python raises when `clients` changes during a broadcast's iteration is not modelled.
- `names.get_full_name()` (server.py:51): the generated name is a parameter of `Register`.
- `datetime.now()`, `timedelta` and `strftime` (server.py:15, exchange_rate.py:62-63). Dates are integer day numbers, and the formatted date is a string parameter.
- Logging and `print` calls, `sys.argv` parsing and `int()`, the Windows event-loop policy, and `asyncio.gather` (exchange_rate.py:56-80). Also left out: main's print loop, which raises `TypeError` when a day's result is `None`.
- `Text.Upper`: maps only the ASCII letters, where Python's `upper()` applies full Unicode case mapping.
- `main.js`: the browser client is not part of this model.
