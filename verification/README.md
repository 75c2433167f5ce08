# Verified model of the GPU proxy and the compute market

This project models two parts of the repository and proves properties of them in Dafny.

**The stratum proxy** (`gpu-proxy-cpp/src`). One upstream pool connection at a time, many downstream
workers. Jobs flow from the pool to the workers, shares flow back. The model covers

- the JSON text of the messages the proxy prints and the reader they are read with (`Json.dfy`, `Stratum.dfy`); the
  reader against the grammar of RFC 8259 (`JsonText.dfy`) and the printed lines letter by letter (`Texts.dfy`),
- line framing and the TLS handshake of one connection (`Framing.dfy`, `Connection.dfy`),
- the timers and the poll timeout of the event loop (`Timers.dfy`, `EventLoop.dfy`),
- the pool side: failover, login, job intake, share ids (`Pool.dfy`),
- the worker side: records, whitelist, nonces, broadcast (`Workers.dfy`),
- the wiring of both over one event loop as a step system (`Proxy.dfy`).

`Requests.dfy` and `Failures.dfy` say in plain terms, without the functions of the model, what one line, one failure
and one timer do. The other files of the proxy prove what holds over every run (`PoolRuns.dfy`, `LoginFirst.dfy`,
`Logins.dfy`, `Failures.dfy`, `WorkerRuns.dfy`, `Holders.dfy`, `Lifetimes.dfy`, `Mirror.dfy`; the invariants from the start are collected in
`Safety.dfy`), which odd states runs do reach (`Reachable.dfy`), and what two proxies in a chain tell each other
(`Exchange.dfy`, and over whole runs `Chain.dfy`).

**The auction engine** embedded in `modules/compute-market.nix`: the winner of a round, pausing and resuming
mining services through a file (`Auction.dfy`), and the Kubernetes bid in `bc` arithmetic
(`KubernetesBid.dfy`).

## How the model is built

Every object of the source whose methods update fields is a class with those fields: `Connection`,
`EventLoop`, `PoolManager`, `WorkerManager`, `GPUProxy`, and `AuctionEngine` for the script. Each method is
proved equal to a function on the values of the fields; the properties are lemmas about those functions and
about runs of them. `Step` in `Proxy.dfy` is one event of the whole proxy: an accepted worker, a line from a
worker or a pool, a handshake step, a due reconnect timer, a hangup, a cleanup. A run is any sequence of events;
`Enabled` lists what the operating system, OpenSSL and the loop guarantee: new descriptors are not in use, lines
come only from readable connections, timers fire when due, and a handshake that failed stays failed. What the
outside world answers during an event (time, which connections can be created, which writes fail) is the `Env`
argument of that event.

The message callback of a connection appears twice: `Connection.ReadData` says which lines one read delivers, and
the events `WorkerLine` and `PoolLine` take one delivered line each. The order of lines within a read is the order
of the events. Ownership of connections is by descriptor: a pointer to a worker's connection is good exactly
while its descriptor belongs to a worker connection, because accepting a new worker on a descriptor replaces
its record.

The main results are

- `Safety.RelayIsSafe` and `Safety.RelayIsSafeWithin`, which collect the invariants from the start of the proxy,
- `PoolRuns.ShareRouting`, `Pools.AnswerPassedIff`, `Chains.ChainNeverAnswers`, `PoolRuns.FailoverIsACounter` and `PoolRuns.FailoverVisitsEveryPool`,
- `LoginFirst.LoginIsAlwaysFirst`, `Logins.LoginsCarryCredentials`, `Failures.RetriesAreDelayed`,
  `WorkerRuns.WorkersAlwaysGood`, `Holders.HoldersExact`,
  `WorkerRuns.NoncesAreUnique`, `Mirror.PoolLineMirrorsIff`,
- `Framing.ChunkingIsInvisible`, `Framing.CrlfRoundTrip`, `JsonText.StringIff`, `Exchange.WireRoundTrip` and the round trips beside it,
- `Timers.RecurringNeverEarly`, `Timers.RecurringIsPunctual`, `Timers.NoDrift`,
- `Auction.RefinesMemoryless`, `Auction.RestartRecovers`, `KubernetesBid.BidBounds`.

## What the code does that its comments do not say

- A job message whose fields stop being well typed half way leaves the fields read so far in the pool side's job
  and tells the worker side nothing (`Mirror.PoolLineMirrorsIff`, with `Mirror.TornNoticeTears` as the example).
- A share answer is passed on only if its result is an object with members (`Pools.AnswerPassedIff`). The proxy's own
  acknowledgement of a share has the result `true`: a proxy behind another proxy never passes a share answer on, and
  its pending map only grows (`Chains.ChainNeverAnswers`).
- A worker made ready by `authorize` gets no job until the next broadcast (`Holders.AuthorizeGapIff`); five events
  after the start a ready worker may have no job at all (`Reachable.GapIsReachable`).
- A record keeps its pointer when the event loop drops the connection. Only the cleanup of a ready worker makes a
  ready record's pointer dangle (`Lifetimes.ReadyStaysLiveIff`).
- Failover does not wrap when connections cannot be created: the search ends at the last pool and schedules nothing
  (`Pools.TryConnectSelectsFirst`, `PoolRuns.FailureAdvancesIff`).
- A connection in the error state counts as connected, so a share can be the first line offered on it
  (`Reachable.ShareBeforeLogin`); the order of lines depends on a failed handshake staying failed
  (`LoginFirst.CompletionKeepsOrderIff`).
- Printed text fields are not escaped. One string token reads back as the printed text exactly when that text needs no
  escape (`Json.StringTokenIff`). For whole messages the model proves one direction: if no field needs an escape, the
  message reads back as it was printed (`Stratum.CleanMsgReads`).

## Model

| member | source | states |
|---|---|---|
| `Safety.RelayIsSafe` | gpu-proxy-cpp/src/main.cpp:30-96 | In every state reached from the start by possible events: the pool invariant, the share books, login first on every pool connection, vetted workers, and ready workers outside the gap (those made ready by authorize since the last broadcast) last sent the current job, all at once |
| `Safety.RelayIsSafeWithin` | gpu-proxy-cpp/src/main.cpp:50-57 | From the start: with at most 2^32 accepts all nonces differ, and with well-formed job messages both job copies agree |
| `Json.StringTokenIff` | gpu-proxy-cpp/src/stratum.cpp:11 | A string token reads back as the text between its quotation marks if and only if that text needs no escape (RFC 8259, section 7) |
| `Json.NumberRoundTrip` | gpu-proxy-cpp/src/worker_manager.cpp:271 | Every 64-bit integer printed by `std::to_string` reads back as itself, whatever may follow it in a message |
| `Json.DocRoundTrip` | gpu-proxy-cpp/src/stratum.cpp:11 | Reading any printed document gives its value and leaves exactly the text after it |
| `Json.PrintedDocParses` | gpu-proxy-cpp/src/stratum.cpp:11 | A printed document parses as a whole text to its value |
| `Json.PrintedDocIsOneLine` | gpu-proxy-cpp/src/connection.cpp:231 | A printed document contains no control character, so framing cannot split it |
| `JsonText.StringIff` | gpu-proxy-cpp/src/stratum.cpp:11 | The reader reads a text as a string token with a value if and only if the text spells that value by the grammar of RFC 8259, section 7: plain characters, the eight short escapes, four hexadecimal digits, and pairs |
| `JsonText.Hex4Means` | gpu-proxy-cpp/src/stratum.cpp:11 | Four hexadecimal digits, in either case, read as the number they spell; with any other character among them nothing is read |
| `JsonText.NumberIff` | gpu-proxy-cpp/src/stratum.cpp:11 | Digits read as a number if and only if there is at least one, no leading zero, and 64 bits suffice; then as the number they stand for |
| `JsonText.WholeTextIff` | gpu-proxy-cpp/src/stratum.cpp:11 | A printed value with white space around it is a whole text with that value, and with anything else after it the text is refused |
| `JsonText.WhiteSpaceIsSkipped` | gpu-proxy-cpp/src/stratum.cpp:11 | Blanks, tabs, line feeds and carriage returns before a value do not matter |
| `JsonText.SpacedMember` | gpu-proxy-cpp/src/stratum.cpp:11 | White space around a member's colon and before the comma or brace does not matter either |
| `JsonText.EmptyReads` | gpu-proxy-cpp/src/stratum.cpp:11 | Empty objects and arrays may hold white space |
| `Stratum.AsIntWraps` | gpu-proxy-cpp/src/stratum.cpp:13 | A number read as a 32-bit id is itself if it fits, otherwise the one that differs by a multiple of 2^32 |
| `Stratum.OddRequests` | gpu-proxy-cpp/src/stratum.cpp:13-39 | What a request is without id or method, and when one of them has the wrong type |
| `Stratum.CleanMsgReads` | gpu-proxy-cpp/src/worker_manager.cpp:266-277 | Every message whose text fields need no escape is one line and parses to its own layout |
| `Texts.LoginText` | gpu-proxy-cpp/src/pool_manager.cpp:146-148 | The login line, letter by letter around wallet, password and id |
| `Texts.ShareText` | gpu-proxy-cpp/src/pool_manager.cpp:278-283 | The share line, letter by letter |
| `Texts.JobText` | gpu-proxy-cpp/src/worker_manager.cpp:369-371 | The job notice, letter by letter |
| `Texts.LoginReplyText` | gpu-proxy-cpp/src/worker_manager.cpp:266-277 | The login reply with and without a job, letter by letter |
| `Texts.AuthorizeText` | gpu-proxy-cpp/src/worker_manager.cpp:228-230 | The answer to an authorize, letter by letter |
| `Texts.AckText` | gpu-proxy-cpp/src/worker_manager.cpp:321-322 | The acknowledgement of a share, letter by letter |
| `Stratum.JobLineReads` | gpu-proxy-cpp/src/worker_manager.cpp:369-371 | The job notice reads as a `job` request without id that carries job id, blob, target and height |
| `Stratum.LoginLineReads` | gpu-proxy-cpp/src/pool_manager.cpp:146-148 | The login line reads as a `login` request with the same id, wallet and password |
| `Stratum.SubmitLineReads` | gpu-proxy-cpp/src/pool_manager.cpp:278-283 | The share line reads as a `submit` request with the same id and the four share fields |
| `Stratum.LoginReplyReads` | gpu-proxy-cpp/src/worker_manager.cpp:264-278 | The login reply has no method; its reader finds the id, a null error, status OK, and a job exactly when one was given |
| `Stratum.SubmitAckReads` | gpu-proxy-cpp/src/worker_manager.cpp:321-323 | The share acknowledgement reads as an answer with the result `true` and no error |
| `Exchange.JobNoticeRoundTrip` | gpu-proxy-cpp/src/pool_manager.cpp:242-257 | A proxy that reads another's job notice adopts the same four fields and passes the job on |
| `Exchange.ShareRoundTrip` | gpu-proxy-cpp/src/worker_manager.cpp:302-328 | A share printed by one proxy is acknowledged under its id by the next and handed on with the same four fields |
| `Exchange.LoginRoundTrip` | gpu-proxy-cpp/src/worker_manager.cpp:250-292 | A printed login logs in its wallet if it is allowed, closes the connection if not, and is answered under its id either way |
| `Exchange.LoginReplyRoundTrip` | gpu-proxy-cpp/src/pool_manager.cpp:165-192 | A login reply read while not logged in logs in; with a job it adopts that job's four fields, without one it adopts none |
| `Exchange.AcknowledgementIsIgnored` | gpu-proxy-cpp/src/pool_manager.cpp:160-162 | The proxy's own share acknowledgement changes nothing on a pool side and passes no answer on |
| `Exchange.ChainedLogin` | gpu-proxy-cpp/src/pool_manager.cpp:141-192 | A login sent to a proxy that holds a job is answered by a line that leaves the sender logged in with that job |
| `Chains.RepliesAreInKind` | gpu-proxy-cpp/src/worker_manager.cpp:264-323 | A proxy answers a clean login with a login reply under its id and a clean share with an acknowledgement, and offers nothing else on that connection |
| `Chains.ProxyLineDeliversNone` | gpu-proxy-cpp/src/pool_manager.cpp:158-162 | A clean line printed by a proxy whose login replies answer logins sent to it delivers no share answer |
| `Chains.ChainNeverAnswers` | gpu-proxy-cpp/src/pool_manager.cpp:158-227 | Over every run whose pool lines are such lines, no share answer is passed on, no pending share is forgotten, and the pending map grows by exactly the shares forwarded |
| `Chains.ChainFromStart` | gpu-proxy-cpp/src/main.cpp:30-96 | The same from the start of the proxy |
| `Exchange.WireRoundTrip` | gpu-proxy-cpp/src/connection.cpp:231 | Clean messages sent in full and cut into any reads arrive as the same lines in order, each parsing to its layout, with an empty buffer left |
| `Framing.SplitJoins` | gpu-proxy-cpp/src/connection.cpp:308-316 | The raw lines and the tail are a decomposition of the stream at its line feeds |
| `Framing.JoinSplits` | gpu-proxy-cpp/src/connection.cpp:308-316 | That decomposition is the only one |
| `Framing.ChunkingIsInvisible` | gpu-proxy-cpp/src/connection.cpp:297-323 | For every stream and every split into reads the lines delivered are those of the whole stream, and the buffer ends as the text after the last line feed |
| `Framing.FramingRoundTrip` | gpu-proxy-cpp/src/connection.cpp:231 | Lines without line feed and final carriage return arrive unchanged and in order through any split into reads |
| `Framing.CrlfRoundTrip` | gpu-proxy-cpp/src/connection.cpp:311-314 | Lines sent with carriage return and line feed lose exactly that carriage return, others in them stay, through any split into reads |
| `Framing.CrlfLineArrives` | gpu-proxy-cpp/src/connection.cpp:311-314 | One line with carriage return and line feed arrives without them |
| `Framing.LineSurvivesIff` | gpu-proxy-cpp/src/connection.cpp:311-314 | One line arrives alone and unchanged if and only if it has no line feed and no final carriage return |
| `Connections.Connection.constructor` | gpu-proxy-cpp/src/connection.cpp:31-48 | A worker connection starts connected, a pool connection connecting, nothing buffered or offered |
| `Connections.HandshakeOutcome` | gpu-proxy-cpp/src/connection.cpp:156-206 | When a handshake step completes, fails, closes, tells and remembers what it waits for, for every result |
| `Connections.OfferOutcome` | gpu-proxy-cpp/src/connection.cpp:224-254 | When a line is offered and when offering closes, from the state and the write result |
| `Connections.Connection.SetState` | gpu-proxy-cpp/src/connection.cpp:325-332 | The callback hears of a state exactly when it changes |
| `Connections.Connection.PerformTlsHandshake` | gpu-proxy-cpp/src/connection.cpp:156-206 | The whole new state of a handshake step for every result of attaching and of SSL_connect, and what the callback hears |
| `Connections.Connection.SendLine` | gpu-proxy-cpp/src/connection.cpp:224-254 | A line is offered exactly when the guard passes, which results close the connection, and when the call reports success |
| `Connections.Connection.ReadData` | gpu-proxy-cpp/src/connection.cpp:256-304 | No read while a handshake is pending; otherwise the lines of buffer plus data are delivered, and only end or error closes |
| `Connections.Connection.ProcessReadBuffer` | gpu-proxy-cpp/src/connection.cpp:306-323 | The loop ends, delivers the lines of the buffer and leaves its tail |
| `Timers.PassFiresTheDue` | gpu-proxy-cpp/src/event_loop.cpp:222-242 | A timer is fired by a pass if and only if it is in the list and due |
| `Timers.PassFiresInOrder` | gpu-proxy-cpp/src/event_loop.cpp:226-241 | Each due timer fires once, in list order: the one at a position fires after exactly the due timers before it, and nothing else fires |
| `Timers.PassLeavesNoneDueIff` | gpu-proxy-cpp/src/event_loop.cpp:229-237 | After a pass no timer is due if and only if every restarted recurring timer has a positive interval |
| `Timers.WaitIsTight` | gpu-proxy-cpp/src/event_loop.cpp:249-270 | The wait lies in 0..1000, never passes the earliest deadline, and is below 1000 exactly when a deadline is that near |
| `Timers.NoDrift` | gpu-proxy-cpp/src/event_loop.cpp:248-276 | If polls keep to their timeout and handlers take no time, the loop never steps past a deadline, every timer that fires does so at its deadline, and every deadline the run reaches is met: of timers set before or during the run, and of recurring timers after each firing |
| `Timers.RecurringIsPunctual` | gpu-proxy-cpp/src/event_loop.cpp:47-54 | Then a recurring timer fires exactly at its first deadline and every interval after, up to the end of the run: the k-th firing is k intervals after the first deadline, and the next one lies beyond the end |
| `Timers.RecurringNeverEarly` | gpu-proxy-cpp/src/event_loop.cpp:228-233 | Whatever the delays, the k-th firing is no earlier than that |
| `Timers.FiringsAreBounded` | gpu-proxy-cpp/src/event_loop.cpp:228-233 | Hence a timer set at `start` fires at most (end - start) / interval times |
| `Timers.OneShotFiresOnce` | gpu-proxy-cpp/src/event_loop.cpp:234-237 | A one-shot timer fires at most once, not early, and not at all exactly if the run ends before its deadline |
| `EventLoops.TimerIsAdded` | gpu-proxy-cpp/src/event_loop.cpp:47-54 | A timer set at a time is last in the list and due exactly from one interval later on; older timers and connections stay |
| `EventLoops.SetTimerNeverEarly` | gpu-proxy-cpp/src/event_loop.cpp:47-54 | A recurring timer set at `start` fires for the k-th time no earlier than `start` + (k + 1) intervals, counting from zero, whatever the delays |
| `EventLoops.SetTimerPunctual` | gpu-proxy-cpp/src/event_loop.cpp:47-54 | Without delays it fires exactly at these times, as long as the run lasts |
| `EventLoops.OneConnection` | gpu-proxy-cpp/src/event_loop.cpp:35-38 | Sending by descriptor and marking change that one connection only |
| `EventLoops.CleanupIs` | gpu-proxy-cpp/src/event_loop.cpp:209-220 | A cleanup keeps exactly the connections not marked for closing, those of pools too, unchanged |
| `EventLoops.EventLoop.constructor` | gpu-proxy-cpp/src/event_loop.cpp:12-13 | The loop starts without connections and timers |
| `EventLoops.EventLoop.AddConnection` | gpu-proxy-cpp/src/event_loop.cpp:19-24 | The connection is stored under its descriptor; all others are unchanged |
| `EventLoops.EventLoop.SendTo` | gpu-proxy-cpp/src/event_loop.cpp:35-38 | Sending by descriptor offers the line on that connection, if there is one, and changes no other |
| `EventLoops.EventLoop.MarkForClosing` | gpu-proxy-cpp/src/event_loop.cpp:117-123 | Exactly the connection with this descriptor is marked |
| `EventLoops.EventLoop.ContinueHandshake` | gpu-proxy-cpp/src/event_loop.cpp:194-206 | One connection takes a handshake step, the others none |
| `EventLoops.EventLoop.CleanupClosed` | gpu-proxy-cpp/src/event_loop.cpp:209-220 | Exactly the connections not marked for closing remain, the same objects under the same descriptors |
| `EventLoops.EventLoop.SetTimeout` | gpu-proxy-cpp/src/event_loop.cpp:47-54 | The new timer is due exactly from one interval after now on, and all older timers stay |
| `EventLoops.EventLoop.PollTimeout` | gpu-proxy-cpp/src/event_loop.cpp:249-270 | The minimum search computes the wait that the timer lemmas are about |
| `EventLoops.EventLoop.CheckTimeouts` | gpu-proxy-cpp/src/event_loop.cpp:222-242 | Removal while iterating fires the due timers in list order and keeps the others in order |
| `Pools.TryConnectSelectsFirst` | gpu-proxy-cpp/src/pool_manager.cpp:25-59 | The first pool at or after the index whose connection can be created is selected; if there is none the search ends at the last pool with no connection and no timer |
| `Pools.MessageEffect` | gpu-proxy-cpp/src/pool_manager.cpp:114-259 | Every message has one of six effects, and only a pool side that is not logged in logs in or fails by a message |
| `Pools.AnswerPassedIff` | gpu-proxy-cpp/src/pool_manager.cpp:114-227 | A line passes an answer on if and only if it has no method, a pending id, a result that is an object with members, and cannot be a login answer. Then the one report goes to the worker of the share, says accepted exactly when the error is missing, null, an empty array or an empty object, and carries the error text if it is a string; the share is forgotten. Otherwise all pending shares stay |
| `Pools.PoolManager.constructor` | gpu-proxy-cpp/src/pool_manager.cpp:8-13 | The initial fields |
| `Pools.PoolManager.Start` | gpu-proxy-cpp/src/pool_manager.cpp:15-23 | Connects from the first pool on; nothing happens without pools |
| `Pools.PoolManager.TryConnectPool` | gpu-proxy-cpp/src/pool_manager.cpp:25-59 | Terminates with the pool, descriptor and connections of the selection function |
| `Pools.PoolManager.SendLoginLine` | gpu-proxy-cpp/src/pool_manager.cpp:141-156 | Takes an id and offers the current pool's login on the current connection |
| `Pools.PoolManager.OnState` | gpu-proxy-cpp/src/pool_manager.cpp:61-112 | The new state, timers and connections for every state change |
| `Pools.PoolManager.OnDown` | gpu-proxy-cpp/src/pool_manager.cpp:81-107 | Five delayed retries, then the next pool |
| `Pools.PoolManager.MoveToNextPool` | gpu-proxy-cpp/src/pool_manager.cpp:102-106 | Attempts start again at zero with the next pool, cyclically |
| `Pools.PoolManager.OnMessage` | gpu-proxy-cpp/src/pool_manager.cpp:114-139 | The new state and what is reported for every line, parse errors included |
| `Pools.PoolManager.OnResponse` | gpu-proxy-cpp/src/pool_manager.cpp:158-228 | The new state for every answer, including answers that stop half way |
| `Pools.PoolManager.OnLoginJob` | gpu-proxy-cpp/src/pool_manager.cpp:165-194 | A login answer with a job; without the two job fields it is treated as a share answer |
| `Pools.PoolManager.OnStatus` | gpu-proxy-cpp/src/pool_manager.cpp:196-209 | OK logs in, any other text fails the pool, any other type changes nothing |
| `Pools.PoolManager.AdoptLoginJob` | gpu-proxy-cpp/src/pool_manager.cpp:172-191 | The job is adopted if all its fields convert; otherwise the fields read so far stay |
| `Pools.PoolManager.PassAnswer` | gpu-proxy-cpp/src/pool_manager.cpp:211-227 | An answer goes to the worker of its id, which is then forgotten; an unknown id changes nothing |
| `Pools.PoolManager.OnNotification` | gpu-proxy-cpp/src/pool_manager.cpp:230-259 | Both kinds of job notification, including ones that stop half way |
| `Pools.PoolManager.Submit` | gpu-proxy-cpp/src/pool_manager.cpp:261-291 | A share takes an id, is remembered and offered exactly when connected with a job |
| `PoolRuns.PoolOkAlways` | gpu-proxy-cpp/src/pool_manager.cpp:8-112 | Over every run: index in range and named, at most five attempts, connected iff authenticated, subscribed implies authenticated, pending ids below the next id; at most one id per event |
| `PoolRuns.BooksAlways` | gpu-proxy-cpp/src/pool_manager.cpp:211-227 | Over every run from any state with correct books: ids increase, an answer is passed on only to the worker whose share got its id and at most once, the pending map is exactly the unanswered shares, and shares = answers + pending |
| `PoolRuns.ShareRouting` | gpu-proxy-cpp/src/pool_manager.cpp:265-272 | The same from the start of the proxy |
| `PoolRuns.LoginsAreNotAnswered` | gpu-proxy-cpp/src/pool_manager.cpp:148 | With correct books no login id is ever answered as a share |
| `Logins.LoginsCarryCredentials` | gpu-proxy-cpp/src/pool_manager.cpp:141-148 | Over every run, each login offered on any connection carries the wallet and password of one configured pool, under an id handed out for a login |
| `Logins.CompletionOffersLogin` | gpu-proxy-cpp/src/pool_manager.cpp:61-69 | A handshake that completes on the current connection offers, as its only line, the login with the wallet and password of the current pool and the next id |
| `Failures.FailureOutcome` | gpu-proxy-cpp/src/pool_manager.cpp:81-107 | A failure clears four flags, keeps job and shares, and sets a one-shot timer 5000 milliseconds ahead, or after five retries none |
| `Failures.StateOutcome` | gpu-proxy-cpp/src/pool_manager.cpp:64-111 | Which connection state fails the pool, puts it up, logs in, or does nothing |
| `Failures.StatusOutcome` | gpu-proxy-cpp/src/pool_manager.cpp:197-208 | The status OK puts the pool up, any other text fails it, another type changes nothing |
| `Failures.FailedHandshakeSetsRetry` | gpu-proxy-cpp/src/pool_manager.cpp:93-101 | A handshake that fails before five retries sets that timer, counted from the time of the event |
| `Failures.RetriesAreDelayed` | gpu-proxy-cpp/src/pool_manager.cpp:98-101 | Over every run, in five seconds from any time on, whatever fails in them, reconnects by timer are at most the retries pending at the start |
| `Failures.NoRetryBefore` | gpu-proxy-cpp/src/pool_manager.cpp:98-101 | With none pending before, no reconnect by timer happens in the five seconds after a failure |
| `Failures.ReconnectOutcome` | gpu-proxy-cpp/src/event_loop.cpp:228-237 | A reconnect timer is gone after firing, the others stay in order, and the current pool is tried |
| `Failures.StartOutcome` | gpu-proxy-cpp/src/main.cpp:30-96 | The start state in plain values, with the accept timer due from 100 milliseconds on |
| `Failures.HangupOutcome` | gpu-proxy-cpp/src/event_loop.cpp:117-138 | A hangup marks one connection and a cleanup drops the marked ones; neither manager changes |
| `PoolRuns.FailureAdvancesIff` | gpu-proxy-cpp/src/pool_manager.cpp:93-107 | A failure moves the failover position on by one if and only if it only retries, or the next pool can be connected, or the next pool is the last |
| `PoolRuns.FailoverIsACounter` | gpu-proxy-cpp/src/pool_manager.cpp:81-107 | While connections can be created and nothing logs in, 6 * index + attempts is the starting value plus the number of failures, modulo six times the number of pools |
| `PoolRuns.FailoverIndex` | gpu-proxy-cpp/src/pool_manager.cpp:93-107 | Hence after k failures the pool is (attempts + k) / 6 places further, cyclically |
| `PoolRuns.FailoverVisitsEveryPool` | gpu-proxy-cpp/src/pool_manager.cpp:102-106 | Any run with enough failures, always fewer than six times the number of pools, visits any given pool |
| `LoginFirst.LoginIsAlwaysFirst` | gpu-proxy-cpp/src/connection.cpp:156-206 | Over every run, on every pool connection with a completed handshake the first line offered is a login, and the current one has offered it |
| `LoginFirst.CompletionKeepsOrderIff` | gpu-proxy-cpp/src/connection.cpp:224-229 | Without the guarantee on failed handshakes: completing one keeps the order if and only if nothing or a login first was offered before |
| `Reachable.ShareBeforeLogin` | gpu-proxy-cpp/src/connection.hpp:46 | Seven possible events from the start lead to a failed handshake on whose connection a share is the first line offered; completing that handshake would break the order |
| `LoginFirst.StartIsOrderly` | gpu-proxy-cpp/src/pool_manager.cpp:15-23 | The started proxy satisfies the order |
| `Workers.WorkerManager.constructor` | gpu-proxy-cpp/src/worker_manager.cpp:16-19 | The initial fields |
| `Workers.WorkerManager.IsWorkerAllowed` | gpu-proxy-cpp/src/worker_manager.cpp:331-338 | True exactly without a whitelist or when some entry equals the id |
| `Workers.WorkerManager.BroadcastJob` | gpu-proxy-cpp/src/worker_manager.cpp:340-378 | The job is stored and offered once to each ready worker, in any order of the records |
| `Workers.WorkerManager.AcceptWorker` | gpu-proxy-cpp/src/worker_manager.cpp:97-130 | A new record with the next nonce replaces any older one, and a known job is broadcast |
| `Workers.WorkerManager.Subscribed` | gpu-proxy-cpp/src/worker_manager.cpp:189-209 | The record is subscribed, then a known job is broadcast |
| `Workers.WorkerManager.Authorized` | gpu-proxy-cpp/src/worker_manager.cpp:211-243 | The id is recorded and answered; an allowed worker is authorized, a refused one closed, a wrong type changes nothing |
| `Workers.WorkerManager.LoggedIn` | gpu-proxy-cpp/src/worker_manager.cpp:245-293 | The reply carries the job even for a refused worker; an allowed one is subscribed and authorized |
| `Workers.WorkerManager.Submitted` | gpu-proxy-cpp/src/worker_manager.cpp:295-329 | A readable share is acknowledged and handed on, one with a wrong type is not |
| `Workers.WorkerManager.OnMessage` | gpu-proxy-cpp/src/worker_manager.cpp:152-187 | Dispatch by method; unknown methods and descriptors without a record change nothing |
| `Requests.LoginLine` | gpu-proxy-cpp/src/worker_manager.cpp:245-293 | A login line whose wallet is not on a non-empty whitelist sets no flag and closes; another one sets both; the reply, the other workers and connections are as stated in either case |
| `Requests.AuthorizeLine` | gpu-proxy-cpp/src/worker_manager.cpp:211-243 | A `mining.authorize` line: the first parameter is the id, the reply says whether it is allowed, a refused id gains no flag and its connection closes |
| `Requests.MistypedNameIsIgnored` | gpu-proxy-cpp/src/worker_manager.cpp:217-220 | An id that is no string stops the request before anything changes |
| `Requests.SubscribeOutcome` | gpu-proxy-cpp/src/worker_manager.cpp:189-209 | The reply, then the flag, then a known job if the worker is authorized |
| `Requests.BroadcastOutcome` | gpu-proxy-cpp/src/worker_manager.cpp:364-374 | A broadcast offers the job exactly once to each subscribed and authorized worker and changes no other connection |
| `Requests.AcceptOutcome` | gpu-proxy-cpp/src/worker_manager.cpp:97-130 | The new record in plain values, and the broadcast to the others |
| `Requests.SubmitLine` | gpu-proxy-cpp/src/worker_manager.cpp:309-316 | A `mining.submit` line: the first four parameters are the share handed on, and it is acknowledged |
| `Requests.OddShares` | gpu-proxy-cpp/src/worker_manager.cpp:302-316 | Shares with missing fields, too few parameters, or fields of the wrong type |
| `Requests.ShareIsForwarded` | gpu-proxy-cpp/src/pool_manager.cpp:261-291 | A share line from a worker: the same four fields go to the current pool connection under the next id, which is remembered for the worker named in the line |
| `Requests.ShareIsDropped` | gpu-proxy-cpp/src/pool_manager.cpp:265-268 | Without login or job it is acknowledged and dropped |
| `Requests.OtherRequestsAreIgnored` | gpu-proxy-cpp/src/worker_manager.cpp:180-182 | Other methods, and descriptors without a record, change nothing |
| `Requests.NotifyLine` | gpu-proxy-cpp/src/stratum.cpp:53-74 | A `mining.notify` line with four, five or more parameters is adopted with those fields, zero for missing ones |
| `Requests.OddNotices` | gpu-proxy-cpp/src/stratum.cpp:58-72 | Too few parameters give a job of empty texts; a parameter of the wrong type changes nothing |
| `Requests.OtherNoticesAreIgnored` | gpu-proxy-cpp/src/pool_manager.cpp:121-138 | Other notifications, job notices without their two fields and texts that do not parse change nothing |
| `WorkerRuns.WorkersAlwaysGood` | gpu-proxy-cpp/src/worker_manager.cpp:189-293 | Over every run: each worker connection has a record, an authorized record names a whitelisted worker or its connection is marked for closing, and every ready worker outside the gap was last sent the current job |
| `WorkerRuns.StartIsGood` | gpu-proxy-cpp/src/main.cpp:89-92 | The started proxy satisfies this with an empty gap |
| `WorkerRuns.BroadcastServes` | gpu-proxy-cpp/src/worker_manager.cpp:364-374 | A broadcast leaves every ready worker with the new job, so it closes the gap |
| `Holders.HoldersExact` | gpu-proxy-cpp/src/worker_manager.cpp:264-281 | Over every run in which arriving jobs are new, the workers last sent the current job are exactly those a broadcast found ready and those sent a login reply since it arrived, refused ones included |
| `Holders.HoldersFromStart` | gpu-proxy-cpp/src/worker_manager.cpp:340-374 | The same from the start of the proxy |
| `Holders.AuthorizeGapIff` | gpu-proxy-cpp/src/worker_manager.cpp:211-243 | In a state of such a run, after an authorize the worker was last sent the current job if and only if a broadcast had found it ready before or it was sent a login reply since the job arrived |
| `Reachable.GapIsReachable` | gpu-proxy-cpp/src/worker_manager.cpp:234-242 | Five possible events from the start lead to a ready worker that was never sent the job that has arrived |
| `Lifetimes.ReadyStaysLiveIff` | gpu-proxy-cpp/src/event_loop.cpp:209-220 | A possible event leaves every ready record its connection, and the cleanup does so if and only if it closes no ready worker |
| `Lifetimes.ReadyAlwaysLive` | gpu-proxy-cpp/src/worker_manager.hpp:81 | Over every run whose cleanups close no ready worker, the pointers of all ready records are good |
| `Lifetimes.LiveIsPrecondition` | gpu-proxy-cpp/src/worker_manager.cpp:364-373 | This is what the methods that may broadcast ask for |
| `WorkerRuns.CleanupLeavesWhitelisted` | gpu-proxy-cpp/src/event_loop.cpp:209-220 | With a whitelist, after a cleanup the id of every authorized worker still connected is on it |
| `WorkerRuns.AcceptStartsFresh` | gpu-proxy-cpp/src/worker_manager.cpp:121-125 | A reused descriptor starts unauthorized, unsubscribed and without any line |
| `WorkerRuns.EightDigits` | gpu-proxy-cpp/src/worker_manager.cpp:117-119 | The eight hexadecimal digits of a 32-bit counter decode to it |
| `WorkerRuns.LowerCase` | gpu-proxy-cpp/src/worker_manager.cpp:117-119 | The digits are in lower case |
| `WorkerRuns.NonceCollidesIff` | gpu-proxy-cpp/src/worker_manager.hpp:98 | Two workers get the same nonce if and only if their positions in the order of acceptance agree modulo 2^32 |
| `WorkerRuns.NoncesAreUnique` | gpu-proxy-cpp/src/worker_manager.cpp:116-125 | In every state reached with at most 2^32 accepts, all records have nonces of eight digits with pairwise different values |
| `WorkerRuns.NoncesDiffer` | gpu-proxy-cpp/src/worker_manager.cpp:116-125 | Hence all records have pairwise different nonces |
| `Mirror.AssignDoneIff` | gpu-proxy-cpp/src/pool_manager.cpp:173-180 | The field by field assignment of a job completes if and only if every field is well typed |
| `Mirror.StoppedChangesIff` | gpu-proxy-cpp/src/pool_manager.cpp:244-248 | An assignment that stops changes the job if and only if a field that it reads before the stop differs from the current one |
| `Mirror.PoolLineMirrorsIff` | gpu-proxy-cpp/src/pool_manager.cpp:230-258 | Once a job is known, a pool message breaks the equality of the two job copies if and only if its job has an ill-typed or missing field and a field read before that one differs from the current job |
| `Mirror.TornNoticeTears` | gpu-proxy-cpp/src/pool_manager.cpp:244-248 | A concrete job notice that stops half way and changes the job id |
| `Mirror.AlwaysMirrored` | gpu-proxy-cpp/src/main.cpp:52-57 | With well-formed job messages the copies agree after every event, across errors and reconnects |
| `Mirror.StartIsMirrored` | gpu-proxy-cpp/src/main.cpp:39-47 | The started proxy has equal copies in this sense |
| `Proxies.RunKeeps` | gpu-proxy-cpp/src/event_loop.cpp:244-286 | What every allowed event keeps holds after every run of allowed events |
| `Proxies.JobKeepsNet` | gpu-proxy-cpp/src/pool_manager.cpp:172-191 | A message that brings a job opens no connection and sends nothing by itself, and the job passed on is the one stored |
| `Proxies.GPUProxy.constructor` | gpu-proxy-cpp/src/main.cpp:30-96 | Creating and starting both managers reaches the start state |
| `Proxies.GPUProxy.OnAccepted` | gpu-proxy-cpp/src/worker_manager.cpp:68-72 | The object takes the accept step |
| `Proxies.GPUProxy.OnWorkerLine` | gpu-proxy-cpp/src/main.cpp:79-86 | The object takes the worker line step; a share read goes to the pool side |
| `Proxies.GPUProxy.OnPoolLine` | gpu-proxy-cpp/src/pool_manager.cpp:114-139 | The object takes the pool line step, whichever pool connection delivered the line |
| `Proxies.GPUProxy.OnJobReported` | gpu-proxy-cpp/src/main.cpp:52-57 | A job adopted by the pool side is broadcast by the worker side; nothing else is changed |
| `Proxies.GPUProxy.OnHandshakeReady` | gpu-proxy-cpp/src/event_loop.cpp:141-207 | The object takes the handshake step; a state change goes to the pool side |
| `Proxies.GPUProxy.OnReconnectDue` | gpu-proxy-cpp/src/pool_manager.cpp:99-101 | The object takes the reconnect step |
| `Proxies.GPUProxy.OnHangup` | gpu-proxy-cpp/src/event_loop.cpp:117-123 | The object takes the hangup step, which tells neither manager |
| `Proxies.GPUProxy.OnCleanup` | gpu-proxy-cpp/src/event_loop.cpp:137-138 | The object takes the cleanup step |
| `Auction.WinnerIsFirstBest` | modules/compute-market.nix:494-505 | The winner is the bidder with the highest bid, ties going to mining before Kubernetes before Akash, and this determines it |
| `Auction.PauseAllStops` | modules/compute-market.nix:545-553 | Pausing stops exactly the managed services and appends exactly the ones that were active to the file |
| `Auction.StoppedIs` | modules/compute-market.nix:546-551 | The services written are exactly the active managed ones |
| `Auction.StoppedInOrder` | modules/compute-market.nix:546-551 | They are written in list order, none twice, even if the list repeats one |
| `Auction.StartAllAdds` | modules/compute-market.nix:555-564 | Resuming adds exactly the non-empty lines of the file to the active services |
| `Auction.RefinesMemoryless` | modules/compute-market.nix:473-564 | After any rounds: if there was none, or in the last one no game runs and no bid beats mining, all initially active services are active and there is no file; otherwise those without the managed ones are, and the file lists the stopped ones in order |
| `Auction.RestartRecovers` | modules/compute-market.nix:577-592 | After a restart in any such state one round restores the rule for the services active before the first start |
| `Auction.LeftoverFileIff` | modules/compute-market.nix:555-564 | With a file left over, mining's first win keeps the active services if and only if the file names no other service |
| `Auction.AuctionEngine.RunAuctionRound` | modules/compute-market.nix:473-516 | The script's round has the effect of the round function |
| `Auction.AuctionEngine.ApplyWinnerProfile` | modules/compute-market.nix:523-543 | Mining resumes, the other two pause |
| `Auction.AuctionEngine.PauseAllMining` | modules/compute-market.nix:545-553 | The loop over the services has the effect of pausing all |
| `Auction.AuctionEngine.ResumeMining` | modules/compute-market.nix:555-564 | The loop over the file has the effect of resuming |
| `KubernetesBid.BidKubernetes` | modules/compute-market.nix:351-402 | The loop computes the total of the counted pods, and 0 when disabled, without kubectl or without a cluster |
| `KubernetesBid.UrgentIff` | modules/compute-market.nix:393 | A pod is urgent exactly when high, urgent or critical occurs in the name of its priority class |
| `KubernetesBid.PodAdds` | modules/compute-market.nix:378-398 | A pod adds its bid exactly when it has a name and runs, the multiplied bid exactly when it is urgent |
| `KubernetesBid.MulIsCut` | modules/compute-market.nix:393-395 | A product has the larger scale of its factors and is the exact product cut down to it |
| `KubernetesBid.MulBounds` | modules/compute-market.nix:393-395 | A product is cut by less than one unit of its last place, and a multiplier of at least 1 never lowers a bid |
| `KubernetesBid.AddIsExact` | modules/compute-market.nix:397 | A sum loses nothing |
| `KubernetesBid.BidBounds` | modules/compute-market.nix:369-401 | n times the base bid <= total <= exact sum <= n times the exact urgent bid, and the loss is less than one unit for each urgent pod |
| `KubernetesBid.CutBelowRunning` | modules/compute-market.nix:369-401 | With n > 0 running pods the total falls short of the exact sum by less than n units of the larger scale |

## Left out

- Pools.PoolManager.Submit: ids are unbounded, because overflowing the C++ counter is undefined; `PoolRuns.PoolOkAlways` bounds them by one more than the number of events, so 32 bits suffice for 2^31 - 2 events.
- Workers.WorkerManager.BroadcastJob: requires the connections of ready records to be alive, because the code follows a dangling pointer otherwise; `Lifetimes.ReadyStaysLiveIff` says when they are, and the run theorems skip records without a connection.
- Workers.WorkerManager.AcceptWorker: requires the same, for its broadcast.
- Workers.WorkerManager.Subscribed: requires the same, for its broadcast; the text of its reply is left out.
- Workers.WorkerManager.OnMessage: requires the same, for a subscribe.
- Proxies.GPUProxy.OnAccepted: requires the same, for the broadcast.
- Proxies.GPUProxy.OnWorkerLine: requires the same, for a subscribe.
- Proxies.GPUProxy.OnPoolLine: requires the same, for a job that arrives.
- Proxies.GPUProxy.OnJobReported: requires the same, if a job is reported.
- Chains.ChainNeverAnswers: is about messages whose text fields need no escape; an unescaped field can turn a line into any other.
- Holders.HoldersExact: is about jobs that no worker was last sent already; a repeated job would be held by chance.
- Stratum.CleanMsgReads: is not an equivalence for whole messages.
- Pools.PoolManager.OnNotification: a `job` message without target or height is read as a conversion error, because the code indexes a constant object at a missing key, which is undefined.
- EventLoops.EventLoop.CheckTimeouts: callbacks run after the pass instead of inside it; neither callback of the proxy registers a timer, so the list is the same.
- Safety.RelayIsSafe: the accept timer is not rescheduled inside the step system; accepting is an event of its own.
- Partial writes are recorded as offered lines; the framing round trips are about lines written in full.
- JSON numbers with fraction or exponent and integers beyond 64 bits are refused by the model's reader; the library reads them as floating point.
- Texts are sequences of Unicode scalar values; UTF-8 coding and its errors are not modelled.
- The subscribe reply has no text in the model: its raw string literal in gpu-proxy-cpp/src/worker_manager.cpp:196-198 contains source code and a line feed.
- The unused mining.notify text in gpu-proxy-cpp/src/worker_manager.cpp:351-357.
- Sockets, name resolution, poll and OpenSSL internals; their results are arguments of the events.
- Which file descriptors poll asks for, and the order of events within one poll.
- Millisecond times are unbounded; the 64-bit sum of time and interval is not wrapped.
- Logging, the listening socket's setup, configuration loading, and gpu-proxy-cpp/src/ssl_utils.cpp, which nothing uses.
- systemctl is taken to succeed, and nobody else starts or stops services during a run of the engine.
- Bids of a round are real numbers; game detection and the list of pods are inputs.
- Metrics, the metrics server, GPU memory queries, the other modules, dashboards and packages.
