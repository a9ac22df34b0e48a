# Aegis component clients

A Dafny model of the component side of the Aegis lifecycle protocol: the client that registers with
the daemon, walks through its states, answers heartbeats, configuration, rebirth and shutdown, and
reconnects with backoff. It covers the Rust client, the Go client and how the two relate, the Python
reconnection loop, the readers and writers of newline-terminated envelopes, and the hand-written
C++ and OCaml envelope codecs.

The environment is a sequence of links. A link fixes whether the socket opens, what each read gives
(an envelope, end of file, an I/O error, undecodable text or a timeout), whether the n-th write
succeeds and what the n-th call of `on_configure` answers. Everything is proved for every link and
every sequence of links, unless a row says otherwise.

- `Protocol` holds the vocabulary. A trace is a sequence of acts: envelopes written, callbacks made,
  the shutdown token cancelled, workers spawned.
- `RustSession` and `RustRun`, `GoSession` and `GoRun` define each client as a function from its
  environment to its trace, its fields and its outcome, for one connection and for a run.
- `RustClient` and `GoClient` are the clients as they are written: a class whose methods overwrite
  its fields and whose loops read and write. Every method is proved to do exactly what the function
  says. `Wiring` is the connection they drive.
- `RustTrace` is a second description of the Rust client that has no handlers, no failures and no
  state machine in it: a script which the input determines, cut at the first write that fails.
  `RustWire`, `RustState`, `RustFilter` and `RustEnding` prove their results through it.
- `RustPlain` and `GoPlain` say what each client does in terms of the fields of the envelopes it reads
  and writes, with every envelope written out; `GoPlain` does so for whole connections.
- `Simulation` relates the two clients; `GoState` and `GoRace` are about what Go's `State` means,
  alone and under concurrent callers.
- `Backoff` has the closed forms of the delays; `PythonRun` is the loop that resets them.
- `Framing`, `DataStream` and `GoReaders` are about bytes: writers under a lock, line readers that
  live as long as the connection, and decoders that are thrown away. `Codec` is about JSON objects.

Where the code is not what a reader expects, the model follows the code:

- Rust indexes the REGISTERED payload. If `component_id` or `session_id` is missing the client
  panics, which is an outcome of its own here (`Panicked`, `Crashed`). A value that is not a string
  becomes the empty text.
- Rust cancels its token before it writes the acknowledgement of a SHUTDOWN. If that write fails
  there is no graceful shutdown, and `run` retries.
- `run` can be called again on a component that a clean exit left in SHUTDOWN. It keeps that state
  until a REGISTERED is stored, so SHUTDOWN alone does not mean that this run returned Ok.
- The comment on Go's `Run` (aegis-go/aegis/client.go:48-50) says that it returns on a non-recoverable
  error. The code reconnects after one, and after a SHUTDOWN as well (`GoRun.NoCleanExit`).
- The comment on Go's `register` (aegis-go/aegis/client.go:153-156) leaves out INITIALIZING, which the
  code sends and has acknowledged.
- `on_error` gets `UNKNOWN` from Rust and the empty text from Go when a payload has no code. The
  simulation identifies the two.
- A Rust `DataStream` can be read again after a timeout, and has then lost the start of a line that
  the timeout cut. `Framing.StopLoses` gives the exact condition under which nothing is lost.
- Go throws away the buffer of every decoder it used. `GoReaders.ReceivedIsSent` and
  `GoReaders.StreamIsWhole` give the exact conditions under which nothing is lost with them.

## Model

| member | source | states |
|---|---|---|
| RustClient.Component.SendStateUpdate | aegis-rust/src/component.rs:144-164 | the state is overwritten only if the update was written, and then with the state that was sent |
| RustClient.Component.SendAck | aegis-rust/src/component.rs:463-478 | one correlated ACK is written, or the failure is reported, and no field changes |
| RustClient.Component.Register | aegis-rust/src/component.rs:203-273 | registration leaves the trace, the ids, the state and the failure of the specification, for every first read and every failing write, panics on missing keys included |
| RustClient.Component.HandleHeartbeat | aegis-rust/src/component.rs:322-348 | a PING is answered with the current state, any other heartbeat with nothing |
| RustClient.Component.HandleConfig | aegis-rust/src/component.rs:350-397 | a CONFIGURE does what the specification says, and a worker gets this connection's token just when every write of it succeeded |
| RustClient.Component.HandleLifecycle | aegis-rust/src/component.rs:399-436 | REBORN and SHUTDOWN do what the specification says; the token is cancelled by SHUTDOWN alone, even if its acknowledgement fails |
| RustClient.Component.GracefulShutdown | aegis-rust/src/component.rs:454-461 | on_shutdown is called and then the state is SHUTDOWN |
| RustClient.Component.HandleErrorMsg | aegis-rust/src/component.rs:438-452 | on_error gets code and message with their defaults, and the error is fatal unless it is marked recoverable |
| RustClient.Component.Dispatch | aegis-rust/src/component.rs:292-318 | each type of envelope goes to its handler, with that handler's effect on trace, fields, workers and token |
| RustClient.Component.MessageLoop | aegis-rust/src/component.rs:275-320 | the loop ends as the specification says; all workers it spawned hold its one fresh token, which is cancelled just when the trace says so |
| RustClient.Component.RunOnce | aegis-rust/src/component.rs:190-201 | a connection from open to end is the specified session, and only one that got past registration has a token |
| RustClient.Component.Judge | aegis-rust/src/component.rs:113-137 | the decision to return or retry after a connection, with its 32-bit count of attempts |
| RustClient.Component.Run | aegis-rust/src/component.rs:108-142 | the loop over connections is the specified run; tokens of different connections differ, every worker holds its own connection's, and at the end of the run each is cancelled just when its connection's trace cancelled it |
| Protocol.TopicsAre | aegis-rust/src/component.rs:365-368 | the topics read from a payload are the strings of its list: each at a place of its own, the places increasing, and no string left out; none when there is no list |
| RustPlain.SessionEnds | aegis-rust/src/component.rs:190-320 | a connection fails on I/O, or as its first read fails, or refused with the command it got, or in a panic, or as its message loop ends: clean after a SHUTDOWN, fatal after an unmarked error, and otherwise as the read after the handled envelopes fails, each fault with its own error |
| RustPlain.FirstReadFails | aegis-rust/src/component.rs:238-249 | a failing first read ends the connection with the error of its fault (connection closed, I/O, bad envelope or timeout), after REGISTER alone and without a change of the component |
| RustPlain.Refused | aegis-rust/src/component.rs:243-249 | a connection ends with a registration error naming a command just when it could write REGISTER and its first read is an envelope with that command, other than REGISTERED |
| RustPlain.FailureIsRetried | aegis-rust/src/component.rs:121-140 | any failure but a refusal is followed by a sleep and another attempt, when reconnection is on, the limit is not reached and there is another link |
| RustPlain.BrokenReadIsRetryable | aegis-rust/src/component.rs:282-290 | a connection of a run whose message loop is ended by neither SHUTDOWN nor a fatal error fails as its next read does, or on I/O, and such a failure is one that is retried |
| RustPlain.ErrorMessage | aegis-rust/src/component.rs:307-310 | an ERROR calls on_error with its code, or UNKNOWN, and its message, or nothing; the loop goes on just when `recoverable` is a member with value true, and else ends as fatal |
| RustPlain.UnmarkedErrorIsFatal | aegis-rust/src/component.rs:445-451 | an absent flag, and any value but true, ends the loop as fatal |
| RustPlain.ConfigureCalls | aegis-rust/src/component.rs:360-372 | a CONFIGURE calls on_configure with the socket path, or nothing, and the strings of the topics list in order |
| RustPlain.StateLeft | aegis-rust/src/component.rs:144-162 | the state a connection leaves is SHUTDOWN if it is clean, else the one last told to the daemon, else REGISTERED if it got so far, else the one before, whichever writes fail |
| RustTrace.HandleIsCut | aegis-rust/src/component.rs:322-461 | whatever is read in whatever state, a handler does the acts that the envelope calls for up to the first failing write, fails on I/O just when something is left of them, and otherwise leaves the state and outcome called for |
| RustTrace.LoopIsCutScript | aegis-rust/src/component.rs:275-320 | the message loop does the script of its input up to the first failing write |
| RustTrace.SessionIsCutScript | aegis-rust/src/component.rs:190-320 | a whole connection does its script up to the first failing write, and ends as its input says unless something of the script is left |
| RustTrace.HandleMarks | aegis-rust/src/component.rs:385-423 | a handler spawns a worker only by completing a CONFIGURE and cancels the token only on SHUTDOWN, whichever writes fail |
| RustWire.SessionGrammar | aegis-rust/src/component.rs:203-478 | for every input, every pattern of failing writes and whatever earlier connections left, the acts of a connection are a prefix of REGISTER, INITIALIZING, READY, any repetition of on_ping with a PONG, on_configure with ACK, CONFIGURED, RUNNING and a worker or with CONFIGURE_FAILED, on_reborn with an ACK, and on_error, and at most one farewell: the cancellation, an ACK and on_shutdown; each envelope is written out with its type, command, correlation and payload |
| RustWire.GrammarTells | aegis-rust/src/component.rs:418-424 | acts that follow the grammar tell a farewell apart from a rebirth: nothing follows a cancellation but one ACK and then on_shutdown, so nothing is sent after the farewell, and on_shutdown is called nowhere else |
| RustWire.OrderedMatching | aegis-rust/src/component.rs:322-478 | the correlated envelopes match, in order and with their causes' ids, the PINGs, accepted CONFIGUREs, REBORNs and SHUTDOWN received; all of them when no write fails, a prefix otherwise |
| RustState.StateCoherence | aegis-rust/src/component.rs:259-319 | at every head of the message loop the state is the one last told to the daemon on this connection, is READY or RUNNING, and is RUNNING just when a CONFIGURE was completed on this connection |
| RustState.SessionPongs | aegis-rust/src/component.rs:322-348 | every PONG reports what the daemon was last told, RUNNING just when a RUNNING update precedes it on the connection and READY otherwise |
| RustFilter.RebornNonInterference | aegis-rust/src/component.rs:405-416 | when no write fails, every on_reborn is followed by its ACK, and deleting the REBORNs after registration deletes exactly these pairs, whose ACKs answer the REBORNs handled, in order; the rest of the trace, the state, the ids, the outcome, the number of workers and the cancellation of the token stay as they are |
| RustFilter.WithoutRebornKeeps | aegis-rust/src/component.rs:405-416 | from no trace at all does that deletion take a spawned worker, a cancellation or any act but on_reborn and ACKs |
| RustFilter.AckTransparency | aegis-rust/src/component.rs:294-318 | inserting or deleting Control, Data and otherwise ignored envelopes anywhere after the first read changes nothing at all, whichever writes fail |
| RustFilter.InsertIgnored | aegis-rust/src/component.rs:312-317 | one CONTROL or DATA envelope inserted at any place after the first read leaves the whole connection as it is |
| RustRun.RunIsChain | aegis-rust/src/component.rs:108-142 | a run is a chain of sessions, each started from what the one before left, in which all but the last failed in a way that is retried, with one sleep between neighbours |
| RustRun.VerdictTells | aegis-rust/src/component.rs:113-137 | run returns Ok just after a clean connection; a panic and a refused registration are passed on whatever the configuration; any other failure is never passed on, but ends the run just when reconnection is off or the 32-bit count of failures has reached the limit, with the error that says so |
| RustRun.SleepsFollow | aegis-rust/src/component.rs:109-140 | the first sleep is the initial delay, unclamped, and the k-th is that delay doubled k-1 times or the maximum, whichever is less; successful sessions reset nothing |
| RustRun.RetryBound | aegis-rust/src/component.rs:109-142 | with a limit M a run opens at most M connections, sleeps at most M-1 times, ends within any M links, and reports the limit, naming M, just when reconnection is on and exactly M connections failed, none by registration |
| RustEnding.SessionParts | aegis-rust/src/component.rs:275-461 | whatever the component was before, a clean connection handled a SHUTDOWN last and its trace ends with cancellation, that ACK and on_shutdown; any other connection never called on_shutdown; either way the token is cancelled just when a SHUTDOWN was handled; and the state is SHUTDOWN afterwards just when the connection was clean, or when it was SHUTDOWN before and REGISTERED was not stored |
| RustEnding.PartedIff | aegis-rust/src/component.rs:418-424 | a connection is clean just when a SHUTDOWN was acknowledged, and just when on_shutdown was called |
| RustEnding.CleanExit | aegis-rust/src/component.rs:108-142 | whatever the component was before, run returns Ok just when its last connection acknowledged a SHUTDOWN; then on_shutdown was called once in the whole run as its very last act, and that ACK is the last envelope; on any other return it was never called; the state is SHUTDOWN afterwards just when run returned Ok, or when it was SHUTDOWN already and no connection stored REGISTERED |
| RustEnding.FreshExit | aegis-rust/src/component.rs:108-142 | so from a component that is not shut down, the state is SHUTDOWN after run just when run returned Ok |
| RustEnding.ShutWithoutExit | aegis-rust/src/component.rs:108-142 | that does not hold of running a component that is SHUTDOWN already: with no socket and reconnection off it stays SHUTDOWN and run returns an error |
| RustEnding.Conservation | aegis-rust/src/component.rs:280-423 | whatever the component was before, on each connection and over a run as many workers are spawned as RUNNING updates are written, and a connection's token is cancelled just when a SHUTDOWN was handled on it |
| RustEnding.SessionIdentity | aegis-rust/src/component.rs:214-259 | a connection that can write sends first of all a REGISTER, whose payload carries the stored id, or else the environment's if that is not empty, or else none; it takes the ids of its REGISTERED, each from its own member, even if it then fails, and otherwise keeps those it had |
| RustEnding.StableIdentity | aegis-rust/src/component.rs:214-259 | with a daemon that gives back the id it is offered, an id once stored never changes, and the first envelope of every later connection of the run is a REGISTER whose payload carries it |
| RustEnding.FirstIdentity | aegis-rust/src/component.rs:214-259 | with such a daemon the first REGISTERED gives the component a non-empty id, the environment's if it has one |
| RustEnding.RunWire | aegis-rust/src/component.rs:108-320 | every connection of a run follows the grammar, sends nothing after a farewell, answers its causes in order and sends honest PONGs |
| Backoff.NextDelay | aegis-rust/src/component.rs:140 | doubling with a maximum advances the closed form by one |
| Backoff.DelayGrows | aegis-rust/src/component.rs:109-140 | delays never shrink, and stay within the maximum, when the first is within it |
| Backoff.Total | aegis-rust/src/component.rs:109-140 | the total of n sleeps is first * (2^m - 1) + maximum * (n - m), with m the number of sleeps before the maximum is reached |
| Backoff.FreeExists | aegis-rust/src/component.rs:109-140 | that m exists for every number of sleeps, first delay and maximum |
| GoClient.Component.SendStateUpdate | aegis-go/aegis/client.go:93-104 | State is stored only if the update was written |
| GoClient.Component.RecvACK | aegis-go/aegis/client.go:195-207 | any envelope at all is taken for the acknowledgement, and only a read error is reported |
| GoClient.Component.Register | aegis-go/aegis/client.go:157-213 | registration leaves the trace, ids, State, unread input and failure of the specification, for all reads and failing writes |
| GoClient.Component.HandleHeartbeat | aegis-go/aegis/client.go:252-272 | a PING is answered with the current State, and a failing write is passed over |
| GoClient.Component.ParseTopics | aegis-go/aegis/client.go:286-292 | the loop collects the strings of the topics list: each at a place of its own, the places increasing, and no string left out |
| GoClient.Component.HandleConfig | aegis-go/aegis/client.go:280-338 | a CONFIGURE leaves the trace, State and unread input of the specification, going on after a failed ACK and stopping at the first failed update or acknowledgement |
| GoClient.Component.HandleLifecycle | aegis-go/aegis/client.go:341-354 | only SHUTDOWN stops the loop, with nil, and does so even when its ACK cannot be written |
| GoClient.Component.GracefulShutdown | aegis-go/aegis/client.go:371-384 | on_shutdown, a SHUTDOWN envelope if it can be written, and State SHUTDOWN in any case |
| GoClient.Component.HandleErrorMsg | aegis-go/aegis/client.go:357-369 | on_error gets code and message, and the loop stops unless the error is marked recoverable |
| GoClient.Component.MessageLoop | aegis-go/aegis/client.go:215-250 | the loop ends with the trace, State, unread input and error of the specification, which looks at the context at each head and shuts down gracefully when it is cancelled |
| GoClient.Component.RunOnce | aegis-go/aegis/client.go:131-151 | a connection from open to end is the specified session |
| GoClient.Component.Run | aegis-go/aegis/client.go:51-90 | the loop over connections is the specified run: its verdict and the fields it leaves, with a context cancelled before it, during any connection or sleep, or never |
| GoPlain.HandleTells | aegis-go/aegis/client.go:252-384 | an envelope leads to the acts, state, error and unread input told of it, with every envelope written out: a failed PONG or ACK changes nothing else, each update of a CONFIGURE goes out only after the one before was acknowledged, and the worker starts only after the last was |
| GoPlain.LoopIsTold | aegis-go/aegis/client.go:215-250 | for every input, pattern of failing writes and cancellation, a message loop does what is told of its envelopes, and ends with nil after a SHUTDOWN, as fatal after an unmarked error, as cancelled, or with the fault of its read |
| GoPlain.SessionIsTold | aegis-go/aegis/client.go:131-213 | a whole connection does what its tale says from REGISTER on, and takes its ids from the REGISTERED, each from its own member |
| GoPlain.FirstEnvelope | aegis-go/aegis/client.go:157-176 | the first envelope of a connection is a REGISTER whose payload carries the configured id, empty or not |
| GoPlain.RefusedJustSo | aegis-go/aegis/client.go:182-184 | a connection ends as refused with a command just when it could write REGISTER and its first read is an envelope with that command, other than REGISTERED |
| GoPlain.ErrorMessage | aegis-go/aegis/client.go:242-245 | an ERROR calls OnError with its code and message, each empty if there is none; the loop goes on just when `recoverable` is a member with value true |
| GoPlain.UnmarkedErrorIsFatal | aegis-go/aegis/client.go:357-369 | an absent flag, and any value but true, ends the loop as fatal |
| GoPlain.ConfigureCalls | aegis-go/aegis/client.go:285-298 | a CONFIGURE calls OnConfigure with the socket path, or nothing, and the strings of the topics list in order |
| GoRun.NoCleanExit | aegis-go/aegis/client.go:60-88 | with reconnection on and no limit, a run that is neither refused nor cancelled connects to every link there is, however often it is shut down; nil is returned just when reconnection is off and the first session was shut down |
| GoRun.RunTells | aegis-go/aegis/client.go:51-90 | a run is a chain of sessions, each started from what the one before left, with one sleep between neighbours; it passes a refusal on whatever the configuration, returns what its session did when reconnection is off, reports the limit just when the count of failures has reached it, and else tries again |
| GoRun.Cancellation | aegis-go/aegis/client.go:56-86 | a cancelled context ends the run, before it connects or at the connection during or after which it comes; the context's error is returned just when the message loop saw it or nothing else made Run return before the sleep |
| GoRun.ExactDoubling | aegis-go/aegis/client.go:88 | for delays and maxima below 2^63 the 64-bit doubling, and the next delay, are the exact ones if and only if the delay is below 2^62 |
| GoRun.Overflow | aegis-go/aegis/client.go:88 | from 2^62 on, the next delay is negative, and which it is |
| GoRun.SleepsFollowExactly | aegis-go/aegis/client.go:52-89 | for any non-negative 64-bit delays, the sleeps of a run follow the closed form over unbounded integers if and only if that form puts every sleep but the last below 2^62 |
| GoRun.SleepsFollow | aegis-go/aegis/client.go:52-89 | so with both delays below 2^62 every sleep of a run follows the closed form, whatever happens in it |
| GoState.LoopCoherent | aegis-go/aegis/client.go:215-384 | once registered, whichever reads and writes fail, State is what the daemon was last told and no more workers run than RUNNING updates were written, as long as no SHUTDOWN is handled and the context is not seen cancelled; State is SHUTDOWN just when either happens, and nil is returned just for a SHUTDOWN |
| GoState.SessionCoherent | aegis-go/aegis/client.go:131-384 | the same for a whole connection from any stored fields |
| Simulation.HandleMimics | aegis-go/aegis/client.go:252-384 | on one envelope, with no failing write, Go visibly does what the Rust reply says, and one SHUTDOWN more on a SHUTDOWN |
| Simulation.GoSimulatesRust | aegis-go/aegis/client.go:157-384 | on one connection without failing writes, REBORN or a cancelled context, Go's envelopes (type, command, correlation, reported state), callbacks and workers are, in order, Rust's on the input without the acknowledgements that Go waits for, plus one SHUTDOWN exactly when the input ends in SHUTDOWN; both end cleanly together and in the same state |
| Simulation.SameInputSameTrace | aegis-rust/src/component.rs:203-436 | when those acknowledgements are envelopes that Rust ignores, the same holds of both clients on the very same input |
| GoRace.Reachable | aegis-go/aegis/client.go:93-114 | over every interleaving of calls, phases agree with the history of writes and stores, one call at most holds the mutex, and State is the last one stored |
| GoRace.HistoryIs | aegis-go/aegis/client.go:93-114 | over every interleaving, a call is on the wire just when it is a state update whose write worked, and stored just when it came to its store; a failed write and SendError are neither |
| GoRace.StateAgainstWire | aegis-go/aegis/client.go:93-119 | whenever no call is in flight, the last writer is the last storer just when its window from write to store does not lie wholly inside the last storer's, and State is what was last written just when that holds or both calls made the same update |
| GoRace.SequentialAgrees | aegis-go/aegis/client.go:93-104 | calls that do not overlap leave State equal to the last update written |
| GoRace.Disagreement | aegis-go/aegis/client.go:93-104 | whatever State was at first, for any two different updates there is a run of two calls that ends with State at the one and the daemon last told the other |
| PythonRun.AegisComponent.SignalReady | aegis-python/aegis_component/client.py:403-408 | how far the two updates and the acknowledgement got decides the state and the exception |
| PythonRun.AegisComponent.Iterate | aegis-python/aegis_component/client.py:247-263 | how the try statement ends, which state it leaves, and that the delay is reset just when READY was signalled |
| PythonRun.AegisComponent.Run | aegis-python/aegis_component/client.py:240-275 | the loop is the specified run: its return, its sleeps and the state after it |
| PythonRun.EndTells | aegis-python/aegis_component/client.py:247-263 | an iteration is not caught just when its first stage to go wrong raises something else than an OSError, is refused just when it connected and was refused, and disconnects just when that stage raises an OSError or nothing goes wrong |
| PythonRun.RunTells | aegis-python/aegis_component/client.py:245-275 | an uncaught exception and a refusal end the run as what they are; a disconnection ends it just when reconnection is off or the limit is reached, and is else followed by a sleep and another attempt |
| PythonRun.StateTells | aegis-python/aegis_component/client.py:340-440 | the state after an iteration, told of the first stage to go wrong |
| PythonRun.CompletedTells | aegis-python/aegis_component/client.py:249-253 | the delay is reset just when connecting, registering and all of _signal_ready go well |
| PythonRun.ResetBackoff | aegis-python/aegis_component/client.py:245-275 | every sleep is the closed form at the number of iterations since the last one that signalled READY, or since the start; attempts are never reset and bound the whole run |
| Framing.WholeFrames | aegis-rust/src/component.rs:480-489 | for any senders, any partial writes and a write error at any point, the stream is whole frames and then a prefix of the lock holder's frame |
| Framing.SentInOrder | aegis-rust/src/component.rs:480-489 | the frames on the stream are those of the senders that got the lock, in the order in which they got it, the last of them as far as it is sent |
| Framing.LineReader.ReadLine | aegis-rust/src/component.rs:494-500 | however the bytes are cut into chunks, a read gives the first result of a byte-wise reader, be it a line, a timeout, an I/O error or the end, and leaves the rest |
| Framing.LineReader.Drain | aegis-rust/src/component.rs:285-290 | reading to the end gives all those results |
| Framing.SentIsRead | aegis-rust/src/component.rs:480-501 | from senders to reader: exactly the envelopes of the senders that got the lock, in that order, the last of them as far as it is sent |
| Framing.StopLoses | aegis-rust/src/data_stream.rs:141-159 | a reader that is used again after timeouts and failing reads gets what was sent just when every one of them falls between two lines |
| Framing.DroppedReaderIsSafe | aegis-rust/src/component.rs:195-200 | a reader that is dropped at its first timeout or failing read gives a prefix of what was sent: no line cut by one is joined to later bytes |
| DataStream.DataStream.Connect | aegis-rust/src/data_stream.rs:91-134 | the handshake takes one line, with each error in its case (no connection, a failed write, a timeout, a failed read, text that is not UTF-8 or does not decode, a rejection), and the stream keeps the reader with whatever it holds |
| DataStream.DataStream.Next | aegis-rust/src/data_stream.rs:141-159 | a frame is the next line of the same reader, with end of file, timeout, failed read and decoding errors in their cases |
| DataStream.RefusalTells | aegis-rust/src/data_stream.rs:96-127 | connect succeeds just with a socket, a handshake sent and an answer that is UTF-8, decodes and says ok; every other case has its own error |
| DataStream.DeliverTells | aegis-rust/src/data_stream.rs:144-158 | next gives a message just for a line that is UTF-8 and decodes; every other case has its own error |
| DataStream.GrantedTells | aegis-rust/src/data_stream.rs:129 | the topics of a stream are those of the answer, or none |
| DataStream.StreamIsWhole | aegis-rust/src/data_stream.rs:101-159 | however answer and frames arrive, without a timeout the one reader gives the answer and then exactly the frames |
| GoReaders.Reader.Recv | aegis-go/aegis/client.go:398-404 | a fresh decoder gives the first value and loses exactly what follows it in the refill that completes it |
| GoReaders.Reader.RecvAll | aegis-go/aegis/client.go:224-227 | recv after recv, each with a decoder of its own, gives the specified values |
| GoReaders.ReceivedIsSent | aegis-go/aegis/client.go:398-404 | what is received is what was sent if and only if no refill carries bytes of two messages |
| GoReaders.OpenStream | aegis-go/aegis/stream.go:43-85 | the stream opens just when nothing refuses it, each refusal in its case, with the answer's topics and a new reader over what the handshake's decoder left |
| GoReaders.Next | aegis-go/aegis/stream.go:97-109 | a frame is the decoded next line of the stream's reader, a line without newline is an end of file, and a line that does not decode is an error that leaves the lines after it |
| GoReaders.RefusalTells | aegis-go/aegis/stream.go:44-76 | a stream opens just with both ids, a socket, a handshake sent and an answer that decodes and says ok; every other case has its own error |
| GoReaders.DeliverTells | aegis-go/aegis/stream.go:98-108 | a frame is received just for a whole line that decodes |
| GoReaders.StreamIsWhole | aegis-go/aegis/stream.go:53-98 | the new reader gets exactly the frames if and only if the chunk that completes the answer ends with the answer's newline |
| Codec.KindNames | aegis-cpp/src/protocol.cpp:27-95 | each message type has one name, which no other text shares |
| Codec.CommandNames | aegis-cpp/src/protocol.cpp:39-111 | the same for commands |
| Codec.StateNames | aegis-cpp/src/protocol.cpp:57-85 | the same for states |
| Codec.WireKinds | aegis-cpp/src/protocol.cpp:27-37 | the names of the types on the wire, one by one |
| Codec.WireCommands | aegis-ocaml/lib/protocol.ml:39-95 | the names of the commands on the wire, one by one |
| Codec.WireStates | aegis-ocaml/lib/protocol.ml:39-95 | the names of the states on the wire, one by one |
| Codec.RoundTrips | aegis-cpp/src/protocol.cpp:131-159 | both parsers recover every envelope from what either printer prints, with or without correlation and with any payload |
| Codec.Reparse | aegis-ocaml/lib/protocol.ml:132-161 | on every JSON value that a codec accepts, parsing, printing and parsing again changes nothing |
| Codec.CppReads | aegis-cpp/src/protocol.cpp:146-159 | the C++ parser gives an envelope just when each field is what the member of its own name says, where an absent text is empty and an absent payload an empty object |
| Codec.OcamlReads | aegis-ocaml/lib/protocol.ml:148-161 | the OCaml parser does just when every text member is there, where an absent payload is null |
| Codec.StrictAgainstLenient | aegis-ocaml/lib/protocol.ml:144-161 | on objects without repeated names OCaml accepts exactly what C++ accepts and which lacks no required text, and both read the same envelope but for a missing payload |

## Left out

- Sockets, runtimes and clocks: they are the links, arrivals and iterations that the model quantifies over. A timeout is a read that fails. The first read of a connection has none in the code, so a link whose first read is a silence stands for no execution.
- Envelope ids, timestamps, sources and the constant fields of REGISTER, the uptime in a PONG, log messages and the texts of errors: no behaviour depends on them.
- The JSON text serialisers: libraries. Decoding is a parameter or an error of a read, and serialised text is assumed free of raw newlines (section 7 of RFC 8259).
- Durations are exact naturals in Rust and Python: the rounding of `mul_f32`, its panic when a duration overflows, and floats are not modelled. Go's are exact 64-bit integers.
- Rust's attempt counter wraps at 2^32 when there is no limit, as an unchecked build does; a checked build would panic there.
- Rust's public `send_error` and calls of `send_state_update` from outside the loops: the client does not call them so, and a user does not get the connection's writer that they need.
- The bodies of user callbacks and workers: only that they are called, with what, and whether `on_configure` fails. Go's optional handlers are taken as functions that do nothing when absent.
- GoReaders.Next: the goroutine and the channel by which a cancelled context interrupts it are not modelled, because they add a result and close the stream but change no frame.
- GoReaders.Reader.Recv: every value sent is well-formed JSON that its last byte completes. A malformed value ends the connection; in the clients it is a failed read.
- Framing.LineReader.ReadLine: decoding a line as UTF-8 and JSON is left to its callers, the data stream and the connection, where it is an error of its own.
- Envelopes whose type or command is outside the vocabulary: Rust's decoder rejects them, which is a failed read here; Go reads them and ignores them, or refuses registration on one, and the model has no value for them.
- GoClient.Component.Register: ids are the payload's JSON values, because the text that Go's `%v` renders from a value that is not a string is not modelled.
- PythonRun.AegisComponent.Iterate: what the message loop handles is not modelled, only whether it returns or raises and the state it leaves when it raises, because the protocol is modelled through the Rust and Go clients.
- GoRace.StateAgainstWire: other writers of State (registration and shutdown) are assumed idle, as a caller of `SendStateUpdate` can only ensure by waiting for the loop.
- Framing.WholeFrames: after a write error nothing more is written to the socket, because Rust ends the connection on one; Go keeps writing after some failed writes, which is not modelled at the level of bytes.
- The C++ and OCaml clients, which the repository marks as outdated, the examples, and the daemon.
