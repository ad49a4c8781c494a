# yxAlpha: a verified model of its reactor, connections, logger, thread pool and HTTP layer

yxAlpha is a C++ reactor library in the style of muduo. This project models the
parts of it whose correctness is not visible in any one function, in Dafny 4.11.
`dafny verify dfyconfig.toml` checks everything.

Two forms are used side by side:

* **Objects.** A class of the source is a Dafny class with the same fields. Each
  method is proved equal to a function on the object's abstract value.
* **Transition systems.** Where threads interleave, or the kernel and the user
  choose, the abstract value is a datatype and a `Step` is one atomic action. A
  run is any sequence of enabled steps, so a lemma over runs covers every
  interleaving and every result of a system call.

| file | module | what it models |
|---|---|---|
| `prelude.dfy` | `Prelude` | what several modules share |
| `decimal.dfy` | `Decimal` | canonical decimal text and its inverse |
| `logstream.dfy` | `LogStreams` | `FixedBuffer`, the in-place integer formatter, `LogStream` |
| `asynclogging.dfy` | `AsyncLoggings` | double buffering of the asynchronous logger |
| `buffer.dfy` | `Buffers` | the growable two-index byte buffer |
| `eventhandler.dfy` | `EventHandlers` | interest set and dispatch order |
| `stream.dfy` | `Streams` | one connection's output as a transition system |
| `tcpconnection.dfy` | `TcpConnections` | the connection object over real buffers |
| `dispatcher.dfy` | `Dispatchers` | functor queue, eventfd and wake-ups of one loop |
| `lifecycle.dfy` | `Lifecycles` | connections handed between the server loop and the IO loops |
| `tcpserver.dfy` | `TcpServers` | the server object, with the source's asserts |
| `threadpool.dfy` | `ThreadPools` | the bounded queue with two condition variables |
| `httprequest.dfy` | `HttpRequests` | the request's fields, header splitting and trimming |
| `httpcontext.dfy` | `HttpContexts` | the parser loop over a `Buffer` |
| `httpresponse.dfy` | `HttpResponses` | the response printer and the header round trip |

## Main results

* **Connection life cycle** (`Lifecycles.LifeCycle`, `Ownership`,
  `ClosingIsDestroyed`). One invariant gives each connection a place in its life, told
  by its counters, by its flags and by the one functor that is queued for it or in
  a thread's hand. From it follow the order established, closed, erased, destroyed,
  at most once each; every assert of the server and its connections; that a connection is held until it
  is destroyed; and that a closing connection is destroyed once each loop that holds
  it has run more functors than were queued ahead of its own. `ConnectionRunsInServer` ties it to the stream model
  below: whatever server, loops and threads do, one connection's part in it is a run of
  the stream model, and both agree on where the connection is.
* **Output stream** (`Streams.StreamExactly`, `GracefulExactly`, `SettledExactly`,
  `RunSignals`). The data handed over, in order, is what the kernel took followed by the
  backlog, whichever threads send. The half-close is *not* graceful in every run.
  Four runs show it: data overtaken (`FinBeforeData`), data after the FIN
  (`DataAfterFin`), and the FIN sent twice, by a ShutDown from another thread
  (`FinTwice`) or by two that race (`FinTwiceByRace`). `GracefulExactly` says which runs
  are graceful, in terms of the state, payload and write interest that each call finds
  and of whether the write side was closed before. `SettledExactly` says it without
  looking back: the FIN must go out while no other thread's call is on its way, and no
  ShutDownInLoop may meet a backlog without write interest. `GracefulBeforeClose` gives
  the documented case.
* **Wake-ups** (`Dispatchers.NoLostWakeup`). Queued functors are left to the timeout if
  and only if the loop is in its first round and its owner queued before `Loop()`. A
  loop told once to quit misses it, or fails an assert, if and only if it was told
  before `Loop()` had cleared `quit_` (`QuitLostExactly`).
* **Asynchronous logger** (`AsyncLoggings`). On the heap: no buffer is in two roles,
  the back-end's two spare buffers are there and empty at the top of each round.
  Over runs: what was appended is what rounds took, then what is buffered.
* **Thread pool** (`ThreadPools.NoStrandedWaiter`, `TasksRunInOrder`, `StopTerminates`).
* **HTTP** (`HttpContexts.EndsExactly`, `MessageFramed`,
  `HttpResponses.HeaderRoundTrip`). The parser's loop does not end on every input
  (`IncompleteHeaderNeverEnds`); `EndsExactly` gives the inputs on which it does, and the
  method requires no more. `BlockRoundTripExactly` gives the responses that survive.
* **Buffer and formatter** (`Buffers.RunIsByteQueue`, `RunIsSpaceBounded`,
  `LogStreams.RunStaysInside`).

## Where code and documentation differ

The model follows the code.

* The error and close callbacks of a connection are both bound to `HandleWrite`
  (`net/tcpconnection.cc:31-32`), so a hang-up or an error never closes a connection;
  only the end of the input does (`TcpConnections.EventClosesExactly`).
* `ShutDown` is documented to close the write side after all data has been written
  (`net/tcpconnection.h:44-45`), and Send to be safe from any thread
  (`net/tcpconnection.cc:62`). The four runs named above break the first promise.
* Whether the target has a query is tested against the end of the line in place of the
  end of the target (`http/httpcontext.cc:18-24`), so a target without `?` gets an empty
  query.
* `Loop()` clears `quit_` after asserting that it is clear
  (`reactor/dispatcher.cc:97-99`). A Quit from another thread in between is lost
  (`Dispatchers.QuitIsLost`), and one before fails the assert
  (`QuitBeforeLoopAborts`); `reactor/dispatchthread.cc:20-44` allows both.
* The version test accepts any eight characters that end in 0 or 1
  (`http/httpcontext.cc:27-38`), see `HttpContexts.PrefixIsNotChecked`.
* `DELETE` is recorded as `GET` (`http/httprequest.h:38-39`).
* An incomplete header block does not make `ParseRequest` return
  (`http/httpcontext.cc:76-78`), see `HttpContexts.IncompleteHeaderNeverEnds`; nor does a
  call after the message has been read (`DoneNeverEnds`).

## Model

| member | source | states |
|---|---|---|
| `Decimal.DigitsCanonical` | logger/logstream.cc:15-31 | the printed digits are non-empty, all decimal, and have no superfluous leading zero |
| `Decimal.ReadDigits` | logger/logstream.cc:15-31 | reading the digits of a number gives the number back |
| `Decimal.DigitsOfRead` | logger/logstream.cc:15-31 | conversely every canonical digit string is the text of the number it denotes |
| `Decimal.ReadText` | logger/logstream.cc:15-31 | the same with a sign: printing then reading is the identity on all integers |
| `Decimal.TextCanonical` | logger/logstream.cc:15-31 | the text has no superfluous zero, and a minus sign exactly for a negative number |
| `Decimal.TextInjective` | net/tcpserver.cc:55-56 | distinct connection ids have distinct texts |
| `Decimal.DigitsLength` | logger/logstream.h:74 | a number has at most k digits if and only if it is below ten to the k |
| `Decimal.TextLength64` | logger/logstream.h:74 | twenty characters hold every signed or unsigned 64-bit value, the minimum included |
| `LogStreams.DigitStep` | logger/logstream.cc:19-23 | truncating division and the signed digit table yield the next digit of the magnitude for either sign |
| `LogStreams.WriteDigits` | logger/logstream.cc:17-23 | the digit loop leaves the magnitude's digits in reverse order and touches nothing else |
| `LogStreams.ReverseRange` | logger/logstream.cc:29 | in-place reversal of a range: the range reversed, all other bytes as before |
| `LogStreams.Convert` | logger/logstream.cc:15-31 | the bytes written are the canonical decimal text and a NUL; all other bytes are as before |
| `LogStreams.FixedBuffer.Append` | logger/logstream.h:20-26 | a text is appended whole, or not at all when it would leave no spare byte; the bytes spell the accepted appends |
| `LogStreams.FixedBuffer.Add` | logger/logstream.h:32 | a text written at the cursor by the formatter becomes part of the contents |
| `LogStreams.LogStream.FormatInteger` | logger/logstream.cc:34-39 | an integer is appended whole when 32 bytes are free, else dropped |
| `LogStreams.LogStream.InsertBool` | logger/logstream.cc:41-44 | one character, or nothing if it does not fit |
| `LogStreams.LogStream.InsertCString` | logger/logstream.cc:109-116 | the string, or a placeholder for a null pointer, whole or not at all |
| `LogStreams.RenderedItem` | logger/logstream.cc:34-116 | the text of each kind of item, literally; that of a number is canonical and reads back |
| `LogStreams.InsertedExactly` | logger/logstream.h:20-26 | an item is appended if and only if 32 bytes are left for a number, or more than its length for another |
| `LogStreams.RunStaysInside` | logger/logstream.cc:34-116 | over any sequence of inserts the cursor stays strictly inside the buffer and the line is a selection, in order, of whole rendered items |
| `LogStreams.NothingDroppedWithRoom` | logger/logstream.cc:34-116 | if everything fits with 32 bytes to spare then nothing is dropped |
| `AsyncLoggings.StepKeepsInv` | logger/asynclogging.cc:27-107 | an append or any part of a back-end round keeps: accounting of messages, file contents, a null next buffer means a queued one, and enough buffers to recycle |
| `AsyncLoggings.RunKeepsInv` | logger/asynclogging.cc:27-107 | that invariant in every state of every interleaving of appends and rounds |
| `AsyncLoggings.AppendedExactly` | logger/asynclogging.cc:27-41 | a buffer is queued if and only if the line would leave it no byte to spare, and the line then goes on in the next |
| `AsyncLoggings.RenderedRound` | logger/asynclogging.cc:73-84 | a round of at most 25 buffers is written whole; a larger one as a report whose number plus two is its size, and its two oldest buffers |
| `AsyncLoggings.RoundTakesAll` | logger/asynclogging.cc:58-69 | a round takes every message there is and leaves the front-end empty buffers |
| `AsyncLoggings.RoundFlushes` | logger/asynclogging.cc:53-84 | over every run, once a batch has been written, all that was offered before it was taken is in a round |
| `AsyncLoggings.UnlockedPartIsAtomic` | logger/asynclogging.cc:71-106 | an append in the middle of the unlocked part of a round commutes with it |
| `AsyncLoggings.Accounting` | logger/asynclogging.cc:27-84 | the messages offered in lock order are, whole and in order, those of the rounds written and then those still buffered; the file is the rendering of the rounds |
| `AsyncLoggings.NothingLostWithoutOverload` | logger/asynclogging.cc:58-84 | without a round of more than 25 buffers the file followed by all buffers is the whole appended stream |
| `AsyncLoggings.AsyncLogging.constructor` | logger/asynclogging.cc:11-56 | four distinct empty buffers, one in each role |
| `AsyncLoggings.AsyncLogging.Append` | logger/asynclogging.cc:27-41 | equals the abstract append over the real byte buffers; every buffer stays in exactly one role and only fresh ones join |
| `AsyncLoggings.AsyncLogging.RotateToNext` | logger/asynclogging.cc:32-34 | the full buffer is queued last and the empty spare one becomes current |
| `AsyncLoggings.AsyncLogging.RotateToNew` | logger/asynclogging.cc:35-37 | with no spare one a new buffer with an array of its own becomes current |
| `AsyncLoggings.AsyncLogging.SwapBuffers` | logger/asynclogging.cc:53-71 | the asserts at the top of a round hold; the queue and the current buffer become the batch and the front-end gets empty buffers |
| `AsyncLoggings.AsyncLogging.WriteBuffers` | logger/asynclogging.cc:71-84 | the batch is not empty; the bytes up to each cursor are written, of all buffers or, after a report with size minus two, of the two oldest |
| `AsyncLoggings.AsyncLogging.RecycleBuffers` | logger/asynclogging.cc:86-105 | both asserts hold, and the back-end has two distinct empty buffers again that no other role holds |
| `Buffers.Buffer.constructor` | utility/buffer.cc:9-14 | a fresh buffer has no payload and 256 free bytes behind the reserved 8 |
| `Buffers.Buffer.Compact` | utility/buffer.cc:42-48 | the overlapping forward copy moves the payload to the front unchanged |
| `Buffers.Buffer.Resize` | utility/buffer.cc:37-49 | grows or compacts, keeps the payload, and leaves room for `len` bytes |
| `Buffers.Buffer.Append` | utility/buffer.h:77-83 | the payload grows by exactly the given bytes |
| `Buffers.Buffer.ReadFd` | utility/buffer.cc:16-35 | for every result of the scatter read: an error changes nothing, else all bytes read join the payload in order |
| `Buffers.Buffer.MoveReadIndex` | utility/buffer.h:48-51 | the first bytes of the payload are consumed |
| `Buffers.Buffer.MoveReadIndexUntil` | utility/buffer.h:53-57 | the bytes before a position are consumed |
| `Buffers.Buffer.GetString` | utility/buffer.h:65-69 | returns the whole payload and empties the buffer |
| `Buffers.Buffer.FindCrlfFrom` | utility/buffer.h:100-105 | the first CRLF at or after a position, or none if there is none |
| `Buffers.Buffer.FindCrlf` | utility/buffer.h:95-98 | the first CRLF of the payload |
| `Buffers.StepIsByteQueue` | utility/buffer.h:48-83 | each operation puts bytes at the back and takes them from the front |
| `Buffers.RunIsByteQueue` | utility/buffer.h:48-83 | over any run all bytes appended or read are the bytes its consuming steps took from the front, in order, and then the payload |
| `Buffers.RunIsSpaceBounded` | utility/buffer.cc:16-49 | the array never exceeds the larger of 264 and payload plus twice the length plus 7 over the growing steps, less the tail that a growing read has filled |
| `EventHandlers.EventHandler.SetCareRead` | reactor/eventhandler.h:32 | read interest is set, write interest kept |
| `EventHandlers.EventHandler.SetCareWrite` | reactor/eventhandler.h:33 | write interest is set, read interest kept |
| `EventHandlers.EventHandler.SetStopCareWrite` | reactor/eventhandler.h:35 | write interest is dropped, read interest kept |
| `EventHandlers.EventHandler.SetStopCareAll` | reactor/eventhandler.h:36 | no interest is left |
| `Streams.StepKeepsInv` | net/tcpconnection.cc:43-243 | every call keeps conservation of bytes and write interest exactly for a non-empty backlog until close |
| `Streams.RunKeepsInv` | net/tcpconnection.cc:106-216 | over every run with an adversarial kernel and calls from any thread: accepted equals written followed by the backlog |
| `Streams.StreamExactly` | net/tcpconnection.cc:106-216 | over every run: the data handed over by sends on the loop thread and by queued ones, in order, is what the kernel took, as many bytes as it took, and then the backlog |
| `Streams.CallsAreFifo` | net/tcpconnection.cc:63-86 | the calls that other threads queue are run once each, in the order of queueing |
| `Streams.SendIsAtomic` | net/tcpconnection.cc:106-149 | every access of another thread commutes with SendInLoop |
| `Streams.ShutDownIsAtomic` | net/tcpconnection.cc:43-60 | one in the middle of a ShutDown on the loop thread has the effect it would have before or after it |
| `Streams.HandleWriteIsAtomic` | net/tcpconnection.cc:188-216 | one in the middle of HandleWrite has the effect it would have before it, if it precedes the reading of the state, else after it |
| `Streams.FinOutIsFins` | net/tcpconnection.cc:55-60 | the write side has been closed if and only if an earlier action found the state, interest and payload for it |
| `Streams.StepSendsFin` | net/tcpconnection.cc:55-60 | an action sends the FIN if and only if it runs ShutDownInLoop without write interest, or drains the backlog while disconnecting |
| `Streams.GracefulExactly` | net/tcpconnection.cc:43-60 | with calls from any thread, the FIN is sent at most once, after all data and with nothing written later, if and only if no action meets one of three guards; and then a drained backlog with no ShutDownInLoop on its way means that it was sent |
| `Streams.SettledExactly` | net/tcpconnection.cc:43-86 | once all calls of other threads have run: graceful if and only if the FIN went out with none on its way and no ShutDownInLoop met a backlog without write interest |
| `Streams.GracefulBeforeClose` | net/tcpconnection.h:44-45 | on the loop thread and before HandleClose the half-close is always graceful |
| `Streams.FinBeforeData` | net/tcpconnection.cc:235-243 | a run in which ShutDown after HandleClose sends FIN ahead of a buffered byte |
| `Streams.DataAfterFin` | net/tcpconnection.cc:62-74 | a run in which bytes of another thread are written after the FIN |
| `Streams.FinTwice` | net/tcpconnection.cc:43-60 | a run in which another thread's ShutDown makes the drain send the FIN and its queued functor send it again |
| `Streams.FinTwiceByRace` | net/tcpconnection.cc:47-51 | a run in which two threads pass the state test and the FIN is sent twice |
| `Streams.DrainSendsFin` | net/tcpconnection.cc:194-203 | after ShutDown, enough writable events drain the backlog and then send the FIN once |
| `Streams.StepSignals` | net/tcpconnection.cc:111-143 | the callbacks a call queues, told from the backlogs around it; a write-complete only when all accepted bytes are written |
| `Streams.RunSignals` | net/tcpconnection.cc:111-200 | over every run the callbacks queued are exactly the upward crossings of the mark with the new backlog, the drains and the whole sends |
| `TcpConnections.TcpConnection.constructor` | net/tcpconnection.cc:14-35 | a new connection is connecting, with empty buffers and no interest |
| `TcpConnections.TcpConnection.SendInLoop` | net/tcpconnection.cc:106-149 | the code over the real buffer is the abstract send |
| `TcpConnections.TcpConnection.Send` | net/tcpconnection.cc:63-74 | when connected: on the loop thread a send, on another the test and the queueing of one; else nothing |
| `TcpConnections.TcpConnection.ShutDown` | net/tcpconnection.cc:43-53 | when connected: on the loop thread the half-close, on another the test, the state change and the queueing; else nothing |
| `TcpConnections.TcpConnection.RunQueued` | net/tcpconnection.cc:55-60 | the loop running a queued SendInLoop or ShutDownInLoop is the abstract step |
| `TcpConnections.TcpConnection.HandleWrite` | net/tcpconnection.cc:188-216 | for every result of the write: the abstract drain step |
| `TcpConnections.TcpConnection.HandleClose` | net/tcpconnection.cc:235-243 | the state assert's condition is its precondition; all interest is dropped |
| `TcpConnections.TcpConnection.SetConnectionEstablished` | net/tcpconnection.cc:151-159 | connected with read interest |
| `TcpConnections.TcpConnection.SetConnectionDestroyed` | net/tcpconnection.cc:161-171 | disconnected without interest |
| `TcpConnections.TcpConnection.HandleRead` | net/tcpconnection.cc:173-186 | data joins what waits in the input buffer, and the message callback is given all of it and runs whatever calls it makes; the end of input closes; an error changes nothing |
| `TcpConnections.TcpConnection.MessageCallback` | net/tcpconnection.cc:178-179 | the callback finds the whole input payload, and what it does not take stays |
| `TcpConnections.TcpConnection.HandleEvent` | reactor/eventhandler.cc:36-67 | one epoll event is exactly the run of actions of its callbacks in dispatch order; a readable one gives the message callback all waiting and all new bytes |
| `TcpConnections.EventOrder` | reactor/eventhandler.cc:36-67 | which actions an event stands for, by epoll's bits and in the order of the source's branches |
| `TcpConnections.UserActionsExactly` | net/tcpconnection.cc:178-179 | every send and shutdown of the callback is made, with its data and in order |
| `TcpConnections.EventClosesExactly` | net/tcpconnection.cc:29-32 | one event closes the connection and drops its read interest if and only if it is readable and at its end; a hang-up or an error does not |
| `Dispatchers.StepKeepsInv` | reactor/dispatcher.cc:94-165 | every step of the owner or of another thread keeps order of functors and the wake-up invariant |
| `Dispatchers.RunKeepsInv` | reactor/dispatcher.cc:94-165 | that invariant over every interleaving |
| `Dispatchers.NoLostWakeup` | reactor/dispatcher.cc:94-149 | a loop about to sleep has functors queued and nobody about to wake it if and only if it is in its first round and its owner queued before it; one told to quit after the clearing is always about to be woken |
| `Dispatchers.QuitExactly` | reactor/dispatcher.cc:62-68 | past the clearing, the flag is set if and only if a Quit was made past it |
| `Dispatchers.AbortsExactly` | reactor/dispatcher.cc:62-98 | an assert on the flag fails if and only if Quit or `Loop()` is called with it set |
| `Dispatchers.QuitLostExactly` | reactor/dispatcher.cc:94-103 | a loop told once to quit misses it or aborts if and only if it was told before the clearing |
| `Dispatchers.QuitIsLost` | reactor/dispatcher.cc:97-99 | a run in which a Quit between assert and clearing leaves the loop asleep, not told and with nobody about to wake it |
| `Dispatchers.QuitBeforeLoopAborts` | reactor/dispatcher.cc:97 | a run in which a Quit before `Loop()` fails its assert |
| `Dispatchers.NoStallAfterStart` | reactor/dispatcher.cc:94-127 | an owner that queues nothing before `Loop()` never leaves a functor to the timeout |
| `Dispatchers.EarlyFunctorsWait` | reactor/dispatcher.cc:117-127 | a run in which functors queued before the loop starts are not signalled |
| `Dispatchers.ExecutedInLockOrder` | reactor/dispatcher.cc:117-165 | the functors given to QueueInLoop are those the loop has started followed by those left, in lock order |
| `Dispatchers.HistoriesOnlyGrow` | reactor/dispatcher.cc:151-165 | no functor that has run is ever taken back or reordered |
| `Dispatchers.Dispatcher.QueueInLoop` | reactor/dispatcher.cc:117-137 | the functor goes last and the eventfd is written unless the owner is sure to look |
| `Dispatchers.Dispatcher.Quit` | reactor/dispatcher.cc:62-68 | the flag is set, with a wake-up from any other thread; the assert is its precondition |
| `Dispatchers.Dispatcher.EnterLoop` | reactor/dispatcher.cc:94-101 | undisturbed, the head of `Loop()` leads to the first Select |
| `Dispatchers.Dispatcher.RunInLoop` | reactor/dispatcher.cc:109-115 | called at once on the own thread, queued with a wake-up from any other |
| `Dispatchers.Dispatcher.ExecutePendingFuncs` | reactor/dispatcher.cc:151-165 | exactly the functors pending on entry run, once each and in order; what they and other threads queue meanwhile waits for the next round, which is signalled |
| `Lifecycles.EstablishKeepsInv` | net/tcpconnection.cc:151-159 | establishment keeps the invariant, from the functor in hand |
| `Lifecycles.RemoveKeepsInv` | net/tcpserver.cc:78-89 | so does removal, with the destruction queued |
| `Lifecycles.DestroyKeepsInv` | net/tcpconnection.cc:161-171 | so does destruction, outside any HandleEvent of the loop |
| `Lifecycles.CloseKeepsInv` | net/tcpconnection.cc:235-243 | so does HandleClose, with the removal run inline or queued |
| `Lifecycles.AcceptKeepsInv` | net/tcpserver.cc:53-71 | so does a new connection on any loop |
| `Lifecycles.NamesInjective` | net/tcpserver.cc:55-62 | connections with the same name are the same connection |
| `Lifecycles.EventsAreHandled` | reactor/dispatcher.cc:100-103 | each event that epoll returned is handled once, in order, before functors run |
| `Lifecycles.AddedIsInserted` | net/tcpserver.cc:62 | the name of a new connection is never in the map yet |
| `Lifecycles.RemoveIsSafe` | net/tcpserver.cc:83-84 | the erasure finds the name, and it is that connection's entry |
| `Lifecycles.DestroyIsSafe` | reactor/eventhandler.cc:26-27 | destruction meets its state assert and never runs while the loop is inside a HandleEvent |
| `Lifecycles.StepKeepsInv` | net/tcpserver.cc:53-89 | every step of every thread keeps the invariant and fails no assert |
| `Lifecycles.RunKeepsInv` | net/tcpserver.cc:53-89 | the invariant over every interleaving of the server loop, any number of IO loops and user threads |
| `Lifecycles.LifeCycle` | net/tcpserver.cc:53-89 | no assert fails; established, closed, erased and destroyed in that order and at most once; one callback up and at most one down |
| `Lifecycles.Ownership` | net/tcpserver.cc:73-89 | a connection is held until destroyed, and one whose HandleEvent is on a stack is held, alive and on its own loop |
| `Lifecycles.CallsAreEnabled` | net/tcpserver.cc:53-89 | every call the hand-off makes on a connection, and every step of ShutDown on any thread, is one that the connection's own transition system enables, and the two agree on state, interest and closing afterwards |
| `Lifecycles.ConnectionRunsInServer` | net/tcpserver.cc:53-89 | over every run of server, loops, threads and calls on a connection from its acceptance on, the connection's part is a run of the stream model and the two always agree |
| `Lifecycles.QueueChange` | reactor/dispatcher.cc:117-165 | a step removes at most the front functor of a loop's queue and only appends at its back |
| `Lifecycles.StepMakesProgress` | net/tcpserver.cc:73-89 | no step takes a closing connection back, and each functor its loop runs brings it nearer |
| `Lifecycles.StageEnds` | net/tcpserver.cc:73-89 | a stage lasts at most as many functors of the holding loop as were ahead of it |
| `Lifecycles.ClosingIsDestroyed` | net/tcpserver.cc:73-89 | from HandleClose on: once the server loop and then the IO loop have each run more functors than were ahead of the connection's own, it has been destroyed |
| `Lifecycles.ClosingIsScheduled` | reactor/dispatcher.cc:94-165 | a closing connection's functor is queued on a loop that is awake, about to be woken or in its first round |
| `TcpServers.TcpServer.constructor` | net/tcpserver.cc:15-28 | no connections, and the invariant holds |
| `TcpServers.TcpServer.NewConnection` | net/tcpserver.cc:53-71 | equals the accept step; the invariant is kept |
| `TcpServers.TcpServer.RemoveConnection` | net/tcpserver.cc:73-76 | inline on the server loop, queued from any other |
| `TcpServers.TcpServer.RemoveConnectionInLoop` | net/tcpserver.cc:78-89 | the assert that one entry was erased holds; destruction is queued |
| `TcpServers.TcpServer.HandleClose` | net/tcpconnection.cc:235-243 | its state assert holds whenever read interest lets it run |
| `TcpServers.TcpServer.SetConnectionEstablished` | net/tcpconnection.cc:151-159 | its state assert holds; the callback sees a connected state |
| `TcpServers.TcpServer.SetConnectionDestroyed` | net/tcpconnection.cc:161-171 | its state assert holds; the callback sees a disconnected state |
| `TcpServers.TcpServer.RunFunctor` | reactor/dispatcher.cc:159-161 | running the next functor of a loop equals the step; the invariant is kept |
| `ThreadPools.PopKeepsInv` | thread/threadpool.cc:69-85 | a worker's section keeps cover of sleepers by woken threads |
| `ThreadPools.PushKeepsInv` | thread/threadpool.cc:55-67 | so does a producer's section |
| `ThreadPools.RunKeepsInv` | thread/threadpool.cc:44-97 | the counting invariant over every interleaving with spurious wake-ups |
| `ThreadPools.NoStrandedWaiter` | thread/threadpool.cc:55-85 | asserts hold; with a worker asleep the tasks are at most the woken workers, and with a producer asleep the free slots are at most the woken producers |
| `ThreadPools.TasksInPushOrder` | thread/threadpool.cc:55-85 | tasks leave in push order, each at most once |
| `ThreadPools.TasksRunInOrder` | thread/threadpool.cc:55-97 | the tasks that workers have in hand after their PopTasks are, in step order, those that PushTask was called with, followed by the queue; a pool without workers runs them in place |
| `ThreadPools.CarriedIsLastArrival` | thread/threadpool.cc:55-66 | the task a producer pushes is that of its last PushTask |
| `ThreadPools.PushReturns` | thread/threadpool.cc:59-66 | a producer's section pushes once and returns, or waits if and only if the queue is full |
| `ThreadPools.PopTakes` | thread/threadpool.cc:69-85 | a worker's section takes the oldest task if there is one, and sleeps if and only if there is none and the pool runs |
| `ThreadPools.ThreadMoves` | thread/threadpool.cc:55-97 | where each other step takes its own thread |
| `ThreadPools.TaskIsKept` | thread/threadpool.cc:88-97 | a worker keeps its task until it has finished it |
| `ThreadPools.RunsUntilStop` | thread/threadpool.cc:44-53 | the pool runs if and only if Stop has not been called, and no worker returns before |
| `ThreadPools.CapacityZeroAborts` | thread/threadpool.cc:79 | a run in which a pool of capacity zero fails its assert |
| `ThreadPools.StoppedStep` | thread/threadpool.cc:44-49 | after Stop nobody sleeps again and every worker step brings that worker nearer its return |
| `ThreadPools.StopTerminates` | thread/threadpool.cc:44-53 | from Stop on the workers take at most three steps each in every run |
| `ThreadPools.StoppedWorkerCanStep` | thread/threadpool.cc:88-97 | a worker that has not returned after Stop is never blocked |
| `ThreadPools.AtMostOneMorePop` | thread/threadpool.cc:69-97 | from Stop on each worker does at most one more PopTask |
| `ThreadPools.ThreadPool.PushTask` | thread/threadpool.cc:59-66 | equals the producer step; the assert holds |
| `ThreadPools.ThreadPool.PopTask` | thread/threadpool.cc:70-84 | equals the worker step; the assert holds |
| `ThreadPools.ThreadPool.Offer` | thread/threadpool.cc:55-58 | with no workers the caller runs the task itself |
| `ThreadPools.ThreadPool.Stop` | thread/threadpool.cc:45-49 | every sleeping worker is woken |
| `HttpRequests.TrimSplits` | http/httprequest.h:56-63 | trimming removes whitespace at the two ends and leaves none there |
| `HttpRequests.TrimIsUnique` | http/httprequest.h:56-63 | no other text does that |
| `HttpRequests.HeaderLineExactly` | http/httprequest.h:54-65 | a printed header is read back if and only if its key has no colon and its value no outer whitespace |
| `HttpRequests.HttpRequest.AddHeader` | http/httprequest.h:54-65 | the field before the colon maps to the trimmed text after it; other headers stay |
| `HttpRequests.HttpRequest.SetMethod` | http/httprequest.h:28-44 | exactly the names of the table are known, each with its code |
| `HttpRequests.MethodCodes` | http/httprequest.h:28-44 | the code of each name, literally; DELETE has that of GET |
| `HttpRequests.SpaceCodes` | http/httprequest.h:57-63 | the characters that count as whitespace, by code |
| `HttpContexts.LineEndIsFirstCrlf` | utility/buffer.h:95-98 | the recursive line end is the first CRLF |
| `HttpContexts.RequestLineMeaning` | http/httpcontext.cc:9-42 | what an accepted line sets: method, path and query that join to the target, version |
| `HttpContexts.LineLeaves` | http/httpcontext.cc:9-42 | what a line with two spaces leaves in the request, accepted or not, field by field, and when it is accepted |
| `HttpContexts.ShortLineLeaves` | http/httpcontext.cc:12-16 | what a line with fewer leaves, and that it is rejected |
| `HttpContexts.AcceptsExactly` | http/httpcontext.cc:9-42 | a line is accepted if and only if it is a known method, a target without spaces and eight characters ending in 0 or 1 |
| `HttpContexts.PrefixIsNotChecked` | http/httpcontext.cc:27 | a line that names no HTTP version is accepted as version 1.1 |
| `HttpContexts.EndsExactly` | http/httpcontext.cc:44-91 | the loop ends after some number of turns if and only if the unread bytes satisfy a stated condition |
| `HttpContexts.IncompleteHeaderNeverEnds` | http/httpcontext.cc:76-78 | a header line without its end keeps the loop turning for ever |
| `HttpContexts.DoneNeverEnds` | http/httpcontext.cc:81-85 | so does a call in either of the last two states |
| `HttpContexts.StoppedMeansEnds` | http/httpcontext.cc:44-91 | whenever the loop stops, the state it stops in is the one `Finish` gives |
| `HttpContexts.HeadersFramed` | http/httpcontext.cc:64-80 | lines with a colon are added in order, the first without one ends the block, the rest is untouched |
| `HttpContexts.MessageFramed` | http/httpcontext.cc:44-91 | the same from the request line on: the parser ends in Done with all later bytes unread |
| `HttpContexts.RequestRefused` | http/httpcontext.cc:49-58 | for a line that is no request line the parser returns false and consumes nothing |
| `HttpContexts.LineAwaited` | http/httpcontext.cc:59-61 | without a complete line it returns and changes nothing |
| `HttpContexts.HeadersDecompose` | http/httpcontext.cc:64-80 | conversely every header block the loop can leave has that form |
| `HttpContexts.HttpContext.ParseRequestLine` | http/httpcontext.cc:9-42 | accepts exactly those lines and leaves what was read, of a rejected one too |
| `HttpContexts.HttpContext.ParseRequest` | http/httpcontext.cc:44-91 | over the real buffer, whenever the loop ends it ends in that state |
| `HttpResponses.ContentLengthIntact` | http/httpresponse.cc:18 | the length line fits the 32-byte local buffer if and only if the body is below ten terabytes |
| `HttpResponses.StatusCodeIntact` | http/httpresponse.cc:10 | the status code fits for every int |
| `HttpResponses.StatusLineReads` | http/httpresponse.cc:9-13 | the status line, literally, with a number that reads as the code |
| `HttpResponses.AtMostExactly` | http/httpresponse.cc:23 | the order of keys is the dictionary order of their characters |
| `HttpResponses.InOrderAscends` | http/httpresponse.cc:23 | the headers printed are the map's entries, each once, in ascending order of keys |
| `HttpResponses.CleanExactly` | http/httpresponse.cc:23-28 | the headers that survive printing and parsing are exactly the clean ones |
| `HttpResponses.BlockParsed` | http/httpresponse.cc:15-31 | what parsing a printed block of clean headers gives, when the length line is cut short too |
| `HttpResponses.ParsedIsClean` | http/httprequest.h:54-65 | every header a parser reads is clean |
| `HttpResponses.BlockRoundTrip` | http/httpresponse.cc:15-31 | into any request, parsing a printed block gives the fixed fields overridden by the response's headers |
| `HttpResponses.BlockRoundTripExactly` | http/httpresponse.cc:15-31 | into a request without headers it does so if and only if all headers are clean and the length is not cut short, or both fixed fields are overridden |
| `HttpResponses.HeaderRoundTrip` | http/httpresponse.cc:7-32 | the same, in both directions, for what follows the first line of a printed response, leaving exactly the body |
| `HttpResponses.HeadersReadBack` | http/httpresponse.cc:15-31 | the headers a client reads, literally, with a length that reads as the size of the body |
| `HttpResponses.HttpResponse.AppendToBuffer` | http/httpresponse.cc:7-32 | the payload grows by status line, fixed headers, own headers in key order, a blank line and the body |

## Left out

- System calls: results of `write`, `readv` and `epoll_wait` are parameters or steps; epoll reports read and write readiness only for interest that is set, hang-up and errors always.
- The eventfd is one bit, positive or zero; the value that `Wakeup` adds and `EAGAIN` at saturation do not matter to it.
- Bytes are Dafny characters, and the order of `std::map` keys is the order of their codes.
- `Streams.GracefulBeforeClose`: only for callers on the loop thread; `Streams.GracefulExactly` covers the others. The pointer that a send from another thread binds is not tracked (`net/tcpconnection.cc:70`, `net/tcpconnection.cc:82`); its bytes are a value.
- `TcpConnections.TcpConnection.Send`: the overload that takes a `Buffer` and then empties it is not modelled. A call from another thread is one method call here; its interleavings are in `Streams`.
- `TcpConnections.TcpConnection.HandleRead`: `HandleError` only logs, so an error changes nothing. The user's callback is any sequence of sends and shutdowns; one that destroys or flushes is not modelled.
- `FlushOutputBuf`, `Flush_` and `get_output_buffer`, which discard unwritten bytes, and `Buffer::GetCharStr`.
- `Lifecycles.LifeCycle`: the server stops accepting when `conn_id_` would pass the largest int, since its overflow is undefined.
- `Lifecycles.LifeCycle`: establishment and its user callback are one step, so a ShutDown between the two is not a separate interleaving.
- `TcpServers.TcpServer.NewConnection`: the loop that the pool picks is a parameter; round robin is not modelled, nor are sockets, addresses and the acceptor.
- `Dispatchers.Dispatcher.ExecutePendingFuncs`: a functor is known by what is queued on this loop while it runs; one that quits the loop is a step of the transition system only. `Loop()` itself is the sequence of rounds there.
- `Dispatchers.QuitLostExactly`: the assert and the assignment of Quit are one step, so two threads whose Quits overlap count as one that aborts. `looping_` is not modelled: `Loop()` is called once.
- `Lifecycles.LifeCycle`: the asserts on `quit_` are those of `Dispatchers.AbortsExactly`; a loop that fails one stops, and the server's other threads may go on.
- `ThreadPools.RunKeepsInv`: capacity is positive (`CapacityZeroAborts` shows why), `Start` is called once, and `running_` and `worker_threads_` are read atomically. Producers still asleep at Stop are not woken by the source and stay where they are.
- `ThreadPools.StopTerminates`: bounds the workers' steps, given that tasks return; a task is a number.
- `AsyncLoggings.AsyncLogging.Append`: `bzero` on a new buffer is not modelled; nothing reads past the cursor.
- `AsyncLoggings.Accounting`: a message longer than a whole buffer is dropped by the source and counted as not offered. Messages still buffered at Stop are not promised to be written. `LogFile` and its flushing are the string `file`.
- `HttpContexts.HttpContext.ParseRequest`: requires exactly that the loop ends; `HttpContext::Reset` and the getters are not modelled.
- `HttpResponses.HeaderRoundTrip`: for status messages without CRLF; another one ends the first line early.
- `LogStreams.LogStream.FormatInteger`: floating-point output is not modelled.
- Timers, timestamps, `Singleton`, `InetAddr`, `Socket`, the HTTP server glue and the example programs.
