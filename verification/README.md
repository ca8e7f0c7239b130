# A verified model of libknx

libknx is a KNXnet/IP tunnelling client. This project models its three hard
parts in Dafny and proves what they keep.

**The tunnelling session** (`TunnelingSession.dfy`, `SessionInvariant.dfy`,
`SessionTheorems.dfy`, `SessionReturns.dfy`, `SessionRuns.dfy`,
`SessionEffects.dfy`, `SessionAnswers.dfy`, `SessionRetries.dfy`,
`SessionLiveness.dfy`, `TunnelingConnection.dfy`, `AsyncMessageState.dfy`,
`ClientRouting.dfy`). Many coroutines are suspended at
once in `sendRequest` and `sendCemi` and share the pending items, the sequence
number, the channel, the closing flag, two sockets and the timers. The model is a
machine of labelled steps, one step being the code between two suspension points.
A run is any sequence of steps that the environment may take: calls from
outside, datagrams in any order, and timers that expire, fail or are cancelled,
with a reply or a cancel between an expiry and its resumption. The theorems hold
in every state of every run. The class `ClientConnection` carries out the same
steps on mutable fields, with the loops and the mutual recursion of the source:
every public method is proved to be a step of the machine and to keep its whole
invariant, and `Promises` says what that gives a caller.

**The cEMI and tunnelling codec** (`Bytes.dfy`, `ByteBuffers.dfy`,
`KnxAddress.dfy`, `Control.dfy`, `Npdu.dfy`, `AdditionalInformation.dfy`,
`Cemi.dfy`, `TunnelRequest.dfy`, `Datagrams.dfy`): section 4.1.5.3 of KNX Standard
03_06_03 and
the tunnelling frames of KNX Standard 03_08_04. Every layer has a pure parser and
layout, cursor methods proved equal to them, a round trip with its exact
condition, an exact mask of the bits that a rewrite loses, and the weight of every
field in the bytes.

**The 16-bit KNX float** (`KnxFloat16.dfy`), section 3.10 of KNX Standard
03_07_02: exponent, rounding error, idempotence and monotonicity, the last two
with the exact set of exceptions.

Fields that belong to no C++ object but to the history of a run (`epoch`, `sends`,
`wire`, `notices`, `linkUp`, `closeFrame`, the stamps of a `Call` and the `View` of a
frame that is done) are only written: no other field depends on them. The label
`DoStart` asks for `linkUp`, as the assumption on its caller.

## What turned out not to hold

- *A write loses information that the constructors accept.* The APCI type above its
  three low bits, the TCPI control flag and its sequence above two bits, a hop count
  above 7 and addresses out of range do not survive; `CemiNormalForm` says exactly
  what does.
- *Parsing a written list of additional information does not always give it back*
  (the length byte wraps): `FullElementIsLost` is an input, `InfoRoundTrip` the exact
  condition.
- *Encoding a decoded float is not the identity on bytes, and on values fails for
  exactly two byte pairs*; *the decoded encoding is not monotone*:
  `BytesSurvive`, `DecodeIsIdempotent`, `DecodedFallsOnlyAcrossEdges`, with
  `LowestEdge` as an input.
- *A stored reply or a cancel does not prevent a time-out* when the last wait had
  already expired, although `AsyncMessageState.h` promises the state after `cancel`:
  `Outcome`, `LateReplyIsOverruled`. Nor does `matchResponse` set the state, as the
  comment there says; the code only compares.
- *A connect notice does not mean that the sockets are open.*
  `ConnectWithoutDataSocket` is a run: a read error between the connect request and
  its answer. `SocketsAtConnect` is the exact condition: no read error and no
  shut-down since the call of `start`. The shut-down is the case of a `start` that
  timed out and whose answer came while it awaited `close`; there the code reads the
  answer from an item that `reset` has destroyed, so that case holds of the code only
  as far as the item outlives `reset`. The status of a connect response is not
  looked at.
- *Pending tunnelling requests need not differ in channel and sequence, even when
  fewer than 256 sends separate them.* A group write can be sent while no connection
  stands, since the retry machine of a job opens its second request whatever happened
  to the connection (`WriteGoesOutDisconnected`); `AckFitsTwice` is a run in which it
  then shares the header of a later request. The exact condition on the caller is
  that `start` is called only when no tunnelling request is pending:
  `AckFindsItsRequest` is one half, `StartWithPendingCollides` the other, for every
  pending request.
- A comment in `TunnelingConnection.h` promises a disconnect on a wrong packet; the
  code prints and goes on, and so does the model.

## Model

| member | source | states |
|---|---|---|
| SessionInvariants.NextKeepsInv | src/knx/connection/TunnelingConnection.cpp:69-380 | Every step of the session (a call from outside, a resumed coroutine, a timer, a datagram) keeps the whole invariant: frames, pending items, closing, jobs, sequence stamps, datagram accounts, the map of requests, connect and disconnect notices, and what a closed frame saw |
| SessionInvariants.HistoryIsGood | src/knx/connection/TunnelingConnection.cpp:69-380 | The invariant holds in every state of every run |
| SessionInvariants.ReturnKeepsInv | src/knx/connection/TunnelingConnection.cpp:277-288 | Returning from `sendRequest`, through the callers that await `close`, terminates, keeps the invariant, and never changes a frame that is done |
| SessionInvariants.CloseKeepsInv | src/knx/connection/TunnelingConnection.cpp:344-358 | `close`, called by anyone the code lets call it, terminates with the depth of awaiting frames as measure and keeps the invariant |
| SessionInvariants.CloseWithoutDisconnectMeaning | src/knx/connection/TunnelingConnection.cpp:330-370 | The re-entrant `closeWithoutDisconnect` equals one shut-down of the session with exactly 1 + (open sockets) disconnect notices |
| SessionTheorems.CloseWithoutDisconnectEnds | src/knx/connection/TunnelingConnection.cpp:360-380 | After it both sockets are closed, nothing is pending, the sequence is 0, the address 0.0.0, every pending item is cancelled and no other is touched, and each listener is told 1 + (sockets open at entry) times |
| SessionTheorems.SequencesRepeat | src/knx/connection/TunnelingConnection.cpp:235-240 | In every run two tunnelling requests carry the same sequence number if and only if their positions since the last zeroing are congruent modulo 256 |
| SessionTheorems.AckGoesToOldest | src/knx/connection/TunnelingConnection.cpp:199-213 | In every run an acknowledge changes nothing, if no pending tunnelling request has its channel and sequence, or is stored in exactly one: the oldest; all others that it fits are a positive multiple of 256 sends younger or were sent after another zeroing |
| SessionTheorems.SomeAckFitsBoth | src/knx/ipreqresp/requests/TunnelingRequest.cpp:30-42 | In every run some acknowledge fits both of two pending tunnelling requests if and only if they share the channel and their positions are congruent modulo 256 |
| SessionTheorems.AckFindsItsRequest | src/knx/ipreqresp/requests/TunnelingRequest.cpp:30-42 | In every run whose starts find no tunnelling request pending, if no pending request was followed by 256 or more sends, at most one pending item fits an acknowledge and it is stored in that one and nowhere else |
| SessionRuns.StartWithPendingCollides | src/knx/connection/TunnelingConnection.cpp:84-103 | The other half: from every state that satisfies the invariant in which `start` may be called while some tunnelling request is pending, a connect response with the channel of that request and as many writes as its sequence plus one lead to a connected state in which one acknowledge fits two pending requests, within the window |
| SessionRuns.WriteGoesOutDisconnected | src/knx/connection/KnxClientConnection.cpp:123-134 | From every such connected state with nothing pending, a write that is acknowledged and then loses the connection sends its second request while disconnected, and `start` may then be called with that request pending |
| SessionRuns.AckFitsTwice | src/knx/connection/TunnelingConnection.cpp:199-213 | A run from the initial state, label by label, in which the acknowledge of channel 7 and sequence 0 fits two pending requests |
| SessionRuns.ConnectWithoutDataSocket | src/knx/connection/TunnelingConnection.cpp:94-106 | A run of five labels from the initial state after which every listener was told a connection and the data socket is closed |
| SessionReturns.SocketsAtConnect | src/knx/connection/TunnelingConnection.cpp:84-106 | In every run the step in which a `start` returns tells a connection if and only if a connect response was stored by then, and both sockets are then open if and only if there was no read error and no shut-down since that `start` was called |
| SessionReturns.SocketsSinceStart | src/knx/ip/UdpSocket.cpp:50-58 | In every run both sockets are open if and only if, since the last start, no read error and no shut-down came |
| SessionTheorems.ClosingDownExactly | src/knx/connection/TunnelingConnection.cpp:344-358 | In every run `closingDown` is true if and only if a disconnect frame is live; there is never more than one, pending or not |
| SessionTheorems.TimedOutDisconnect | src/knx/connection/TunnelingConnection.cpp:277-283 | A disconnect request that times out re-enters `close`, which returns at once; the outer `close` then shuts the session down and its own caller runs on from there |
| SessionReturns.TimeOutCloses | src/knx/connection/TunnelingConnection.cpp:278-283 | A request that times out while the connection is not closing sends one disconnect request on the control socket and awaits it |
| SessionReturns.TimedOutReturnsClean | src/knx/connection/TunnelingConnection.cpp:277-288 | In every run a `sendRequest` that timed out while no close was under way returns in a step that cancels every pending item but the disconnect request itself, and when it returns nothing is pending, the sequence is 0, the address is 0.0.0, both sockets are closed and the last notice was a disconnect |
| SessionReturns.AwaitingStepCancels | src/knx/connection/TunnelingConnection.cpp:372-380 | Whatever step ends the waiting of such a frame, every item pending before it, except the disconnect request itself, is cancelled after it |
| SessionTheorems.HistoryLater | src/knx/connection/TunnelingConnection.cpp:253-288 | No run forgets a frame or changes its request, and a frame that awaits `close` does so until it is done |
| SessionTheorems.ListenersHearOfEveryEnd | src/knx/connection/TunnelingConnection.cpp:101-110 | In every run each listener, whenever it was added, gets a disconnect notice between any two connect notices |
| SessionTheorems.DisconnectRequests | src/knx/connection/TunnelingConnection.cpp:160-172 | A disconnect request leaves the session unchanged if and only if it names another channel; for this channel it is answered, cancels everything pending, resets, tells every listener, and changes no other field |
| SessionTheorems.AtMostFourDatagrams | src/knx/connection/KnxClientConnection.cpp:123-134 | In every run one group read or write opens at most two tunnelling requests and puts at most four datagrams on the wire, and every request of any kind sends at most two |
| SessionTheorems.ResendsAreIdentical | src/knx/connection/TunnelingConnection.cpp:259-277 | In every run all datagrams of one request are identical, and exactly the tunnelling requests use the data socket |
| SessionTheorems.AttemptsDiffer | src/knx/connection/TunnelingConnection.cpp:235-240 | Two requests with no zeroing between them and fewer than 256 sends apart, such as the two attempts of a group write, have different sequence numbers |
| SessionTheorems.ConfirmationFindsItsJob | src/knx/connection/KnxClientConnection.cpp:57-68 | In every run the L_DATA_CON echo of a pending request, written and parsed as a datagram, is stored in the job of that request and no other job changes |
| SessionRetries.RetryMachineOfFrame | src/knx/connection/AsyncMessageState.cpp:56-73 | In every run the retry machine inside a `sendRequest` is that of one message sent with two attempts, in which transmissions, expiries, failures and resumptions are exactly the steps of the run that name this request, in their order, and every reply was received |
| SessionRetries.RetryMachineOfJob | src/knx/connection/KnxClientConnection.cpp:123-134 | In every run the same holds of a group request: its expiries, failures and resumptions are exactly the steps that name it, nobody cancels it, and every confirmation was received |
| SessionRetries.TimesOutExactly | src/knx/connection/TunnelingConnection.cpp:277-288 | In every run a resumed request times out if and only if its wait has expired twice, is sent a second time, unchanged and with nothing else happening, if and only if its wait has expired once, has not failed and nothing was answered or cancelled, and otherwise returns |
| SessionRetries.HandedOver | src/knx/connection/AsyncMessageState.cpp:60-64 | In every run a request whose datagram was handed over waits, with nothing else happening, unless it was answered or cancelled meanwhile: then it returns |
| SessionRetries.JobTimesOutExactly | src/knx/connection/KnxClientConnection.cpp:126-133 | In every run a resumed group request opens a second tunnelling request, with the channel and sequence number of that moment and its own frame, if and only if its wait has expired once, has not failed and was not confirmed; otherwise it ends and leaves the map, timed out if and only if its wait has expired twice |
| SessionRetries.JobOutcome | src/knx/connection/KnxClientConnection.cpp:123-134 | In every run a group request that has ended timed out if and only if two waits expired, failed if and only if a wait failed before that, and otherwise ended with a confirmation that was received |
| SessionRetries.UnansweredTimesOut | src/knx/connection/AsyncMessageState.cpp:56-73 | From every state that satisfies the invariant and is not closing, a request just opened whose two waits expire puts exactly two datagrams on the wire: itself again and a disconnect request for the current channel, which it then awaits |
| SessionAnswers.AnswersByKind | src/knx/connection/TunnelingConnection.cpp:199-213 | In every run a connect, connect state, disconnect or description response is stored in the oldest pending request of that kind, a tunnelling acknowledge in the oldest with its channel and sequence, whatever the status, and nothing else changes; a search response changes nothing |
| SessionAnswers.DisconnectAnswered | src/knx/ipreqresp/requests/DisconnectRequest.cpp:27-30 | In every run a disconnect response, for whatever channel and with whatever status, is stored in the one pending disconnect request and nothing else changes |
| SessionAnswers.ConfirmsOnlyItsJob | src/knx/connection/KnxClientConnection.cpp:57-68 | In every run an incoming frame confirms a group request if and only if its code is 2E, its source is the own address and an unfinished request has its type and group address; then exactly that one changes, otherwise none, and the rest of the session only acknowledges and tells it |
| SessionAnswers.AckStatus | src/knx/connection/TunnelingConnection.cpp:243-250 | A returning `send` with a stored acknowledge of nonzero status, when not closing, opens one disconnect request for the current channel, which its job awaits; in every other case nothing is sent and the transmission of the job is over |
| SessionAnswers.AckDecides | src/knx/connection/TunnelingConnection.cpp:235-251 | In every run the status of the acknowledge that a group request got decides which of the two happens in the step that resumes it |
| SessionAnswers.DisconnectEnds | src/knx/connection/TunnelingConnection.cpp:344-358 | A disconnect request that a job or nobody awaits returns, answered or not, with the session shut down, no longer closing, everything pending cancelled and told, nothing sent, and the job going on |
| SessionAnswers.OthersReturnQuietly | src/knx/connection/TunnelingConnection.cpp:284-287 | A keep-alive or description request that returns is erased, and nothing else happens |
| SessionAnswers.CallsFromOutside | src/knx/connection/TunnelingConnection.cpp:69-94 | Each call from outside opens exactly one frame, with the channel and sequence number of that moment, on the right socket, and changes only the listed fields; a second `close` changes nothing |
| SessionAnswers.OneDatagramAStep | src/knx/connection/TunnelingConnection.cpp:253-277 | In every run a step opens at most one request and puts at most one datagram on the wire: the answer to what arrived, the request of the frame it opened, or that of the frame it resumed |
| SessionAnswers.RequestsOfTheirMoment | src/knx/connection/TunnelingConnection.cpp:235-240 | In every run each request names the channel of the state in which it was made, each tunnelling request also its sequence number with status zero, and carries the frame of its job |
| SessionAnswers.ReadErrorsCloseOneSocket | src/knx/ip/UdpSocket.cpp:98-117 | A read error closes its own socket and changes nothing else |
| SessionEffects.LoopsStep | src/knx/connection/TunnelingConnection.cpp:253-288 | Every step takes each retry machine at most one event of its own further; the others are left alone, cancelled as items that were pending and are no longer, or answered, and new ones begin with two attempts |
| SessionReturns.StartReturns | src/knx/connection/TunnelingConnection.cpp:94-109 | `start` returns as connected if and only if a connect response was stored, whatever its status, and leaves the sockets alone; otherwise the session is reset and nothing is told |
| SessionLiveness.NothingIsStuck | src/knx/connection/TunnelingConnection.cpp:253-288 | In every run, if no timer, transmission or resumption is possible, then every `sendRequest`, `close` and group write has returned, no request is pending and the connection is not closing |
| SessionLiveness.InternalStepsWork | src/knx/connection/AsyncMessageState.cpp:52-73 | Every step of the event loop itself strictly lowers a measure of the work left, across retries, closes, cancellations and the opening of new frames |
| SessionLiveness.SessionComesToRest | src/knx/connection/TunnelingConnection.cpp:235-288 | In every run the number of steps between two events from outside is bounded by the work left at their start |
| Connections.ClientConnection.constructor | src/knx/connection/TunnelingConnection.cpp:39-61 | A new connection has no requests, no listeners and nothing pending, closed sockets, channel and sequence 0 and address 0.0.0, and keeps the whole invariant |
| Connections.ClientConnection.Promises | src/knx/connection/TunnelingConnection.cpp:199-380 | What a caller may rely on at any time: closing exactly while one disconnect frame is live, at most one disconnect request pending, an end told between any two connections to every listener, at most four datagrams a group request, and every unfinished group request under its key |
| Connections.ClientConnection.AddListener | src/knx/connection/TunnelingConnection.cpp:65-67 | The session is unchanged and keeps its invariant; the new listener has heard nothing yet |
| Connections.ClientConnection.ForEveryListener | src/knx/connection/TunnelingConnection.cpp:306-311 | Every listener's inbox grows by exactly this notice, and so does the history |
| Connections.ClientConnection.SendRequest | src/knx/connection/TunnelingConnection.cpp:253-277 | A frame is opened as the session specifies: one new item at the end of the pending ones, its first datagram sent |
| Connections.ClientConnection.Send | src/knx/connection/TunnelingConnection.cpp:235-240 | One tunnelling request with the old sequence number and channel is opened for the job, and the sequence is the next one modulo 256 |
| Connections.ClientConnection.CancelItems | src/knx/connection/TunnelingConnection.cpp:374-376 | The loop cancels every pending item, once or more, and no other |
| Connections.ClientConnection.Reset | src/knx/connection/TunnelingConnection.cpp:372-380 | The session after `reset` |
| Connections.ClientConnection.CloseWithoutDisconnect | src/knx/connection/TunnelingConnection.cpp:360-370 | Both sockets closed, nothing pending, sequence 0, no address, and one more notice than there were open sockets; terminates by the number of open sockets |
| Connections.ClientConnection.StopControl | src/knx/ip/UdpSocket.cpp:119-130 | Stopping an open socket closes it and re-enters `closeWithoutDisconnect`; a closed one is left alone |
| Connections.ClientConnection.StopData | src/knx/ip/UdpSocket.cpp:119-130 | The same for the data socket |
| Connections.ClientConnection.CloseFor | src/knx/connection/TunnelingConnection.cpp:344-358 | The session after `close` up to its suspension or, when already closing, after its caller ran on |
| Connections.ClientConnection.Close | src/knx/connection/TunnelingConnection.cpp:344-358 | A call of `close` from outside is a step of the session, keeps the invariant, and leaves the connection closing |
| Connections.ClientConnection.Closed | src/knx/connection/TunnelingConnection.cpp:355-357 | The session after `close` returned to whoever awaits it |
| Connections.ClientConnection.ReturnFrame | src/knx/connection/TunnelingConnection.cpp:284-288 | The session after `sendRequest` returned and its caller ran to its next suspension; a `send` whose stored acknowledge has a nonzero status opens one disconnect request, unless closing, and any other leaves its job to go on |
| Connections.ClientConnection.EraseItem | src/knx/connection/TunnelingConnection.cpp:285-286 | Exactly the item of this frame is gone, and the frame is done |
| Connections.ClientConnection.Started | src/knx/connection/TunnelingConnection.cpp:94-109 | The session after the end of `start` |
| Connections.ClientConnection.SendReturned | src/knx/connection/KnxClientConnection.cpp:126-133 | The job's retry machine goes on after its transmission, and the job ends and leaves the map if it has returned |
| Connections.ClientConnection.FrameSendDone | src/knx/connection/AsyncMessageState.cpp:60-63 | A step of the session that keeps the invariant: a datagram was handed to the socket |
| Connections.ClientConnection.FrameTimer | src/knx/connection/AsyncMessageState.cpp:64-65 | A wait that ended is queued, nothing else changes |
| Connections.ClientConnection.FrameExpire | src/knx/connection/AsyncMessageState.cpp:64-65 | A step of the session that keeps the invariant: the wait is queued as expired, and no other retry machine changes |
| Connections.ClientConnection.FrameFail | src/knx/connection/AsyncMessageState.cpp:64-65 | The same: the wait is queued as failed |
| Connections.ClientConnection.FrameResume | src/knx/connection/TunnelingConnection.cpp:277-288 | A step of the session that keeps the invariant: a resend, a return, or a time-out, which leaves the frame awaiting a close |
| Connections.ClientConnection.JobTimer | src/knx/connection/AsyncMessageState.cpp:64-65 | The same for the retry machine of a job |
| Connections.ClientConnection.JobExpire | src/knx/connection/AsyncMessageState.cpp:64-65 | A step of the session that keeps the invariant: the wait of the job is queued as expired |
| Connections.ClientConnection.JobFail | src/knx/connection/AsyncMessageState.cpp:64-65 | The same: the wait is queued as failed |
| Connections.ClientConnection.JobResume | src/knx/connection/AsyncMessageState.cpp:60-71 | A step of the session that keeps the invariant: a second request or the end of the job |
| Connections.ClientConnection.FindMatch | src/knx/connection/TunnelingConnection.cpp:201-209 | The loop finds the first pending item that matches, if any |
| Connections.ClientConnection.OnReceiveResponse | src/knx/connection/TunnelingConnection.cpp:199-213 | A step that keeps the invariant: the response is stored in the oldest pending request of its own kind, an acknowledge in the one with its channel and sequence, and nothing else changes |
| Connections.ClientConnection.OnReceiveTunnelRequest | src/knx/connection/TunnelingConnection.cpp:145-158 | A step that keeps the invariant: the header is acknowledged, every listener gets the frame, and exactly the unfinished request with its type and group changes, and only for code 2E and the own address |
| Connections.ClientConnection.CheckForConfirm | src/knx/connection/KnxClientConnection.cpp:57-68 | The jobs change only for code 2E, the own address and a pending key; then the frame is stored in the job under that key |
| Connections.ClientConnection.OnReceiveDisconnectRequest | src/knx/connection/TunnelingConnection.cpp:160-172 | A step that keeps the invariant: unchanged if and only if it is for another channel, else nothing pending and every listener told |
| Connections.ClientConnection.OnReadError | src/knx/ip/UdpSocket.cpp:98-117 | A step that keeps the invariant: the socket is marked closed and nobody is told |
| Connections.ClientConnection.Start | src/knx/connection/TunnelingConnection.cpp:69-94 | A step that keeps the invariant: both sockets open, sequence 0, a connect request under way, whatever is pending |
| Connections.ClientConnection.PrintDescription | src/knx/connection/TunnelingConnection.cpp:313-315 | A step that keeps the invariant: one description request goes out on the control socket, and nothing else changes |
| Connections.ClientConnection.CheckConnection | src/knx/connection/TunnelingConnection.cpp:124-126 | A step that keeps the invariant: one connect state request for the current channel goes out on the control socket, and nothing else changes |
| Connections.ClientConnection.SendCemi | src/knx/connection/KnxClientConnection.cpp:123-132 | A step that keeps the invariant: the job is registered under its key, one more item is pending, and the sequence is the next |
| Connections.ClientConnection.WriteToGroup | src/knx/connection/KnxClientConnection.cpp:113-121 | The same for a write of a byte run |
| Connections.ClientConnection.WriteByteToGroup | src/knx/connection/KnxClientConnection.cpp:107-111 | The same for a write of one byte, compact or not |
| Connections.ClientConnection.SendReadGroup | src/knx/connection/KnxClientConnection.cpp:148-160 | The same for a read |
| AsyncMessageStates.RunAccounted | src/knx/connection/AsyncMessageState.cpp:52-73 | In every interleaving, calls made and attempts left add up to `k` (2^32 for 0), expiries and failures are accounted for, and the state is the last write until the coroutine returns |
| AsyncMessageStates.CallsBounded | src/knx/connection/AsyncMessageState.cpp:56-73 | `send(k)` calls `sendMethod` at least once and at most `k` times |
| AsyncMessageStates.Outcome | src/knx/connection/AsyncMessageState.cpp:65-71 | `send(k)` returns with a time-out if and only if its k-th wait expired, with an error if and only if a wait failed before that, and otherwise with the last reply or cancel; the response is that of the last reply |
| AsyncMessageStates.SendingIsLeftOnce | src/knx/connection/AsyncMessageState.cpp:57-63 | Once `sending` is left it is never entered again and `sendMethod` is not called any more |
| AsyncMessageStates.SendTerminates | src/knx/connection/AsyncMessageState.cpp:56-73 | Every run has at most three steps of the coroutine per permitted call, and until it returns one is possible |
| AsyncMessageStates.LateReplyIsOverruled | src/knx/connection/AsyncMessageState.cpp:65-68 | A reply between the last expiry and the resumption is stored and the message still times out |
| AsyncMessageStates.AsyncMessageState.constructor | src/knx/connection/AsyncMessageState.cpp:16-20 | A new message is in the initial state |
| AsyncMessageStates.AsyncMessageState.SetResponse | src/knx/connection/AsyncMessageState.cpp:29-34 | The state, the response and, if a wait was pending, its abortion |
| AsyncMessageStates.AsyncMessageState.Cancel | src/knx/connection/AsyncMessageState.cpp:48-52 | The state and, if a wait was pending, its abortion; the response is kept |
| AsyncMessageStates.AsyncMessageState.CancelTimer | src/knx/connection/AsyncMessageState.cpp:32-32 | Only a pending wait is aborted, a queued completion stays |
| AsyncMessageStates.AsyncMessageState.Send | src/knx/connection/AsyncMessageState.cpp:56-73 | The retry loop, in any world of replies, cancels, expiries and failures, ends in the state of that run and makes its number of calls |
| ClientRouting.ToMapKey | src/knx/connection/KnxClientConnection.cpp:16-28 | The key built step by step is the packed key |
| ClientRouting.KeysAgree | src/knx/connection/KnxClientConnection.cpp:16-28 | Two keys are equal if and only if type and all three address bytes are |
| ClientRouting.KeyOctets | src/knx/connection/KnxClientConnection.cpp:16-28 | The key holds the type, the main, the middle and the sub group in its four bytes, lowest first |
| ClientRouting.EchoKey | src/knx/connection/KnxClientConnection.cpp:57-68 | The written and parsed echo of a request has its key if and only if the type is below 8 and the group address in range |
| ClientRouting.EchoFindsItsRequest | src/knx/connection/KnxClientConnection.cpp:57-68 | The echo of one request has the key of another if and only if both go to the same group with the same type |
| ClientRouting.GroupFrames | src/knx/connection/KnxClientConnection.cpp:107-160 | The frames of reads, of byte writes and of writes of at most 254 bytes survive the wire, a longer write does not, and a read never shares a key with a write |
| CemiFrames.CemiRoundTrip | src/knx/cemi/Cemi.cpp:34-57 | Parsing a written frame gives its normal form and leaves exactly the trailing bytes, if and only if the frame is writable: sized and self-delimiting additional information, a destination that agrees with the control byte, at most 254 data bytes |
| CemiFrames.CemiNormalForm | src/knx/cemi/Cemi.cpp:46-57 | The normal form has the same bytes, is its own normal form, equals the frame if and only if nothing is lost, and is writable again |
| CemiFrames.InRangeNormal | src/knx/cemi/ACPI.cpp:13-44 | For a frame with all fields in range the normal form changes only the payload: empty becomes [0] compact, and only a truly compact payload keeps its flag |
| CemiFrames.WriteAfterParse | src/knx/cemi/Cemi.cpp:34-57 | Writing what was parsed gives the consumed bytes with a fixed mask cleared, so exactly these bytes if and only if the masked bits were zero |
| CemiFrames.Read | src/knx/cemi/Cemi.cpp:34-44 | The cursor method returns the parsed frame and stands after it, or the length error |
| CemiFrames.Write | src/knx/cemi/Cemi.cpp:46-57 | The frame's bytes are appended |
| AdditionalInformation.ParseElementsMeaning | src/knx/cemi/AdditionalInformation.cpp:3-18 | The loop returns given elements and rest if and only if the bytes are these elements and then the rest, and the list is the first whose size is congruent to the declared length modulo 256 |
| AdditionalInformation.ParsedInfo | src/knx/cemi/AdditionalInformation.cpp:3-18 | A finished parse consumed 1 + s bytes with s congruent to the declared length modulo 256, equal if and only if no element overruns, and writing gives the consumed bytes |
| AdditionalInformation.ParseOfWrittenInfo | src/knx/cemi/AdditionalInformation.cpp:30-39 | What the parser makes of any written list: the shortest prefix whose size is congruent to the total, the other elements being left unread |
| AdditionalInformation.InfoRoundTrip | src/knx/cemi/AdditionalInformation.cpp:3-39 | Parsing a written list gives it back if and only if no proper prefix has a size congruent to the total modulo 256 |
| AdditionalInformation.FullElementIsLost | src/knx/cemi/AdditionalInformation.cpp:20-39 | An element with 254 data bytes, written, does not parse back |
| AdditionalInformation.ShortInfoIsSelfDelimiting | src/knx/cemi/AdditionalInformation.cpp:30-39 | Every list of at most 255 bytes is such a list |
| AdditionalInformation.Parse | src/knx/cemi/AdditionalInformation.cpp:3-18 | The loop terminates and returns what the bytes say |
| AdditionalInformation.ParseElement | src/knx/cemi/AdditionalInformation.cpp:7-14 | One element is read off the cursor |
| AdditionalInformation.TotalLength | src/knx/cemi/AdditionalInformation.cpp:31-34 | The loop sums the sizes modulo 256 |
| AdditionalInformation.WriteElement | src/knx/cemi/AdditionalInformation.cpp:24-28 | One element is appended |
| AdditionalInformation.Write | src/knx/cemi/AdditionalInformation.cpp:30-39 | Total length and elements are appended |
| Npdu.NpduRoundTrip | src/knx/cemi/NPDUFrame.cpp:7-16 | Parsing a written NPDU of at most 254 data bytes gives its normal form and leaves the rest |
| Npdu.NpduNormalForm | src/knx/cemi/ACPI.cpp:30-44 | The normal form has the same bytes and equals the NPDU if and only if nothing is lost |
| Npdu.NpduMasked | src/knx/cemi/ACPI.cpp:13-44 | Writing a parsed NPDU clears bits 6, 3, 2 and 1 of the first byte and, unless compact, the low six of the second, and changes nothing else |
| Npdu.NpduAccepts | src/knx/cemi/ACPI.cpp:13-28 | The parser accepts exactly the NPDUs that are as long as they say, and gives the length error exactly for a length of zero |
| Npdu.TcpiToByte | src/knx/cemi/TCPI.cpp:18-28 | The control flag is lost, the sequence flag and two sequence bits are kept |
| Npdu.ReadApci | src/knx/cemi/ACPI.cpp:13-28 | The cursor method agrees with the parser, including the length error of a zero length |
| Npdu.WriteApci | src/knx/cemi/ACPI.cpp:30-44 | Length, both control bytes and the payload are appended, compact or not |
| Npdu.ReadNpdu | src/knx/cemi/NPDUFrame.cpp:7-11 | The cursor method agrees with the parser |
| Npdu.WriteNpdu | src/knx/cemi/NPDUFrame.cpp:13-16 | The NPDU's bytes are appended |
| Controls.ControlRoundTrip | src/knx/cemi/Control.cpp:23-56 | Parsing written control bytes gives the normal form: an oversized hop count runs into the group flag |
| Controls.ControlMask | src/knx/cemi/Control.cpp:23-56 | Writing parsed control bytes clears bit 6 of the first and the low nibble of the second, and nothing else |
| Controls.ReadControl | src/knx/cemi/Control.cpp:23-36 | Field by field, the parsed control |
| Controls.WriteControl | src/knx/cemi/Control.cpp:38-56 | Bit by bit, the control bytes |
| KnxAddresses.AddressRoundTrip | src/knx/headers/KnxAddress.cpp:15-77 | Parsing a written address gives its normal form and leaves the rest |
| KnxAddresses.NormalAddresses | src/knx/headers/KnxAddress.cpp:15-77 | An address is its normal form if and only if it is in range; normal forms are in range and have the same bytes |
| KnxAddresses.AddressBytesBack | src/knx/headers/KnxAddress.cpp:15-77 | Writing a parsed address gives the two bytes back |
| KnxAddresses.LessIsNumericOrder | src/knx/headers/KnxAddress.cpp:32-60 | For addresses in range `operator<` is the numeric order of the two written bytes |
| KnxAddresses.LessIsStrictTotalOrder | src/knx/headers/KnxAddress.cpp:32-60 | `operator<` is a strict total order on all addresses, and `operator>` is its converse |
| KnxAddresses.ReadIndividual | src/knx/headers/KnxAddress.cpp:15-20 | The cursor method agrees with the parser |
| KnxAddresses.ReadGroup | src/knx/headers/KnxAddress.cpp:67-72 | The cursor method agrees with the parser |
| KnxAddresses.WriteIndividual | src/knx/headers/KnxAddress.cpp:22-25 | Two bytes are appended |
| KnxAddresses.WriteGroup | src/knx/headers/KnxAddress.cpp:74-77 | Two bytes are appended |
| TunnelFrames.StructureRoundTrip | src/knx/headers/KnxStructure.cpp:6-27 | A structure header of any length, escaped or not, reads back with its length less two modulo 65536 and its type |
| TunnelFrames.ConnectionHeaderRoundTrip | src/knx/headers/ConnectionHeader.cpp:9-18 | Channel, sequence and status read back |
| TunnelFrames.IpHeaderRoundTrip | src/knx/ipreqresp/KnxIpHeader.cpp:10-22 | Service type and length read back |
| TunnelFrames.LengthField | src/knx/ipreqresp/requests/TunnelingRequest.cpp:9-20 | The header of a written request carries the number of bytes written, as long as it fits 16 bits |
| TunnelFrames.TunnelRequestRoundTrip | src/knx/ipreqresp/requests/TunnelingRequest.cpp:9-24 | Header parser and request parser give back service type, channel, sequence, status and the normal form of the frame, if and only if the frame is writable |
| Datagrams.RequestDatagram | src/knx/ipreqresp/requests/TunnelingRequest.cpp:9-20 | Every written tunnelling request starts 06 10 04 20, then its own length modulo 65536 high byte first, then 04, channel, sequence and status, and ends with its cEMI frame |
| Datagrams.AckDatagram | src/knx/ipreqresp/responses/TunnelAckResponse.cpp:19-26 | Every acknowledge is exactly 06 10 04 21 00 0A 04 channel sequence status |
| Datagrams.GroupFrameBytes | src/knx/connection/KnxClientConnection.cpp:107-160 | The cEMI frames of a group read and of group writes, byte by byte, for every group address in range and every value |
| Datagrams.ControlLayout | src/knx/cemi/Control.cpp:38-56 | The weight of every field of the two control bytes |
| Datagrams.AddressLayout | src/knx/headers/KnxAddress.cpp:15-77 | Addresses in range as numbers: 16 times the area plus the line, 8 times the main group plus the middle group, then the last part |
| Datagrams.NpduLayout | src/knx/cemi/ACPI.cpp:30-44 | The weight of every field of an NPDU, its length byte, and where the payload goes |
| Datagrams.InfoLayout | src/knx/cemi/AdditionalInformation.cpp:20-39 | One element of additional information: total, type, length, data |
| TunnelFrames.TunnelAckRoundTrip | src/knx/ipreqresp/responses/TunnelAckResponse.cpp:11-26 | A written acknowledge reads back as the header it echoes |
| TunnelFrames.WriteStructure | src/knx/headers/KnxStructure.cpp:19-27 | The length, escaped from 255 on, and the type are appended |
| TunnelFrames.ReadStructure | src/knx/headers/KnxStructure.cpp:6-13 | The cursor method agrees with the parser |
| TunnelFrames.WriteConnectionHeader | src/knx/headers/ConnectionHeader.cpp:14-18 | Four bytes are appended |
| TunnelFrames.ReadConnectionHeader | src/knx/headers/ConnectionHeader.cpp:9-12 | The cursor method agrees with the parser |
| TunnelFrames.WriteIpHeader | src/knx/ipreqresp/KnxIpHeader.cpp:10-15 | 06, 10, the service type and the length, high byte first, are appended |
| TunnelFrames.WriteTunnelAck | src/knx/ipreqresp/responses/TunnelAckResponse.cpp:19-26 | The acknowledge is appended: common header, then connection header |
| TunnelFrames.ReadIpHeader | src/knx/ipreqresp/KnxIpHeader.cpp:17-22 | The cursor method agrees with the parser |
| TunnelFrames.WriteTunnelRequest | src/knx/ipreqresp/requests/TunnelingRequest.cpp:9-20 | The request's bytes are appended, its length computed from a second buffer |
| TunnelFrames.ReadTunnelRequest | src/knx/ipreqresp/requests/TunnelingRequest.cpp:22-24 | The cursor method agrees with the parser, including its error |
| ByteBuffers.ReadBack | src/knx/bytes/ByteBufferReader.cpp:11-88 | Writing any list of typed values and reading with the same list of types gives the list and leaves exactly what follows |
| ByteBuffers.ReadBackOne | src/knx/bytes/ByteBufferReader.cpp:11-88 | The same for one value, with the cursor right after it |
| ByteBuffers.LayoutOfNumbers | src/knx/bytes/ByteBufferWriter.cpp:47-61 | The two bytes of a 16-bit number, high byte first, weigh that number; a negative one is written as itself plus 65536; any byte but zero is a true flag |
| ByteBuffers.LayoutOfWord | src/knx/bytes/ByteBufferWriter.cpp:7-15 | The four bytes of a 32-bit word are its high and then its low half |
| ByteBuffers.ByteBufferReader.ReadUint8 | src/knx/bytes/ByteBufferReader.cpp:64-64 | The value under the cursor, big-endian, and the cursor moved by its size |
| ByteBuffers.ByteBufferReader.ReadBoolFromByte | src/knx/bytes/ByteBufferReader.cpp:62-62 | The value under the cursor, big-endian, and the cursor moved by its size |
| ByteBuffers.ByteBufferReader.ReadUint16 | src/knx/bytes/ByteBufferReader.cpp:78-88 | The value under the cursor, big-endian, and the cursor moved by its size |
| ByteBuffers.ByteBufferReader.ReadInt16 | src/knx/bytes/ByteBufferReader.cpp:66-76 | The value under the cursor, big-endian, and the cursor moved by its size |
| ByteBuffers.ByteBufferReader.ReadUint32 | src/knx/bytes/ByteBufferReader.cpp:11-20 | The value under the cursor, big-endian, and the cursor moved by its size |
| ByteBuffers.ByteBufferReader.ReadByteSpan | src/knx/bytes/ByteBufferReader.cpp:50-54 | The value under the cursor, big-endian, and the cursor moved by its size |
| ByteBuffers.ByteBufferReader.Skip | src/knx/bytes/ByteBufferReader.cpp:26-26 | The value under the cursor, big-endian, and the cursor moved by its size |
| ByteBuffers.ByteBufferWriter.WriteUint8 | src/knx/bytes/ByteBufferWriter.cpp:45-45 | The value's bytes, big-endian, appended to what was there |
| ByteBuffers.ByteBufferWriter.WriteBoolAsByte | src/knx/bytes/ByteBufferWriter.cpp:43-43 | The value's bytes, big-endian, appended to what was there |
| ByteBuffers.ByteBufferWriter.WriteUint16 | src/knx/bytes/ByteBufferWriter.cpp:47-53 | The value's bytes, big-endian, appended to what was there |
| ByteBuffers.ByteBufferWriter.WriteInt16 | src/knx/bytes/ByteBufferWriter.cpp:55-61 | The value's bytes, big-endian, appended to what was there |
| ByteBuffers.ByteBufferWriter.WriteUint32 | src/knx/bytes/ByteBufferWriter.cpp:7-15 | The value's bytes, big-endian, appended to what was there |
| ByteBuffers.ByteBufferWriter.WriteVector | src/knx/bytes/ByteBufferWriter.cpp:40-42 | The value's bytes, big-endian, appended to what was there |
| KnxFloat16.PackUnpack | src/knx/datapointtypes/Format.h:107-128 | Unpacking a packed exponent and mantissa gives both back |
| KnxFloat16.PackLayout | src/knx/datapointtypes/Format.h:107-114 | The two bytes as a number: 8000 hexadecimal for a negative mantissa, 800 hexadecimal times the exponent, and the mantissa modulo 800 hexadecimal |
| KnxFloat16.OutOfRangeIsZero | src/knx/datapointtypes/Format.h:89-98 | At and beyond -671088.64 and 670760.96 the bytes are zero |
| KnxFloat16.UnpackPack | src/knx/datapointtypes/Format.h:107-128 | Packing what was unpacked gives back any byte pair |
| KnxFloat16.ExponentIsLeast | src/knx/datapointtypes/Format.h:103-106 | For every number in range the loop stops, with the least exponent that brings the cents into -2048..2047, and it is at most 15 |
| KnxFloat16.DecodedError | src/knx/datapointtypes/Format.h:87-128 | The decoded encoding lies between zero and the number, and is off by less than 0.01 under exponent 0 and by less than 2/2047 of the number otherwise |
| KnxFloat16.DecodeIsIdempotent | src/knx/datapointtypes/Format.h:87-128 | Encoding and decoding a decoded value gives it again, for every byte pair except exactly F8 00 and 7F FF, which encode to zero |
| KnxFloat16.BytesSurvive | src/knx/datapointtypes/Format.h:87-128 | The byte pair itself comes back if and only if it is not one of these two and its exponent is the least for its mantissa |
| KnxFloat16.DecodedFallsOnlyAcrossEdges | src/knx/datapointtypes/Format.h:87-128 | For numbers in order the decoded encodings are in order, except if and only if the smaller is exactly 20.47 * 2^k and the larger lies less than a step above it; then they fall by exactly 0.01 * 2^k, half a step of the larger |
| KnxFloat16.LowestEdge | src/knx/datapointtypes/Format.h:87-128 | 20.475 decodes to one cent less than 20.47 |
| KnxFloat16.KeptNegative | src/knx/datapointtypes/Format.h:87-128 | Below zero the decoded encoding never falls |
| KnxFloat16.ToData | src/knx/datapointtypes/Format.h:87-114 | The loop and the packing of bytes compute the encoding, zero bytes out of range |
| KnxFloat16.ToValue | src/knx/datapointtypes/Format.h:116-131 | The patched bytes decode to the value, zero for any other length |
| Bytes.CastCongruent | src/knx/cemi/AdditionalInformation.cpp:15-15 | Casts to `uint8_t` agree if and only if the numbers are congruent modulo 256 |

## Left out

Assumptions of the runs:

- `start` is called only when no connection stands and no earlier `start` runs.
- A connect response carries an address that was parsed, so that its first two parts
  are nibbles.
- No second request with the key of a pending one is sent, and group requests go to
  group addresses.
- A frame with an individual destination, where the client takes a group by
  `std::get`, throws in the code and is not received in the model (`Throws`).
- Listeners do not call back into the session and are not removed; socket writes do
  not throw, nor does sending on a closed socket.
- Reading past the end of a buffer is undefined behaviour in the code: the parsers
  answer `OutOfBounds` and the cursor methods require enough bytes.
- The host is little-endian; `writeUint32` and `readUint32` disagree with the other
  reads on a big-endian one.

What the model does not have:

- Wall-clock time: timers end in any order. The keep-alive loop is only a source of
  connect state requests; the `close` it spawns on a bad status is the label `DoClose`.
- Floating-point rounding: `double` is `real`.
- Object lifetime: a pending item lives until its frame returns, although `reset`
  destroys it under the suspended coroutine (what a frame that timed out reads after
  `close`, and what a cancelled one returns, hold of the code only so far). The
  destructor and `KnxClientConnection::close`, which destroys the connection, are not
  modelled.
- Aliasing of retry machines: `ClientConnection` holds the machines as values in
  sequences; the class `AsyncMessageState` models one of them as an object.
- Sockets beyond their open flag and closed callback: end points, buffers, multicast.
- The bytes of the fixed-size requests and responses other than tunnelling ones: in
  the session they are alternatives with channel, status and address.
- The dispatch on the service type, HPAI and the other headers, `Discovery`, the
  device and service family records (whose writers do not match their parsers).
- `checkForUpdateListener` and the weak listeners of `KnxClientConnection`: they only
  pass an incoming frame on.
- Exactly-once delivery of incoming tunnelling requests: the code acknowledges and
  delivers every copy.
- The other datapoint formats, strings, `bytesLeft`, printing, and `ControlACPI`.
- ByteBuffers.ByteBufferReader.ReadUint8: reads stay within the buffer, because the code does not check bounds.
- TunnelFrames.LengthField: a frame of 65530 bytes or more, whose length wraps in its field, is stated only modulo 65536.

To verify the project: `dafny verify dfyconfig.toml`.
