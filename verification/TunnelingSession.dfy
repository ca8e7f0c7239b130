/** The tunnelling session as a machine of labelled steps.  A step is the code
    between two suspension points; the event loop is single-threaded.  Every
    suspended `sendRequest` is a numbered frame, every suspended `sendCemi` of
    the client connection a numbered job. */
module TunnelingSession {
  import opened Bytes
  import opened Wrappers
  import opened KnxAddresses
  import opened CemiFrames
  import opened TunnelFrames
  import opened AsyncMessageStates
  import opened ClientRouting

  datatype Request =
    | Connect
    | ConnectState(channel: byte)
    | Tunnel(tunnel: TunnelRequest)
    | Disconnect(channel: byte)
    | Description

  datatype Response =
    | ConnectResponse(channel: byte, status: byte, address: KnxAddress)
    | ConnectStateResponse(channel: byte, status: byte)
    | TunnelAck(header: ConnectionHeader)
    | DisconnectResponse(channel: byte, status: byte)
    | DescriptionResponse
    | SearchResponse

  /** `matchesResponse`: only tunnelling requests look beyond the kind. */
  predicate Matches(q: Request, r: Response) {
    match q
    case Connect => r.ConnectResponse?
    case ConnectState(_) => r.ConnectStateResponse?
    case Tunnel(t) => r.TunnelAck? && r.header.channel == t.header.channel && r.header.sequence == t.header.sequence
    case Disconnect(_) => r.DisconnectResponse?
    case Description => r.DescriptionResponse?
  }

  /** Who awaits `close`: nobody, a job whose request was acknowledged with an
      error, or a frame that timed out. */
  datatype Closer = Detached | AckFailed(job: nat) | TimedOut(frame: nat)

  /** Who awaits `sendRequest`. */
  datatype Caller = ByStart | ByKeepAlive | ByDescription | BySend(job: nat) | ByClose(closer: Closer)

  /** The fixed part of a frame.  The stamp, the number of times the sequence was
      set to zero before and of sends since, belongs to the history. */
  datatype Call = Call(request: Request, caller: Caller, epoch: nat, ordinal: nat)

  /** What a returning `sendRequest` leaves behind. */
  datatype View = View(
    pending: seq<nat>, sequence: byte, knxAddress: KnxAddress, controlOpen: bool, dataOpen: bool, told: nat)

  /** A frame sends and waits, or awaits `close` after a time-out, or is done. */
  datatype Phase = Running | ClosingDown | Done(closed: bool, view: View)

  datatype Socket = ControlSocket | DataSocket

  datatype Datagram =
    | Sent(socket: Socket, request: Request, frame: nat)
    | Acknowledged(header: ConnectionHeader)
    | Disconnected(channel: byte)

  /** What every listener is told. */
  datatype Notice = OnConnect | OnDisconnect | OnIncomingCemi(cemi: Cemi)

  datatype State = State(
    // the frames: fixed part, progress, retry machine
    calls: seq<Call>,
    phases: seq<Phase>,
    loops: seq<Loop<Response>>,
    // the fields of the connection
    sendItems: seq<nat>,
    sequence: byte,
    channelId: byte,
    closingDown: bool,
    knxAddress: KnxAddress,
    controlOpen: bool,
    dataOpen: bool,
    // the jobs of the client: frame to send, retry machine, awaited frame
    cemis: seq<Cemi>,
    jobs: seq<Loop<Cemi>>,
    awaits: seq<Option<nat>>,
    requests: map<Key, nat>,
    // history
    closeFrame: Option<nat>,
    epoch: nat,
    sends: nat,
    wire: seq<Datagram>,
    notices: seq<Notice>,
    linkUp: bool)

  const NO_ADDRESS := KnxAddress(0, 0, 0)
  const ATTEMPTS: uint32 := 2

  const INITIAL := State(
    [], [], [], [], 0, 0, false, NO_ADDRESS, false, false, [], [], [], map[], None, 0, 0, [], [], false)

  predicate LinkedCall(c: Call, i: nat, jobCount: nat) {
    match c.caller
    case BySend(j) => j < jobCount
    case ByClose(AckFailed(j)) => j < jobCount
    case ByClose(TimedOut(f)) => f < i
    case _ => true
  }

  predicate Within(items: seq<nat>, n: nat) {
    forall a :: 0 <= a < |items| ==> items[a] < n
  }

  /** Frames are awaited by jobs and by older frames only. */
  predicate Linked(s: State) {
    && |s.phases| == |s.loops| == |s.calls|
    && |s.jobs| == |s.awaits| == |s.cemis|
    && (forall i :: 0 <= i < |s.calls| ==> LinkedCall(s.calls[i], i, |s.jobs|))
    && Within(s.sendItems, |s.calls|)
    && (forall key <- s.requests :: s.requests[key] < |s.jobs|)
  }

  type Session = s: State | Linked(s) witness INITIAL

  predicate Live(s: State, i: nat)
    requires i < |s.phases|
  {
    !s.phases[i].Done?
  }

  function SocketFor(q: Request): Socket {
    if q.Tunnel? then DataSocket else ControlSocket
  }

  // ------------------------------------------------------------ sending

  function Transmit(s: Session, i: nat): (r: Session)
    requires i < |s.calls|
  {
    var q := s.calls[i].request;
    s.(wire := s.wire + [Sent(SocketFor(q), q, i)])
  }

  function AddFrame(s: Session, q: Request, caller: Caller): (r: Session)
    requires LinkedCall(Call(q, caller, s.epoch, s.sends), |s.calls|, |s.jobs|)
    ensures |r.calls| == |s.calls| + 1 && |r.jobs| == |s.jobs|
  {
    s.(calls := s.calls + [Call(q, caller, s.epoch, s.sends)],
       phases := s.phases + [Running],
       loops := s.loops + [Begin(Fresh(), ATTEMPTS)],
       sendItems := s.sendItems + [|s.calls|])
  }

  /** A call of `sendRequest` up to its first suspension. */
  function OpenFrame(s: Session, q: Request, caller: Caller): (r: Session)
    requires LinkedCall(Call(q, caller, s.epoch, s.sends), |s.calls|, |s.jobs|)
    ensures |r.calls| == |s.calls| + 1 && |r.jobs| == |s.jobs|
  {
    Transmit(AddFrame(s, q, caller), |s.calls|)
  }

  /** `TunnelingConnection::send`, called by a job. */
  function Send(s: Session, j: nat): (r: Session)
    requires j < |s.jobs|
    ensures |r.calls| == |s.calls| + 1 && |r.jobs| == |s.jobs|
  {
    var q := Tunnel(TunnelRequest(ConnectionHeader(s.channelId, s.sequence, 0), s.cemis[j]));
    var o := OpenFrame(s, q, BySend(j));
    o.(sequence := Successor(s.sequence), sends := s.sends + 1, awaits := s.awaits[j := Some(|s.calls|)])
  }

  // ------------------------------------------------------------ closing

  function CancelAll(loops: seq<Loop<Response>>, items: seq<nat>): (r: seq<Loop<Response>>)
    ensures |r| == |loops|
  {
    seq(|loops|, i requires 0 <= i < |loops| => if i in items then Cancelled(loops[i]) else loops[i])
  }

  function Reset(s: Session): (r: Session)
  {
    s.(loops := CancelAll(s.loops, s.sendItems),
       sendItems := [],
       sequence := 0,
       knxAddress := NO_ADDRESS,
       epoch := s.epoch + 1,
       sends := 0)
  }

  lemma SameSockets(s: Session)
    ensures Reset(s).controlOpen == s.controlOpen && Reset(s).dataOpen == s.dataOpen
  {
  }

  lemma SocketsLinked(s: Session)
    ensures Linked(s.(controlOpen := false)) && Linked(s.(dataOpen := false))
  {
  }

  /** `forEveryListener`. */
  function Tell(s: Session, n: Notice): (r: Session)
  {
    s.(notices := s.notices + [n],
       linkUp := if n.OnConnect? then true else if n.OnDisconnect? then false else s.linkUp)
  }

  function OpenSockets(s: State): nat {
    (if s.controlOpen then 1 else 0) + if s.dataOpen then 1 else 0
  }

  /** Stopping a socket that is open calls back into `closeWithoutDisconnect`. */
  function StopControl(s: Session): (r: Session)
    ensures OpenSockets(r) <= OpenSockets(s)
    ensures r.calls == s.calls && |r.jobs| == |s.jobs|
    decreases OpenSockets(s), 0
  {
    if s.controlOpen then CloseWithoutDisconnect(s.(controlOpen := false)) else s
  }

  function StopData(s: Session): (r: Session)
    ensures OpenSockets(r) <= OpenSockets(s)
    ensures r.calls == s.calls && |r.jobs| == |s.jobs|
    decreases OpenSockets(s), 0
  {
    if s.dataOpen then CloseWithoutDisconnect(s.(dataOpen := false)) else s
  }

  function CloseWithoutDisconnect(s: Session): (r: Session)
    ensures OpenSockets(r) <= OpenSockets(s)
    ensures r.calls == s.calls && |r.jobs| == |s.jobs|
    decreases OpenSockets(s), 1
  {
    Tell(StopData(StopControl(Reset(s))), OnDisconnect)
  }

  // ------------------------------------------------------------ returning

  function EraseRequest(s: Session, j: nat): (r: Session)
    requires j < |s.cemis|
  {
    var erased := KeyOf(s.cemis[j]);
    s.(requests := map key | key in s.requests && key != erased :: s.requests[key])
  }

  /** The retry machine of a job takes a step and the job ends with it. */
  function JobStep(s: Session, j: nat, l: Loop<Cemi>): (r: Session)
    requires j < |s.jobs|
    ensures r.calls == s.calls && |r.jobs| == |s.jobs|
  {
    var t := s.(jobs := s.jobs[j := l]);
    if l.pc.Returned? then EraseRequest(t, j) else t
  }

  /** `send` returns to the retry machine of its job. */
  function SendReturned(s: Session, j: nat): (r: Session)
    requires j < |s.jobs|
    ensures r.calls == s.calls && |r.jobs| == |s.jobs|
  {
    JobStep(s.(awaits := s.awaits[j := None]), j, Transmitted(s.jobs[j]))
  }

  /** How deep a return may have to unwind through frames that await `close`. */
  function Depth(c: Closer): nat {
    if c.TimedOut? then c.frame + 1 else 0
  }

  predicate LinkedCloser(s: State, c: Closer) {
    match c
    case Detached => true
    case AckFailed(j) => j < |s.jobs|
    case TimedOut(f) => f < |s.calls|
  }

  /** The caller of `close` now awaits the new frame. */
  function Suspend(s: Session, c: Closer, i: nat): (r: Session)
    requires LinkedCloser(s, c)
  {
    match c
    case Detached => s
    case AckFailed(j) => s.(awaits := s.awaits[j := Some(i)])
    case TimedOut(f) => s.(phases := s.phases[f := ClosingDown])
  }

  /** `close`: a second call returns at once. */
  function Close(s: Session, c: Closer): (r: Session)
    requires LinkedCloser(s, c)
    decreases Depth(c), 2
  {
    if s.closingDown then Closed(s, c)
    else
      var i := |s.calls|;
      var o := OpenFrame(s.(closingDown := true, closeFrame := Some(i)), Disconnect(s.channelId), ByClose(c));
      Suspend(o, c, i)
  }

  /** `close` returns to its caller. */
  function Closed(s: Session, c: Closer): (r: Session)
    requires LinkedCloser(s, c)
    decreases Depth(c), 1
  {
    match c
    case Detached => s
    case AckFailed(j) => SendReturned(s, j)
    case TimedOut(f) => ReturnFrame(s, f)
  }

  function ViewOf(s: State): View {
    View(s.sendItems, s.sequence, s.knxAddress, s.controlOpen, s.dataOpen, |s.notices|)
  }

  function Without(items: seq<nat>, i: nat): (r: seq<nat>)
    ensures forall k <- r :: k in items && k != i
    ensures forall k <- items :: k != i ==> k in r
  {
    if items == [] then []
    else if items[0] == i then Without(items[1..], i)
    else [items[0]] + Without(items[1..], i)
  }

  lemma {:induction false} WithoutWithin(items: seq<nat>, i: nat, n: nat)
    requires Within(items, n)
    ensures Within(Without(items, i), n)
  {
    if items != [] {
      assert Within(items[1..], n);
      WithoutWithin(items[1..], i, n);
    }
  }

  /** The end of `sendRequest`: its item is erased. */
  function Finish(s: Session, i: nat): (r: Session)
    requires i < |s.calls|
    ensures r.calls == s.calls && |r.jobs| == |s.jobs|
  {
    WithoutWithin(s.sendItems, i, |s.calls|);
    var t := s.(sendItems := Without(s.sendItems, i));
    t.(phases := s.phases[i := Done(s.phases[i].ClosingDown?, ViewOf(t))])
  }

  /** The end of `start`: any connect response will do, whatever its status. */
  function Started(s: Session, answer: Option<Response>): (r: Session) {
    match answer
    case Some(ConnectResponse(channel, _, address)) =>
      Tell(s.(channelId := channel, knxAddress := address), OnConnect)
    case _ => Reset(s)
  }

  function AckRefused(answer: Option<Response>): bool {
    answer.Some? && answer.value.TunnelAck? && answer.value.header.status != 0
  }

  /** The end of `close` itself. */
  function CloseDone(s: Session): (r: Session)
    ensures r.calls == s.calls && |r.jobs| == |s.jobs|
  {
    CloseWithoutDisconnect(s).(closingDown := false, closeFrame := None)
  }

  /** `sendRequest` returns and its caller runs on. */
  function ReturnFrame(s: Session, i: nat): (r: Session)
    requires i < |s.calls|
    decreases i + 1, 0
  {
    var answer := s.loops[i].response;
    var t := Finish(s, i);
    assert LinkedCall(s.calls[i], i, |s.jobs|);
    match s.calls[i].caller
    case ByStart => Started(t, answer)
    case ByKeepAlive => t
    case ByDescription => t
    case BySend(j) => if AckRefused(answer) then Close(t, AckFailed(j)) else SendReturned(t, j)
    case ByClose(c) => Closed(CloseDone(t), c)
  }

  // ------------------------------------------------------------ steps of the frames and jobs

  function WithLoop(s: Session, i: nat, l: Loop<Response>): (r: Session)
    requires i < |s.calls|
    ensures r.calls == s.calls && |r.jobs| == |s.jobs|
  {
    s.(loops := s.loops[i := l])
  }

  function FrameSent(s: Session, i: nat): Session
    requires i < |s.calls|
  {
    var l := Transmitted(s.loops[i]);
    if l.pc.Returned? then ReturnFrame(WithLoop(s, i, l), i) else WithLoop(s, i, l)
  }

  function FrameResumed(s: Session, i: nat): Session
    requires i < |s.calls| && s.loops[i].pc.Queued?
  {
    var l := AfterWait(s.loops[i], s.loops[i].pc.completion);
    var t := WithLoop(s, i, l);
    if l.pc.Transmitting? then Transmit(t, i)
    else if l.state == Timeout then Close(t, TimedOut(i))
    else ReturnFrame(t, i)
  }

  function JobResumed(s: Session, j: nat): Session
    requires j < |s.jobs| && s.jobs[j].pc.Queued?
  {
    var l := AfterWait(s.jobs[j], s.jobs[j].pc.completion);
    var t := JobStep(s, j, l);
    if l.pc.Transmitting? then Send(t, j) else t
  }

  // ------------------------------------------------------------ what arrives

  /** The first pending item, in the order of sending, that matches. */
  function FirstMatch(calls: seq<Call>, items: seq<nat>, r: Response): (m: Option<nat>)
    requires Within(items, |calls|)
    ensures m.Some? ==> m.value in items && Matches(calls[m.value].request, r)
    ensures m.None? ==> forall i <- items :: !Matches(calls[i].request, r)
  {
    if items == [] then None
    else
      if Matches(calls[items[0]].request, r) then Some(items[0])
      else FirstMatch(calls, items[1..], r)
  }

  function Received(s: Session, r: Response): Session {
    match FirstMatch(s.calls, s.sendItems, r)
    case Some(i) => WithLoop(s, i, Replied(s.loops[i], r))
    case None => s
  }

  /** `checkForConfirm`. */
  function Confirmed(s: Session, c: Cemi): Session {
    if c.messageCode == L_DATA_CON && c.source == s.knxAddress && KeyOf(c) in s.requests then
      var j := s.requests[KeyOf(c)];
      s.(jobs := s.jobs[j := Replied(s.jobs[j], c)])
    else s
  }

  function ReceivedTunnel(s: Session, t: TunnelRequest): Session {
    Confirmed(Tell(s.(wire := s.wire + [Acknowledged(t.header)]), OnIncomingCemi(t.cemi)), t.cemi)
  }

  function ReceivedDisconnect(s: Session, channel: byte): Session {
    if channel == s.channelId then
      Tell(Reset(s.(wire := s.wire + [Disconnected(channel)])), OnDisconnect)
    else s
  }

  // ------------------------------------------------------------ calls from outside

  /** Both sockets open and the sequence back at zero. */
  function Opened(s: Session): (r: Session) {
    s.(controlOpen := true, dataOpen := true, sequence := 0, epoch := s.epoch + 1, sends := 0)
  }

  function Start(s: Session): Session {
    OpenFrame(Opened(s), Connect, ByStart)
  }

  /** A new job, registered under its key. */
  function AddJob(s: Session, c: Cemi): (r: Session)
    ensures |r.jobs| == |s.jobs| + 1
  {
    var j := |s.jobs|;
    var pending := s.requests[KeyOf(c) := j];
    var r := s.(
      cemis := s.cemis + [c],
      jobs := s.jobs + [Begin(Fresh(), ATTEMPTS)],
      awaits := s.awaits + [None],
      requests := pending);
    assert forall i :: 0 <= i < |s.calls| ==> LinkedCall(s.calls[i], i, |s.jobs|);
    assert forall key <- pending :: pending[key] == if key == KeyOf(c) then j else s.requests[key];
    assert forall key <- pending :: key != KeyOf(c) ==> key in s.requests && s.requests[key] < |s.jobs|;
    r
  }

  /** `sendCemi` up to its first suspension. */
  function Submit(s: Session, c: Cemi): Session {
    Send(AddJob(s, c), |s.jobs|)
  }

  datatype Label =
    | DoStart
    | DoDescribe
    | DoKeepAlive
    | DoClose
    | DoSubmit(cemi: Cemi)
    | FrameSendDone(frame: nat)
    | FrameExpire(frame: nat)
    | FrameFail(frame: nat)
    | FrameResume(frame: nat)
    | JobExpire(job: nat)
    | JobFail(job: nat)
    | JobResume(job: nat)
    | Receive(response: Response)
    | ReceiveTunnel(tunnel: TunnelRequest)
    | ReceiveDisconnect(channel: byte)
    | ReadError(socket: Socket)

  predicate Waits(s: State, i: nat) {
    i < |s.loops| && s.loops[i].pc.Waiting?
  }

  predicate JobWaits(s: State, j: nat) {
    j < |s.jobs| && s.jobs[j].pc.Waiting?
  }

  /** `start` is called only when no connection stands and no earlier `start` runs. */
  predicate MayStart(s: Session) {
    && !s.linkUp
    && (forall i :: 0 <= i < |s.calls| && s.calls[i].caller.ByStart? ==> !Live(s, i))
  }

  /** The address of a connect response was parsed from two nibbles and a byte. */
  predicate Parsable(r: Response) {
    r.ConnectResponse? ==> IndividualInRange(r.address)
  }

  /** An individual destination where the client expects a group: `std::get` throws. */
  predicate Throws(s: Session, c: Cemi) {
    && c.destination.Individual?
    && ((c.messageCode == L_DATA_CON && c.source == s.knxAddress)
        || (c.messageCode == L_DATA_IND && c.npdu.apci.apciType in {0, 1, 2}))
  }

  /** What the environment may do: callers keep to the library's assumptions, and
      the event loop resumes only what is ready. */
  predicate Possible(s: Session, a: Label) {
    match a
    case DoStart => MayStart(s)
    case DoSubmit(c) => c.destination.Group? && KeyOf(c) !in s.requests
    case FrameSendDone(i) => i < |s.loops| && s.loops[i].pc.Transmitting?
    case FrameExpire(i) => Waits(s, i)
    case FrameFail(i) => Waits(s, i)
    case FrameResume(i) => i < |s.loops| && s.loops[i].pc.Queued?
    case JobExpire(j) => JobWaits(s, j)
    case JobFail(j) => JobWaits(s, j)
    case JobResume(j) => j < |s.jobs| && s.jobs[j].pc.Queued?
    case Receive(r) => Parsable(r)
    case ReceiveTunnel(t) => !Throws(s, t.cemi)
    case _ => true
  }

  function Next(s: Session, a: Label): Session
    requires Possible(s, a)
  {
    match a
    case DoStart => Start(s)
    case DoDescribe => OpenFrame(s, Description, ByDescription)
    case DoKeepAlive => OpenFrame(s, ConnectState(s.channelId), ByKeepAlive)
    case DoClose => Close(s, Detached)
    case DoSubmit(c) => Submit(s, c)
    case FrameSendDone(i) => FrameSent(s, i)
    case FrameExpire(i) => WithLoop(s, i, TimerDone(s.loops[i], Expired))
    case FrameFail(i) => WithLoop(s, i, TimerDone(s.loops[i], Failed))
    case FrameResume(i) => FrameResumed(s, i)
    case JobExpire(j) => JobStep(s, j, TimerDone(s.jobs[j], Expired))
    case JobFail(j) => JobStep(s, j, TimerDone(s.jobs[j], Failed))
    case JobResume(j) => JobResumed(s, j)
    case Receive(r) => Received(s, r)
    case ReceiveTunnel(t) => ReceivedTunnel(s, t)
    case ReceiveDisconnect(channel) => ReceivedDisconnect(s, channel)
    case ReadError(ControlSocket) => s.(controlOpen := false)
    case ReadError(DataSocket) => s.(dataOpen := false)
  }

  /** A run: states and the labels between them, from the initial state on. */
  predicate IsHistory(states: seq<Session>, labels: seq<Label>) {
    && |states| == |labels| + 1
    && states[0] == INITIAL
    && (forall k :: 0 <= k < |labels| ==> Possible(states[k], labels[k]) && states[k + 1] == Next(states[k], labels[k]))
  }
}
