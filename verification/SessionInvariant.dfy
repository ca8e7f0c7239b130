/** What every step of the tunnelling session keeps. */
module SessionInvariants {
  import opened Bytes
  import opened Wrappers
  import opened KnxAddresses
  import opened CemiFrames
  import opened TunnelFrames
  import opened AsyncMessageStates
  import opened ClientRouting
  import opened TunnelingSession

  // ------------------------------------------------------------ the parts of the invariant

  /** Kind and caller of a request agree, and a tunnelling request carries the
      sequence number of its stamp. */
  predicate CallOk(c: Call) {
    && (c.request.Tunnel? <==> c.caller.BySend?)
    && (c.request.Disconnect? <==> c.caller.ByClose?)
    && (c.request.Connect? <==> c.caller.ByStart?)
    && (c.request.Tunnel? ==> c.request.tunnel.header.sequence == Cast8(c.ordinal))
  }

  ghost predicate CallsOk(calls: seq<Call>) {
    forall i :: 0 <= i < |calls| ==> CallOk(calls[i])
  }

  /** A stored connect response carries an address that was parsed. */
  predicate Answerable(l: Loop<Response>) {
    l.response.Some? ==> Parsable(l.response.value)
  }

  predicate Fitting<R>(p: Phase, l: Loop<R>) {
    if p.Running? then l.pc.Transmitting? || l.pc.Waiting? || l.pc.Queued? else l.pc.Returned?
  }

  /** The frame `t` in transit has returned from its retry machine but not yet
      from `sendRequest`; `t` is -1 between steps. */
  ghost predicate FramesOk(phases: seq<Phase>, loops: seq<Loop<Response>>, t: int) {
    && |phases| == |loops|
    && (forall i :: 0 <= i < |loops| ==> Sound(loops[i]) && Answerable(loops[i]))
    && (forall i :: 0 <= i < |loops| && i != t ==> Fitting(phases[i], loops[i]))
    && (0 <= t ==> t < |loops| && !phases[t].Done? && loops[t].pc.Returned?)
  }

  /** Pending items belong to live frames, each once, in the order of sending. */
  ghost predicate ItemsOk(phases: seq<Phase>, items: seq<nat>) {
    && (forall a :: 0 <= a < |items| ==> items[a] < |phases| && !phases[items[a]].Done?)
    && (forall a, b :: 0 <= a < b < |items| ==> items[a] < items[b])
  }

  /** The connection is closing down exactly while one disconnect frame is live,
      and only a frame that this one was opened for awaits it. */
  ghost predicate CloseOk(calls: seq<Call>, phases: seq<Phase>, closingDown: bool, closeFrame: Option<nat>, t: int) {
    && |phases| == |calls|
    && closingDown == closeFrame.Some?
    && (closeFrame.Some? ==> closeFrame.value < |calls|)
    && (forall i :: 0 <= i < |calls| ==> (calls[i].caller.ByClose? && !phases[i].Done? <==> closeFrame == Some(i)))
    && (forall i :: 0 <= i < |phases| && phases[i].ClosingDown? && i != t ==>
      closeFrame.Some? && calls[closeFrame.value].caller == ByClose(TimedOut(i)))
    && (closeFrame.Some? ==> CloserWaits(calls[closeFrame.value], phases))
  }

  /** The frame that a disconnect was opened for awaits it. */
  predicate CloserWaits(c: Call, phases: seq<Phase>) {
    match c.caller
    case ByClose(TimedOut(f)) => f < |phases| && phases[f].ClosingDown?
    case _ => true
  }

  function Owner(c: Call): Option<nat> {
    match c.caller
    case BySend(j) => Some(j)
    case ByClose(AckFailed(j)) => Some(j)
    case _ => None
  }

  /** Job `j` awaits frame `i`, which works for it. */
  predicate AwaitedBy(calls: seq<Call>, i: nat, j: nat) {
    i < |calls| && Owner(calls[i]) == Some(j)
  }

  /** A job transmits exactly while it awaits a frame, which works for it and is
      live; every live frame that works for a job is the one this job awaits.  The
      job `u` in transit is about to open its frame, the job `v` in transit awaits
      a frame that is done; both are -1 between steps. */
  ghost predicate JobsOk(
      calls: seq<Call>, phases: seq<Phase>, jobs: seq<Loop<Cemi>>, awaits: seq<Option<nat>>, u: int, v: int) {
    && |phases| == |calls| && |awaits| == |jobs|
    && (forall j :: 0 <= j < |jobs| ==> Sound(jobs[j]) && !jobs[j].pc.Idle?)
    && (forall j :: 0 <= j < |jobs| && j != u ==> (awaits[j].Some? <==> jobs[j].pc.Transmitting?))
    && (0 <= u ==> u < |jobs| && jobs[u].pc.Transmitting? && awaits[u].None?)
    && (forall j :: 0 <= j < |jobs| && awaits[j].Some? ==>
      AwaitedBy(calls, awaits[j].value, j) && (j == v <==> phases[awaits[j].value].Done?))
    && (0 <= v ==> v < |jobs| && awaits[v].Some?)
    && (forall i :: 0 <= i < |calls| && !phases[i].Done? && Owner(calls[i]).Some? ==>
          var j := Owner(calls[i]).value;
          j < |jobs| && awaits[j] == Some(i))
  }

  /** Two tunnelling requests between the same resets of the sequence. */
  predicate SameCount(c: Call, d: Call) {
    c.request.Tunnel? && d.request.Tunnel? && c.epoch == d.epoch
  }

  /** The stamps count the sends since the sequence was last set to zero. */
  ghost predicate StampsOk(calls: seq<Call>, sequence: byte, sends: nat, epoch: nat) {
    && sequence == Cast8(sends)
    && (forall i :: 0 <= i < |calls| ==> calls[i].epoch <= epoch)
    && (forall i :: 0 <= i < |calls| && calls[i].epoch == epoch && calls[i].request.Tunnel? ==>
      calls[i].ordinal < sends)
    && (forall i, k :: 0 <= i < k < |calls| && SameCount(calls[i], calls[k]) ==> calls[i].ordinal < calls[k].ordinal)
  }

  function SendsOf(wire: seq<Datagram>, i: nat): nat {
    if wire == [] then 0
    else SendsOf(Front(wire), i) + if Last(wire).Sent? && Last(wire).frame == i then 1 else 0
  }

  function FramesOf(calls: seq<Call>, j: nat): nat {
    if calls == [] then 0 else FramesOf(Front(calls), j) + if Last(calls).caller == BySend(j) then 1 else 0
  }

  /** Every datagram is its frame's request, and what a frame has sent and may
      still send adds up to two. */
  ghost predicate WireOk(calls: seq<Call>, loops: seq<Loop<Response>>, wire: seq<Datagram>) {
    && |loops| == |calls|
    && (forall d :: 0 <= d < |wire| && wire[d].Sent? ==>
          && wire[d].frame < |calls|
          && wire[d].request == calls[wire[d].frame].request
          && wire[d].socket == SocketFor(wire[d].request))
    && (forall i :: 0 <= i < |calls| ==> SendsOf(wire, i) + loops[i].attempts == 2)
  }

  /** What a job has opened and may still open adds up to two. */
  ghost predicate AccountsOk(calls: seq<Call>, jobs: seq<Loop<Cemi>>, u: int) {
    forall j :: 0 <= j < |jobs| ==> FramesOf(calls, j) + jobs[j].attempts == if j == u then 1 else 2
  }

  /** The map holds exactly the jobs that have not ended, each under its key. */
  ghost predicate RequestsOk(cemis: seq<Cemi>, jobs: seq<Loop<Cemi>>, requests: map<Key, nat>) {
    && |cemis| == |jobs|
    && (forall key <- requests :: requests[key] < |jobs|
          && KeyOf(cemis[requests[key]]) == key && !jobs[requests[key]].pc.Returned?)
    && (forall j :: 0 <= j < |jobs| && !jobs[j].pc.Returned? ==>
          KeyOf(cemis[j]) in requests && requests[KeyOf(cemis[j])] == j)
  }

  /** Some disconnect notice after position `i`. */
  ghost predicate EndedAfter(notices: seq<Notice>, i: nat) {
    exists k :: i < k < |notices| && notices[k].OnDisconnect?
  }

  /** Between two connect notices there is a disconnect notice. */
  ghost predicate Separated(notices: seq<Notice>) {
    forall i, j :: 0 <= i < j < |notices| && notices[i].OnConnect? && notices[j].OnConnect? ==>
      exists k :: i < k < j && notices[k].OnDisconnect?
  }

  ghost predicate LinkOk(calls: seq<Call>, phases: seq<Phase>, notices: seq<Notice>, linkUp: bool) {
    && |phases| == |calls|
    && Separated(notices)
    && (!linkUp ==> forall i :: 0 <= i < |notices| && notices[i].OnConnect? ==> EndedAfter(notices, i))
    && (forall i :: 0 <= i < |calls| && calls[i].caller.ByStart? && !phases[i].Done? ==> !linkUp)
    && (forall i, k :: 0 <= i < k < |calls| && calls[i].caller.ByStart? && calls[k].caller.ByStart? ==>
          phases[i].Done? || phases[k].Done?)
  }

  /** Everything pending is gone, and the listeners know. */
  predicate CleanView(v: View, notices: seq<Notice>) {
    && v.pending == [] && v.sequence == 0 && v.knxAddress == NO_ADDRESS
    && !v.controlOpen && !v.dataOpen
    && 0 < v.told <= |notices| && notices[v.told - 1].OnDisconnect?
  }

  ghost predicate ViewsOk(phases: seq<Phase>, notices: seq<Notice>) {
    forall i :: 0 <= i < |phases| && phases[i].Done? && phases[i].closed ==> CleanView(phases[i].view, notices)
  }

  ghost predicate Inv(s: State, t: int, u: int, v: int) {
    && Linked(s)
    && CallsOk(s.calls)
    && FramesOk(s.phases, s.loops, t)
    && ItemsOk(s.phases, s.sendItems)
    && CloseOk(s.calls, s.phases, s.closingDown, s.closeFrame, t)
    && JobsOk(s.calls, s.phases, s.jobs, s.awaits, u, v)
    && StampsOk(s.calls, s.sequence, s.sends, s.epoch)
    && WireOk(s.calls, s.loops, s.wire)
    && AccountsOk(s.calls, s.jobs, u)
    && RequestsOk(s.cemis, s.jobs, s.requests)
    && LinkOk(s.calls, s.phases, s.notices, s.linkUp)
    && ViewsOk(s.phases, s.notices)
    && IndividualInRange(s.knxAddress)
  }

  /** What holds between steps. */
  ghost predicate Good(s: State) {
    Inv(s, -1, -1, -1)
  }

  // ------------------------------------------------------------ counting

  lemma SendsAppend(wire: seq<Datagram>, d: Datagram, i: nat)
    ensures SendsOf(wire + [d], i) == SendsOf(wire, i) + if d.Sent? && d.frame == i then 1 else 0
  {
    assert Front(wire + [d]) == wire && Last(wire + [d]) == d;
  }

  lemma FramesAppend(calls: seq<Call>, c: Call, j: nat)
    ensures FramesOf(calls + [c], j) == FramesOf(calls, j) + if c.caller == BySend(j) then 1 else 0
  {
    assert Front(calls + [c]) == calls && Last(calls + [c]) == c;
  }

  lemma {:induction false} NoSends(wire: seq<Datagram>, i: nat)
    requires forall d :: 0 <= d < |wire| && wire[d].Sent? ==> wire[d].frame < i
    ensures SendsOf(wire, i) == 0
  {
    if wire != [] {
      NoSends(Front(wire), i);
    }
  }

  lemma {:induction false} NoFrames(calls: seq<Call>, j: nat)
    requires forall i :: 0 <= i < |calls| ==> LinkedCall(calls[i], i, j)
    ensures FramesOf(calls, j) == 0
  {
    if calls != [] {
      NoFrames(Front(calls), j);
      assert LinkedCall(Last(calls), |calls| - 1, j);
    }
  }

  // ------------------------------------------------------------ the steps of one retry machine

  lemma CancelSound<R>(l: Loop<R>)
    requires Sound(l) && !l.pc.Idle?
    ensures Sound(Cancelled(l)) && Cancelled(l).attempts == l.attempts
    ensures l.pc.Returned? <==> Cancelled(l).pc.Returned?
    ensures l.pc.Transmitting? <==> Cancelled(l).pc.Transmitting?
    ensures !Cancelled(l).pc.Idle?
  {
  }

  lemma ReplySound<R>(l: Loop<R>, r: R)
    requires Sound(l) && !l.pc.Idle?
    ensures Sound(Replied(l, r)) && Replied(l, r).attempts == l.attempts
    ensures l.pc.Returned? <==> Replied(l, r).pc.Returned?
    ensures l.pc.Transmitting? <==> Replied(l, r).pc.Transmitting?
    ensures !Replied(l, r).pc.Idle?
  {
  }

  lemma TransmittedSound<R>(l: Loop<R>)
    requires Sound(l) && l.pc.Transmitting?
    ensures Sound(Transmitted(l)) && Transmitted(l).attempts == l.attempts && Transmitted(l).response == l.response
    ensures Transmitted(l).pc.Waiting? || Transmitted(l).pc.Returned?
  {
  }

  lemma TimerSound<R>(l: Loop<R>, c: Completion)
    requires Sound(l) && l.pc.Waiting? && c != Aborted
    ensures Sound(TimerDone(l, c)) && TimerDone(l, c).attempts == l.attempts && TimerDone(l, c).response == l.response
    ensures TimerDone(l, c).pc.Queued?
  {
  }

  lemma AfterWaitSound<R>(l: Loop<R>)
    requires Sound(l) && l.pc.Queued?
    ensures var r := AfterWait(l, l.pc.completion);
      && Sound(r) && r.response == l.response
      && (r.pc.Transmitting? ==> r.attempts == l.attempts - 1)
      && (!r.pc.Transmitting? ==> r.pc.Returned? && r.attempts == l.attempts)
  {
  }

  // ------------------------------------------------------------ a new frame, part by part

  lemma FramesOpen(phases: seq<Phase>, loops: seq<Loop<Response>>, t: int)
    requires FramesOk(phases, loops, t)
    ensures FramesOk(phases + [Running], loops + [Begin(Fresh(), ATTEMPTS)], t)
  {
  }

  lemma ItemsOpen(phases: seq<Phase>, items: seq<nat>)
    requires ItemsOk(phases, items)
    ensures ItemsOk(phases + [Running], items + [|phases|])
  {
  }

  lemma WireOpen(calls: seq<Call>, loops: seq<Loop<Response>>, wire: seq<Datagram>, c: Call)
    requires WireOk(calls, loops, wire)
    ensures WireOk(calls + [c], loops + [Begin(Fresh(), ATTEMPTS)],
                   wire + [Sent(SocketFor(c.request), c.request, |calls|)])
  {
    hide SendsOf;
    var d := Sent(SocketFor(c.request), c.request, |calls|);
    NoSends(wire, |calls|);
    forall i | 0 <= i <= |calls|
      ensures SendsOf(wire + [d], i) == SendsOf(wire, i) + if i == |calls| then 1 else 0
    {
      SendsAppend(wire, d, i);
    }
  }

  lemma CloseOpen(calls: seq<Call>, phases: seq<Phase>, closingDown: bool, closeFrame: Option<nat>, t: int, c: Call)
    requires CloseOk(calls, phases, closingDown, closeFrame, t) && !c.caller.ByClose?
    ensures CloseOk(calls + [c], phases + [Running], closingDown, closeFrame, t)
  {
  }

  lemma JobsOpen(calls: seq<Call>, phases: seq<Phase>, jobs: seq<Loop<Cemi>>, awaits: seq<Option<nat>>, c: Call)
    requires JobsOk(calls, phases, jobs, awaits, -1, -1) && Owner(c).None?
    ensures JobsOk(calls + [c], phases + [Running], jobs, awaits, -1, -1)
  {
  }

  /** A frame that works for job `j` in transit. */
  lemma JobsOpenFor(
      calls: seq<Call>, phases: seq<Phase>, jobs: seq<Loop<Cemi>>, awaits: seq<Option<nat>>, u: int, v: int,
      c: Call, j: nat)
    requires JobsOk(calls, phases, jobs, awaits, u, v) && Owner(c) == Some(j)
    requires (u == j && v == -1) || (u == -1 && v == j)
    ensures j < |jobs| && JobsOk(calls + [c], phases + [Running], jobs, awaits[j := Some(|calls|)], -1, -1)
  {
  }

  lemma StampsOpen(calls: seq<Call>, sequence: byte, sends: nat, epoch: nat, c: Call)
    requires StampsOk(calls, sequence, sends, epoch) && c.epoch == epoch && !c.request.Tunnel?
    ensures StampsOk(calls + [c], sequence, sends, epoch)
  {
    hide Cast8;
  }

  lemma StampsSend(calls: seq<Call>, sequence: byte, sends: nat, epoch: nat, c: Call)
    requires StampsOk(calls, sequence, sends, epoch)
    requires c.epoch == epoch && c.ordinal == sends && c.request.Tunnel?
    ensures StampsOk(calls + [c], Successor(sequence), sends + 1, epoch)
  {
    hide Cast8, Successor;
    CastSuccessor(sends);
  }

  lemma AccountsOpen(calls: seq<Call>, jobs: seq<Loop<Cemi>>, u: int, c: Call)
    requires AccountsOk(calls, jobs, u) && (c.caller.BySend? ==> u == c.caller.job)
    ensures AccountsOk(calls + [c], jobs, if c.caller.BySend? then -1 else u)
  {
    hide FramesOf;
    forall j | 0 <= j < |jobs|
      ensures FramesOf(calls + [c], j) == FramesOf(calls, j) + if c.caller == BySend(j) then 1 else 0
    {
      FramesAppend(calls, c, j);
    }
  }

  lemma LinkOpen(calls: seq<Call>, phases: seq<Phase>, notices: seq<Notice>, linkUp: bool, c: Call)
    requires LinkOk(calls, phases, notices, linkUp)
    requires c.caller.ByStart? ==>
      !linkUp && forall i :: 0 <= i < |calls| && calls[i].caller.ByStart? ==> phases[i].Done?
    ensures LinkOk(calls + [c], phases + [Running], notices, linkUp)
  {
    hide Separated, EndedAfter;
  }

  lemma ViewsOpen(phases: seq<Phase>, notices: seq<Notice>)
    requires ViewsOk(phases, notices)
    ensures ViewsOk(phases + [Running], notices)
  {
    hide CleanView;
  }

  lemma CallsOpen(calls: seq<Call>, c: Call)
    requires CallsOk(calls) && CallOk(c)
    ensures CallsOk(calls + [c])
  {
    hide CallOk;
  }

  /** A frame that works for no job and is no disconnect. */
  lemma OpenKeepsInv(s: Session, q: Request, caller: Caller)
    requires Good(s)
    requires caller.ByKeepAlive? || caller.ByDescription? || caller.ByStart?
    requires CallOk(Call(q, caller, s.epoch, s.sends))
    requires caller.ByStart? ==> MayStart(s)
    ensures Good(OpenFrame(s, q, caller))
  {
    hide CallsOk, FramesOk, ItemsOk, CloseOk, JobsOk, StampsOk, WireOk, AccountsOk, RequestsOk, LinkOk, ViewsOk;
    var c := Call(q, caller, s.epoch, s.sends);
    CallsOpen(s.calls, c);
    FramesOpen(s.phases, s.loops, -1);
    ItemsOpen(s.phases, s.sendItems);
    CloseOpen(s.calls, s.phases, s.closingDown, s.closeFrame, -1, c);
    JobsOpen(s.calls, s.phases, s.jobs, s.awaits, c);
    StampsOpen(s.calls, s.sequence, s.sends, s.epoch, c);
    WireOpen(s.calls, s.loops, s.wire, c);
    AccountsOpen(s.calls, s.jobs, -1, c);
    LinkOpen(s.calls, s.phases, s.notices, s.linkUp, c);
    ViewsOpen(s.phases, s.notices);
  }

  function SendCall(s: Session, j: nat): Call
    requires j < |s.jobs|
  {
    Call(Tunnel(TunnelRequest(ConnectionHeader(s.channelId, s.sequence, 0), s.cemis[j])), BySend(j), s.epoch, s.sends)
  }

  lemma SendCallOk(s: Session, j: nat)
    requires StampsOk(s.calls, s.sequence, s.sends, s.epoch) && j < |s.jobs|
    ensures CallOk(SendCall(s, j))
  {
    hide Cast8;
  }

  /** A job in transit opens its frame. */
  lemma SendKeepsInv(s: Session, j: nat)
    requires Inv(s, -1, j, -1) && j < |s.jobs|
    ensures Good(Send(s, j))
  {
    hide CallsOk, CallOk, FramesOk, ItemsOk, CloseOk, JobsOk, StampsOk, WireOk, AccountsOk, RequestsOk, LinkOk, ViewsOk,
      Successor;
    var c := SendCall(s, j);
    SendCallOk(s, j);
    CallsOpen(s.calls, c);
    FramesOpen(s.phases, s.loops, -1);
    ItemsOpen(s.phases, s.sendItems);
    CloseOpen(s.calls, s.phases, s.closingDown, s.closeFrame, -1, c);
    JobsOpenFor(s.calls, s.phases, s.jobs, s.awaits, j, -1, c, j);
    StampsSend(s.calls, s.sequence, s.sends, s.epoch, c);
    WireOpen(s.calls, s.loops, s.wire, c);
    AccountsOpen(s.calls, s.jobs, j, c);
    LinkOpen(s.calls, s.phases, s.notices, s.linkUp, c);
    ViewsOpen(s.phases, s.notices);
  }

  // ------------------------------------------------------------ retry machines of frames

  lemma FramesUpdate(phases: seq<Phase>, loops: seq<Loop<Response>>, i: nat, l: Loop<Response>)
    requires FramesOk(phases, loops, -1) && i < |loops| && Sound(l) && Answerable(l)
    requires Fitting(phases[i], l) || (phases[i].Running? && l.pc.Returned?)
    ensures FramesOk(phases, loops[i := l], if Fitting(phases[i], l) then -1 else i)
  {
  }

  lemma WireUpdate(calls: seq<Call>, loops: seq<Loop<Response>>, wire: seq<Datagram>, i: nat, l: Loop<Response>)
    requires WireOk(calls, loops, wire) && i < |loops| && l.attempts == loops[i].attempts
    ensures WireOk(calls, loops[i := l], wire)
  {
    hide SendsOf;
  }

  lemma CloseTransit(calls: seq<Call>, phases: seq<Phase>, closingDown: bool, closeFrame: Option<nat>, t: int)
    requires CloseOk(calls, phases, closingDown, closeFrame, -1)
    ensures CloseOk(calls, phases, closingDown, closeFrame, t)
  {
  }

  /** A new state of a retry machine that sends nothing.  If it has returned, its
      frame is in transit. */
  lemma LoopKeepsInv(s: Session, i: nat, l: Loop<Response>)
    requires Good(s) && i < |s.calls| && Sound(l) && l.attempts == s.loops[i].attempts && Answerable(l)
    requires Fitting(s.phases[i], l) || (s.phases[i].Running? && l.pc.Returned?)
    ensures Inv(WithLoop(s, i, l), if Fitting(s.phases[i], l) then -1 else i, -1, -1)
  {
    hide CallsOk, FramesOk, ItemsOk, CloseOk, JobsOk, StampsOk, WireOk, AccountsOk, RequestsOk, LinkOk, ViewsOk,
      Fitting, Sound;
    FramesUpdate(s.phases, s.loops, i, l);
    WireUpdate(s.calls, s.loops, s.wire, i, l);
    CloseTransit(s.calls, s.phases, s.closingDown, s.closeFrame, i);
  }

  lemma WireResend(calls: seq<Call>, loops: seq<Loop<Response>>, wire: seq<Datagram>, i: nat, l: Loop<Response>)
    requires WireOk(calls, loops, wire) && i < |loops| && l.attempts == loops[i].attempts - 1
    ensures WireOk(calls, loops[i := l], wire + [Sent(SocketFor(calls[i].request), calls[i].request, i)])
  {
    hide SendsOf;
    var d := Sent(SocketFor(calls[i].request), calls[i].request, i);
    forall k | 0 <= k < |calls|
      ensures SendsOf(wire + [d], k) == SendsOf(wire, k) + if k == i then 1 else 0
    {
      SendsAppend(wire, d, k);
    }
  }

  lemma ResendKeepsInv(s: Session, i: nat, l: Loop<Response>)
    requires Good(s) && i < |s.calls| && s.phases[i].Running?
    requires Sound(l) && l.pc.Transmitting? && l.attempts == s.loops[i].attempts - 1 && Answerable(l)
    ensures Good(Transmit(WithLoop(s, i, l), i))
  {
    FramesUpdate(s.phases, s.loops, i, l);
    hide CallsOk, FramesOk, ItemsOk, CloseOk, JobsOk, StampsOk, WireOk, AccountsOk, RequestsOk, LinkOk, ViewsOk,
      Fitting, Sound;
    WireResend(s.calls, s.loops, s.wire, i, l);
  }

  // ------------------------------------------------------------ resetting and telling

  lemma NotIdle(phases: seq<Phase>, loops: seq<Loop<Response>>, t: int, i: nat)
    requires FramesOk(phases, loops, t) && i < |loops|
    ensures !loops[i].pc.Idle? && Sound(loops[i]) && Answerable(loops[i])
  {
  }

  lemma FramesCancel(phases: seq<Phase>, loops: seq<Loop<Response>>, t: int, items: seq<nat>)
    requires FramesOk(phases, loops, t)
    ensures FramesOk(phases, CancelAll(loops, items), t)
  {
    forall i | 0 <= i < |loops|
      ensures Sound(CancelAll(loops, items)[i]) && Answerable(CancelAll(loops, items)[i])
      ensures Fitting(phases[i], loops[i]) ==> Fitting(phases[i], CancelAll(loops, items)[i])
      ensures loops[i].pc.Returned? ==> CancelAll(loops, items)[i].pc.Returned?
    {
      NotIdle(phases, loops, t, i);
      CancelSound(loops[i]);
    }
  }

  lemma WireCancel(calls: seq<Call>, loops: seq<Loop<Response>>, wire: seq<Datagram>, items: seq<nat>)
    requires WireOk(calls, loops, wire)
    ensures WireOk(calls, CancelAll(loops, items), wire)
  {
    hide SendsOf;
  }

  lemma StampsReset(calls: seq<Call>, sequence: byte, sends: nat, epoch: nat, later: nat)
    requires StampsOk(calls, sequence, sends, epoch) && epoch < later
    ensures StampsOk(calls, 0, 0, later)
  {
  }

  lemma ResetKeepsInv(s: Session, t: int, v: int)
    requires Inv(s, t, -1, v)
    ensures Inv(Reset(s), t, -1, v)
  {
    assert ItemsOk(s.phases, []);
    hide CallsOk, FramesOk, ItemsOk, CloseOk, JobsOk, StampsOk, WireOk, AccountsOk, RequestsOk, LinkOk, ViewsOk;
    FramesCancel(s.phases, s.loops, t, s.sendItems);
    WireCancel(s.calls, s.loops, s.wire, s.sendItems);
    StampsReset(s.calls, s.sequence, s.sends, s.epoch, s.epoch + 1);
  }

  lemma EndedAppend(notices: seq<Notice>, n: Notice, i: nat)
    requires i < |notices|
    ensures EndedAfter(notices, i) || n.OnDisconnect? ==> EndedAfter(notices + [n], i)
  {
    var told := notices + [n];
    if EndedAfter(notices, i) {
      var k :| i < k < |notices| && notices[k].OnDisconnect?;
      assert told[k].OnDisconnect?;
    } else if n.OnDisconnect? {
      assert told[|notices|].OnDisconnect?;
    }
  }

  lemma SeparatedAppend(notices: seq<Notice>, n: Notice)
    requires Separated(notices)
    requires n.OnConnect? ==> forall i :: 0 <= i < |notices| && notices[i].OnConnect? ==> EndedAfter(notices, i)
    ensures Separated(notices + [n])
  {
    var told := notices + [n];
    forall i, j | 0 <= i < j < |told| && told[i].OnConnect? && told[j].OnConnect?
      ensures exists k :: i < k < j && told[k].OnDisconnect?
    {
      if j < |notices| {
        var k :| i < k < j && notices[k].OnDisconnect?;
        assert told[k].OnDisconnect?;
      } else {
        assert EndedAfter(notices, i);
        var k :| i < k < |notices| && notices[k].OnDisconnect?;
        assert told[k].OnDisconnect?;
      }
    }
  }

  function LinkAfter(linkUp: bool, n: Notice): bool {
    if n.OnConnect? then true else if n.OnDisconnect? then false else linkUp
  }

  lemma LinkTell(calls: seq<Call>, phases: seq<Phase>, notices: seq<Notice>, linkUp: bool, n: Notice)
    requires LinkOk(calls, phases, notices, linkUp)
    requires n.OnConnect? ==>
      !linkUp && forall i :: 0 <= i < |calls| && calls[i].caller.ByStart? ==> phases[i].Done?
    ensures LinkOk(calls, phases, notices + [n], LinkAfter(linkUp, n))
  {
    SeparatedAppend(notices, n);
    hide Separated, EndedAfter;
    if !LinkAfter(linkUp, n) {
      forall i | 0 <= i < |notices + [n]| && (notices + [n])[i].OnConnect?
        ensures EndedAfter(notices + [n], i)
      {
        EndedAppend(notices, n, i);
      }
    }
  }

  lemma ViewsTell(phases: seq<Phase>, notices: seq<Notice>, n: Notice)
    requires ViewsOk(phases, notices)
    ensures ViewsOk(phases, notices + [n])
  {
  }

  lemma TellKeepsInv(s: Session, n: Notice, t: int, v: int)
    requires Inv(s, t, -1, v)
    requires n.OnConnect? ==>
      !s.linkUp && forall i :: 0 <= i < |s.calls| && s.calls[i].caller.ByStart? ==> s.phases[i].Done?
    ensures Inv(Tell(s, n), t, -1, v)
  {
    hide CallsOk, FramesOk, ItemsOk, CloseOk, JobsOk, StampsOk, WireOk, AccountsOk, RequestsOk, LinkOk, ViewsOk;
    LinkTell(s.calls, s.phases, s.notices, s.linkUp, n);
    ViewsTell(s.phases, s.notices, n);
  }

  // ------------------------------------------------------------ closing without a disconnect request

  function Repeat(n: Notice, count: nat): (r: seq<Notice>)
    ensures |r| == count && forall k :: 0 <= k < count ==> r[k] == n
  {
    seq(count, _ => n)
  }

  /** Both sockets closed, everything pending cancelled, and one disconnect
      notice for each of the `n` entries. */
  function Shut(s: Session, n: nat): (r: Session)
  {
    s.(loops := CancelAll(s.loops, s.sendItems),
       sendItems := [],
       sequence := 0,
       knxAddress := NO_ADDRESS,
       controlOpen := false,
       dataOpen := false,
       epoch := s.epoch + n,
       sends := 0,
       notices := s.notices + Repeat(OnDisconnect, n),
       linkUp := false)
  }

  lemma CancelNone(loops: seq<Loop<Response>>)
    ensures CancelAll(loops, []) == loops
  {
  }

  lemma ShutClosed(s: Session)
    requires OpenSockets(s) == 0
    ensures Tell(Reset(s), OnDisconnect) == Shut(s, 1)
  {
    assert Repeat(OnDisconnect, 1) == [OnDisconnect];
  }

  /** A reset inside a larger one adds only its number. */
  lemma ShutReset(s: Session, n: nat)
    ensures Shut(Reset(s), n) == Shut(s, n).(epoch := s.epoch + n + 1)
  {
    CancelNone(CancelAll(s.loops, s.sendItems));
  }

  lemma TellShut(s: Session, n: nat)
    ensures Tell(Shut(s, n).(epoch := s.epoch + n + 1), OnDisconnect) == Shut(s, n + 1)
  {
    assert s.notices + Repeat(OnDisconnect, n) + [OnDisconnect] == s.notices + Repeat(OnDisconnect, n + 1);
  }

  /** `closeWithoutDisconnect`, re-entered through the callbacks of the sockets
      it stops: both end up closed, the session is reset, and each listener is
      told of the disconnect once more than there were open sockets. */
  lemma {:induction false} CloseWithoutDisconnectMeaning(s: Session)
    ensures CloseWithoutDisconnect(s) == Shut(s, 1 + OpenSockets(s))
    decreases OpenSockets(s)
  {
    hide Reset, Shut, Tell, CancelAll;
    var r := Reset(s);
    SameSockets(s);
    if s.controlOpen {
      CloseWithoutDisconnectMeaning(r.(controlOpen := false));
      ShutIgnoresSockets(r, OpenSockets(s));
    } else if s.dataOpen {
      CloseWithoutDisconnectMeaning(r.(dataOpen := false));
      ShutIgnoresSockets(r, OpenSockets(s));
    } else {
      ShutClosed(s);
    }
    ShutReset(s, OpenSockets(s));
    TellShut(s, OpenSockets(s));
  }

  lemma ShutIgnoresSockets(s: Session, n: nat)
    ensures Shut(s.(controlOpen := false), n) == Shut(s, n)
    ensures Shut(s.(dataOpen := false), n) == Shut(s, n)
    ensures !Shut(s, n).controlOpen && !Shut(s, n).dataOpen
  {
  }

  // ------------------------------------------------------------ a frame returns

  /** What a frame that awaited `close` sees when it returns. */
  ghost predicate Clean(s: State) {
    CleanView(ViewOf(s), s.notices) && s.closeFrame.None?
  }

  lemma ItemsPrepend(phases: seq<Phase>, k: nat, rest: seq<nat>)
    requires ItemsOk(phases, rest) && k < |phases| && !phases[k].Done?
    requires forall a :: 0 <= a < |rest| ==> k < rest[a]
    ensures ItemsOk(phases, [k] + rest)
  {
  }

  lemma ItemsTail(phases: seq<Phase>, items: seq<nat>)
    requires ItemsOk(phases, items) && items != []
    ensures ItemsOk(phases, items[1..])
    ensures forall k <- items[1..] :: items[0] < k
  {
  }

  lemma {:induction false} WithoutSorted(phases: seq<Phase>, items: seq<nat>, i: nat)
    requires ItemsOk(phases, items)
    ensures ItemsOk(phases, Without(items, i))
  {
    if items != [] {
      var rest := Without(items[1..], i);
      assert Without(items, i) == if items[0] == i then rest else [items[0]] + rest;
      assert items[0] < |phases| && !phases[items[0]].Done?;
      hide ItemsOk, Without;
      ItemsTail(phases, items);
      WithoutSorted(phases, items[1..], i);
      forall a | 0 <= a < |rest|
        ensures items[0] < rest[a]
      {
        assert rest[a] in items[1..];
      }
      ItemsPrepend(phases, items[0], rest);
    }
  }

  lemma ItemsFinish(phases: seq<Phase>, items: seq<nat>, i: nat, p: Phase)
    requires ItemsOk(phases, items) && i < |phases|
    ensures ItemsOk(phases[i := p], Without(items, i))
  {
    WithoutSorted(phases, items, i);
  }

  lemma FramesFinish(phases: seq<Phase>, loops: seq<Loop<Response>>, i: nat, p: Phase)
    requires FramesOk(phases, loops, i) && p.Done?
    ensures FramesOk(phases[i := p], loops, -1)
  {
  }

  lemma CloseFinish(calls: seq<Call>, phases: seq<Phase>, closingDown: bool, closeFrame: Option<nat>, i: nat, p: Phase)
    requires CloseOk(calls, phases, closingDown, closeFrame, i) && p.Done?
    requires i < |calls| && !calls[i].caller.ByClose?
    requires phases[i].Running? || closeFrame.None?
    ensures CloseOk(calls, phases[i := p], closingDown, closeFrame, -1)
  {
  }

  /** The job that a frame works for, or -1. */
  function Served(c: Call): int {
    if Owner(c).Some? then Owner(c).value else -1
  }

  lemma JobsFinish(
      calls: seq<Call>, phases: seq<Phase>, jobs: seq<Loop<Cemi>>, awaits: seq<Option<nat>>, i: nat, p: Phase)
    requires JobsOk(calls, phases, jobs, awaits, -1, -1) && p.Done? && i < |phases| && !phases[i].Done?
    ensures JobsOk(calls, phases[i := p], jobs, awaits, -1, Served(calls[i]))
  {
  }

  lemma LinkFinish(calls: seq<Call>, phases: seq<Phase>, notices: seq<Notice>, linkUp: bool, i: nat, p: Phase)
    requires LinkOk(calls, phases, notices, linkUp) && p.Done? && i < |phases|
    ensures LinkOk(calls, phases[i := p], notices, linkUp)
    ensures calls[i].caller.ByStart? && !phases[i].Done? ==>
      !linkUp && forall k :: 0 <= k < |calls| && calls[k].caller.ByStart? ==> phases[i := p][k].Done?
  {
    hide Separated, EndedAfter;
  }

  lemma ViewsFinish(phases: seq<Phase>, notices: seq<Notice>, i: nat, p: Phase)
    requires ViewsOk(phases, notices) && i < |phases| && p.Done? && (p.closed ==> CleanView(p.view, notices))
    ensures ViewsOk(phases[i := p], notices)
  {
    hide CleanView;
  }

  lemma CleanFinish(s: Session, i: nat)
    requires i < |s.calls| && Clean(s)
    ensures Clean(Finish(s, i))
    ensures Finish(s, i).phases[i].Done? && CleanView(Finish(s, i).phases[i].view, s.notices)
  {
  }

  /** A frame in transit that is no disconnect returns. */
  lemma FinishKeepsInv(s: Session, i: nat)
    requires Inv(s, i, -1, -1) && i < |s.calls| && !s.calls[i].caller.ByClose?
    requires s.phases[i].ClosingDown? ==> Clean(s)
    ensures Inv(Finish(s, i), -1, -1, Served(s.calls[i]))
    ensures s.calls[i].caller.ByStart? ==> var r := Finish(s, i);
      !r.linkUp && forall k :: 0 <= k < |r.calls| && r.calls[k].caller.ByStart? ==> r.phases[k].Done?
  {
    InTransit(s, i);
    if s.phases[i].ClosingDown? {
      CleanFinish(s, i);
    }
    hide CallsOk, FramesOk, ItemsOk, CloseOk, JobsOk, StampsOk, WireOk, AccountsOk, RequestsOk, LinkOk, ViewsOk,
      CleanView, Without;
    var p := Finish(s, i).phases[i];
    FramesFinish(s.phases, s.loops, i, p);
    ItemsFinish(s.phases, s.sendItems, i, p);
    CloseFinish(s.calls, s.phases, s.closingDown, s.closeFrame, i, p);
    JobsFinish(s.calls, s.phases, s.jobs, s.awaits, i, p);
    LinkFinish(s.calls, s.phases, s.notices, s.linkUp, i, p);
    ViewsFinish(s.phases, s.notices, i, p);
  }

  lemma InTransit(s: Session, i: nat)
    requires Inv(s, i, -1, -1)
    ensures i < |s.calls| && !s.phases[i].Done? && s.loops[i].pc.Returned? && Answerable(s.loops[i])
  {
  }

  // ------------------------------------------------------------ a disconnect frame returns

  lemma {:induction false} LinkShut(
      calls: seq<Call>, phases: seq<Phase>, notices: seq<Notice>, linkUp: bool, n: nat)
    requires LinkOk(calls, phases, notices, linkUp)
    ensures LinkOk(calls, phases, notices + Repeat(OnDisconnect, n), if n == 0 then linkUp else false)
    decreases n
  {
    hide LinkOk;
    if n == 0 {
      assert notices + Repeat(OnDisconnect, n) == notices;
    } else {
      LinkShut(calls, phases, notices, linkUp, n - 1);
      LinkTell(calls, phases, notices + Repeat(OnDisconnect, n - 1), if n == 1 then linkUp else false, OnDisconnect);
      assert notices + Repeat(OnDisconnect, n - 1) + [OnDisconnect] == notices + Repeat(OnDisconnect, n);
    }
  }

  lemma ViewsShut(phases: seq<Phase>, notices: seq<Notice>, n: nat)
    requires ViewsOk(phases, notices)
    ensures ViewsOk(phases, notices + Repeat(OnDisconnect, n))
  {
  }

  lemma ShutKeepsInv(s: Session, t: int, v: int, n: nat)
    requires Inv(s, t, -1, v) && n > 0
    ensures Inv(Shut(s, n), t, -1, v)
  {
    assert ItemsOk(s.phases, []);
    hide CallsOk, FramesOk, ItemsOk, CloseOk, JobsOk, StampsOk, WireOk, AccountsOk, RequestsOk, LinkOk, ViewsOk;
    FramesCancel(s.phases, s.loops, t, s.sendItems);
    WireCancel(s.calls, s.loops, s.wire, s.sendItems);
    StampsReset(s.calls, s.sequence, s.sends, s.epoch, s.epoch + n);
    LinkShut(s.calls, s.phases, s.notices, s.linkUp, n);
    ViewsShut(s.phases, s.notices, n);
  }

  /** The frame that is in transit after the disconnect frame for `c` is done. */
  function Awaiting(c: Closer): int {
    if c.TimedOut? then c.frame else -1
  }

  lemma CloseFinishClosing(
      calls: seq<Call>, phases: seq<Phase>, closingDown: bool, closeFrame: Option<nat>, i: nat, p: Phase)
    requires CloseOk(calls, phases, closingDown, closeFrame, i) && p.Done?
    requires i < |calls| && calls[i].caller.ByClose? && !phases[i].Done?
    ensures CloseOk(calls, phases[i := p], false, None, Awaiting(calls[i].caller.closer))
    ensures calls[i].caller.closer.TimedOut? ==>
      var f := calls[i].caller.closer.frame; f < |phases| && phases[f].ClosingDown?
  {
    assert closeFrame == Some(i);
  }

  lemma FramesFinishClosing(phases: seq<Phase>, loops: seq<Loop<Response>>, i: nat, p: Phase, t: int)
    requires FramesOk(phases, loops, i) && p.Done?
    requires t == -1 || (0 <= t < |phases| && t != i && phases[t].ClosingDown?)
    ensures FramesOk(phases[i := p], loops, t)
  {
  }

  function NotClosing(s: Session): (r: Session) {
    s.(closingDown := false, closeFrame := None)
  }

  /** The disconnect frame in transit is erased; the frame or job that its `close`
      works for is next. */
  lemma FinishClosing(s: Session, i: nat)
    requires Inv(s, i, -1, -1) && i < |s.calls| && s.calls[i].caller.ByClose?
    requires s.phases[i].ClosingDown? ==> Clean(s)
    ensures Inv(NotClosing(Finish(s, i)), Awaiting(s.calls[i].caller.closer), -1, Served(s.calls[i]))
  {
    InTransit(s, i);
    if s.phases[i].ClosingDown? {
      CleanFinish(s, i);
    }
    assert LinkedCall(s.calls[i], i, |s.jobs|);
    hide CallsOk, FramesOk, ItemsOk, CloseOk, JobsOk, StampsOk, WireOk, AccountsOk, RequestsOk, LinkOk, ViewsOk,
      Without, CleanView;
    var c := s.calls[i].caller.closer;
    var p := Finish(s, i).phases[i];
    CloseFinishClosing(s.calls, s.phases, s.closingDown, s.closeFrame, i, p);
    FramesFinishClosing(s.phases, s.loops, i, p, Awaiting(c));
    ItemsFinish(s.phases, s.sendItems, i, p);
    JobsFinish(s.calls, s.phases, s.jobs, s.awaits, i, p);
    LinkFinish(s.calls, s.phases, s.notices, s.linkUp, i, p);
    ViewsFinish(s.phases, s.notices, i, p);
  }

  lemma CloseDoneMeaning(s: Session)
    ensures CloseDone(s) == Shut(NotClosing(s), 1 + OpenSockets(s))
    ensures Clean(CloseDone(s)) && !CloseDone(s).closingDown
  {
    CloseWithoutDisconnectMeaning(s);
    hide CancelAll, CloseWithoutDisconnect;
  }

  /** The disconnect frame in transit returns: its `close` shuts the session down
      and lets its own caller run on. */
  lemma FinishClosingKeepsInv(s: Session, i: nat)
    requires Inv(s, i, -1, -1) && i < |s.calls| && s.calls[i].caller.ByClose?
    requires s.phases[i].ClosingDown? ==> Clean(s)
    ensures var r := CloseDone(Finish(s, i));
      && Inv(r, Awaiting(s.calls[i].caller.closer), -1, Served(s.calls[i]))
      && Clean(r) && !r.closingDown
  {
    hide Inv, Finish, Shut, CloseDone, NotClosing, OpenSockets, Clean;
    var c := s.calls[i].caller.closer;
    var f := Finish(s, i);
    FinishClosing(s, i);
    CloseDoneMeaning(f);
    ShutKeepsInv(NotClosing(f), Awaiting(c), Served(s.calls[i]), 1 + OpenSockets(f));
  }

  // ------------------------------------------------------------ jobs

  lemma AccountsUpdate(calls: seq<Call>, jobs: seq<Loop<Cemi>>, j: nat, l: Loop<Cemi>)
    requires AccountsOk(calls, jobs, -1) && j < |jobs|
    requires l.attempts == jobs[j].attempts || l.attempts == jobs[j].attempts - 1
    ensures AccountsOk(calls, jobs[j := l], if l.attempts == jobs[j].attempts then -1 else j)
  {
    hide FramesOf;
  }

  lemma RequestsUpdate(cemis: seq<Cemi>, jobs: seq<Loop<Cemi>>, requests: map<Key, nat>, j: nat, l: Loop<Cemi>)
    requires RequestsOk(cemis, jobs, requests) && j < |jobs| && !jobs[j].pc.Returned? && !l.pc.Returned?
    ensures RequestsOk(cemis, jobs[j := l], requests)
  {
    hide KeyOf;
  }

  lemma RequestsErase(cemis: seq<Cemi>, jobs: seq<Loop<Cemi>>, requests: map<Key, nat>, j: nat, l: Loop<Cemi>)
    requires RequestsOk(cemis, jobs, requests) && j < |jobs| && !jobs[j].pc.Returned? && l.pc.Returned?
    ensures RequestsOk(cemis, jobs[j := l], map key | key in requests && key != KeyOf(cemis[j]) :: requests[key])
  {
    hide KeyOf;
  }

  lemma JobsUpdate(
      calls: seq<Call>, phases: seq<Phase>, jobs: seq<Loop<Cemi>>, awaits: seq<Option<nat>>, j: nat, l: Loop<Cemi>)
    requires JobsOk(calls, phases, jobs, awaits, -1, -1) && j < |jobs| && Sound(l) && !l.pc.Idle?
    requires l.pc.Transmitting? <==> jobs[j].pc.Transmitting?
    ensures JobsOk(calls, phases, jobs[j := l], awaits, -1, -1)
  {
    hide Sound;
  }

  /** A new state of a job's retry machine that starts no transmission. */
  lemma JobKeepsInv(s: Session, j: nat, l: Loop<Cemi>)
    requires Good(s) && j < |s.jobs| && Sound(l) && !l.pc.Idle? && l.attempts == s.jobs[j].attempts
    requires l.pc.Transmitting? <==> s.jobs[j].pc.Transmitting?
    requires !s.jobs[j].pc.Returned?
    ensures Good(JobStep(s, j, l))
  {
    hide CallsOk, FramesOk, ItemsOk, CloseOk, JobsOk, StampsOk, WireOk, AccountsOk, RequestsOk, LinkOk, ViewsOk,
      KeyOf, Sound;
    AccountsUpdate(s.calls, s.jobs, j, l);
    JobsUpdate(s.calls, s.phases, s.jobs, s.awaits, j, l);
    if l.pc.Returned? {
      RequestsErase(s.cemis, s.jobs, s.requests, j, l);
    } else {
      RequestsUpdate(s.cemis, s.jobs, s.requests, j, l);
    }
  }

  lemma JobsDeliver(
      calls: seq<Call>, phases: seq<Phase>, jobs: seq<Loop<Cemi>>, awaits: seq<Option<nat>>, j: nat, l: Loop<Cemi>)
    requires JobsOk(calls, phases, jobs, awaits, -1, j) && Sound(l) && !l.pc.Idle? && !l.pc.Transmitting?
    ensures j < |jobs| && JobsOk(calls, phases, jobs[j := l], awaits[j := None], -1, -1)
  {
    hide Sound;
  }

  lemma SendReturnedKeepsInv(s: Session, j: nat)
    requires Inv(s, -1, -1, j)
    ensures j < |s.jobs| && Good(SendReturned(s, j))
  {
    JobDelivered(s, j);
    TransmittedSound(s.jobs[j]);
    hide CallsOk, FramesOk, ItemsOk, CloseOk, JobsOk, StampsOk, WireOk, AccountsOk, RequestsOk, LinkOk, ViewsOk, KeyOf,
      Sound, Transmitted;
    var l := Transmitted(s.jobs[j]);
    AccountsUpdate(s.calls, s.jobs, j, l);
    JobsDeliver(s.calls, s.phases, s.jobs, s.awaits, j, l);
    if l.pc.Returned? {
      RequestsErase(s.cemis, s.jobs, s.requests, j, l);
    } else {
      RequestsUpdate(s.cemis, s.jobs, s.requests, j, l);
    }
  }

  lemma JobDelivered(s: Session, j: nat)
    requires Inv(s, -1, -1, j)
    ensures j < |s.jobs| && Sound(s.jobs[j]) && s.jobs[j].pc.Transmitting?
  {
  }

  lemma JobSound(s: Session, j: nat)
    requires Good(s) && j < |s.jobs|
    ensures Sound(s.jobs[j]) && !s.jobs[j].pc.Idle?
  {
  }

  lemma JobsResend(
      calls: seq<Call>, phases: seq<Phase>, jobs: seq<Loop<Cemi>>, awaits: seq<Option<nat>>, j: nat, l: Loop<Cemi>)
    requires JobsOk(calls, phases, jobs, awaits, -1, -1) && j < |jobs| && Sound(l)
    requires l.pc.Transmitting? && jobs[j].pc.Queued?
    ensures JobsOk(calls, phases, jobs[j := l], awaits, j, -1)
  {
    hide Sound;
  }

  lemma JobResumedKeepsInv(s: Session, j: nat)
    requires Good(s) && j < |s.jobs| && s.jobs[j].pc.Queued?
    ensures Good(JobResumed(s, j))
  {
    JobSound(s, j);
    AfterWaitSound(s.jobs[j]);
    var l := AfterWait(s.jobs[j], s.jobs[j].pc.completion);
    hide CallsOk, FramesOk, ItemsOk, CloseOk, JobsOk, StampsOk, WireOk, AccountsOk, RequestsOk, LinkOk, ViewsOk, KeyOf,
      Sound, AfterWait, Send;
    if l.pc.Transmitting? {
      AccountsUpdate(s.calls, s.jobs, j, l);
      JobsResend(s.calls, s.phases, s.jobs, s.awaits, j, l);
      RequestsUpdate(s.cemis, s.jobs, s.requests, j, l);
      SendKeepsInv(JobStep(s, j, l), j);
    } else {
      JobKeepsInv(s, j, l);
    }
  }

  lemma JobsAdd(calls: seq<Call>, phases: seq<Phase>, jobs: seq<Loop<Cemi>>, awaits: seq<Option<nat>>)
    requires JobsOk(calls, phases, jobs, awaits, -1, -1)
    ensures JobsOk(calls, phases, jobs + [Begin(Fresh(), ATTEMPTS)], awaits + [None], |jobs|, -1)
  {
  }

  lemma RequestsAdd(cemis: seq<Cemi>, jobs: seq<Loop<Cemi>>, requests: map<Key, nat>, c: Cemi)
    requires RequestsOk(cemis, jobs, requests) && KeyOf(c) !in requests
    ensures RequestsOk(cemis + [c], jobs + [Begin(Fresh(), ATTEMPTS)], requests[KeyOf(c) := |jobs|])
  {
    hide KeyOf;
    var key := KeyOf(c);
    var pending := requests[key := |jobs|];
    forall k <- pending
      ensures pending[k] <= |jobs| && KeyOf((cemis + [c])[pending[k]]) == k
      ensures !(jobs + [Begin(Fresh(), ATTEMPTS)])[pending[k]].pc.Returned?
    {
      if k != key {
        assert k in requests;
      }
    }
  }

  lemma AccountsAdd(calls: seq<Call>, jobs: seq<Loop<Cemi>>)
    requires AccountsOk(calls, jobs, -1)
    requires forall i :: 0 <= i < |calls| ==> LinkedCall(calls[i], i, |jobs|)
    ensures AccountsOk(calls, jobs + [Begin(Fresh(), ATTEMPTS)], |jobs|)
  {
    NoFrames(calls, |jobs|);
    hide FramesOf;
  }

  lemma SubmitKeepsInv(s: Session, c: Cemi)
    requires Good(s) && KeyOf(c) !in s.requests
    ensures Good(Submit(s, c))
  {
    hide CallsOk, FramesOk, ItemsOk, CloseOk, JobsOk, StampsOk, WireOk, AccountsOk, RequestsOk, LinkOk, ViewsOk,
      KeyOf, Send;
    JobsAdd(s.calls, s.phases, s.jobs, s.awaits);
    RequestsAdd(s.cemis, s.jobs, s.requests, c);
    AccountsAdd(s.calls, s.jobs);
    SendKeepsInv(AddJob(s, c), |s.jobs|);
  }

  // ------------------------------------------------------------ opening a disconnect frame

  function Suspended(phases: seq<Phase>, c: Closer): (r: seq<Phase>)
    requires c.TimedOut? ==> c.frame < |phases|
    ensures |r| == |phases|
  {
    if c.TimedOut? then phases[c.frame := ClosingDown] else phases
  }

  lemma FramesSuspend(phases: seq<Phase>, loops: seq<Loop<Response>>, c: Closer)
    requires FramesOk(phases, loops, Awaiting(c))
    requires c.TimedOut? ==> c.frame < |phases|
    ensures FramesOk(Suspended(phases, c), loops, -1)
  {
  }

  lemma ItemsSuspend(phases: seq<Phase>, items: seq<nat>, c: Closer)
    requires ItemsOk(phases, items) && (c.TimedOut? ==> c.frame < |phases|)
    ensures ItemsOk(Suspended(phases, c), items)
  {
  }

  lemma JobsSuspend(
      calls: seq<Call>, phases: seq<Phase>, jobs: seq<Loop<Cemi>>, awaits: seq<Option<nat>>, v: int, c: Closer)
    requires JobsOk(calls, phases, jobs, awaits, -1, v)
    requires c.TimedOut? ==> c.frame < |phases| && !phases[c.frame].Done?
    ensures JobsOk(calls, Suspended(phases, c), jobs, awaits, -1, v)
  {
  }

  lemma LinkSuspend(calls: seq<Call>, phases: seq<Phase>, notices: seq<Notice>, linkUp: bool, c: Closer)
    requires LinkOk(calls, phases, notices, linkUp)
    requires c.TimedOut? ==> c.frame < |phases| && !phases[c.frame].Done?
    ensures LinkOk(calls, Suspended(phases, c), notices, linkUp)
  {
    hide Separated, EndedAfter;
  }

  lemma ViewsSuspend(phases: seq<Phase>, notices: seq<Notice>, c: Closer)
    requires ViewsOk(phases, notices) && (c.TimedOut? ==> c.frame < |phases|)
    ensures ViewsOk(Suspended(phases, c), notices)
  {
  }

  lemma CloseOpenClosing(calls: seq<Call>, phases: seq<Phase>, closeFrame: Option<nat>, c: Closer, d: Call)
    requires CloseOk(calls, phases, false, closeFrame, Awaiting(c)) && d.caller == ByClose(c)
    requires c.TimedOut? ==> c.frame < |phases| && !phases[c.frame].Done?
    ensures CloseOk(calls + [d], Suspended(phases, c) + [Running], true, Some(|calls|), -1)
  {
  }

  /** The callers that `close` may have. */
  ghost predicate MayClose(s: Session, c: Closer) {
    match c
    case Detached => Good(s)
    case AckFailed(j) => Inv(s, -1, -1, j)
    case TimedOut(f) => Inv(s, f, -1, -1) && f < |s.phases| && s.phases[f].Running?
  }

  function Refused(c: Closer): int {
    if c.AckFailed? then c.job else -1
  }

  lemma CloserInTransit(s: Session, c: Closer)
    requires MayClose(s, c)
    ensures Inv(s, Awaiting(c), -1, Refused(c)) && LinkedCloser(s, c)
    ensures c.TimedOut? ==> c.frame < |s.phases| && !s.phases[c.frame].Done?
  {
    hide Inv;
    if c.AckFailed? {
      JobDelivered(s, c.job);
    }
  }

  /** Which frame each job awaits once `close` works for `c` in frame `i`. */
  function AwaitsAfter(awaits: seq<Option<nat>>, c: Closer, i: nat): seq<Option<nat>>
    requires c.AckFailed? ==> c.job < |awaits|
  {
    if c.AckFailed? then awaits[c.job := Some(i)] else awaits
  }

  function Opening(s: Session, c: Closer): Call {
    Call(Disconnect(s.channelId), ByClose(c), s.epoch, s.sends)
  }

  lemma JobsOpenClosing(s: Session, c: Closer)
    requires MayClose(s, c)
    requires LinkedCloser(s, c)
    ensures JobsOk(s.calls + [Opening(s, c)], Suspended(s.phases, c) + [Running], s.jobs,
                   AwaitsAfter(s.awaits, c, |s.calls|), -1, -1)
  {
    CloserInTransit(s, c);
    JobsSuspend(s.calls, s.phases, s.jobs, s.awaits, Refused(c), c);
    hide Inv, JobsOk;
    match c {
      case AckFailed(j) => JobsOpenFor(s.calls, s.phases, s.jobs, s.awaits, -1, j, Opening(s, c), j);
      case _ => JobsOpen(s.calls, Suspended(s.phases, c), s.jobs, s.awaits, Opening(s, c));
    }
  }

  /** What `close` does to the fields when it opens its frame. */
  lemma CloseFields(s: Session, c: Closer)
    requires LinkedCloser(s, c) && !s.closingDown
    ensures var d := Opening(s, c);
      Close(s, c) == s.(
        closingDown := true,
        closeFrame := Some(|s.calls|),
        calls := s.calls + [d],
        phases := Suspended(s.phases, c) + [Running],
        loops := s.loops + [Begin(Fresh(), ATTEMPTS)],
        sendItems := s.sendItems + [|s.calls|],
        awaits := AwaitsAfter(s.awaits, c, |s.calls|),
        wire := s.wire + [Sent(SocketFor(d.request), d.request, |s.calls|)])
  {
    if c.TimedOut? {
      assert (s.phases + [Running])[c.frame := ClosingDown] == s.phases[c.frame := ClosingDown] + [Running];
    }
  }

  /** `close` opens its disconnect frame and its caller awaits it. */
  lemma CloseOpensFrame(s: Session, c: Closer)
    requires MayClose(s, c) && !s.closingDown
    ensures LinkedCloser(s, c) && Good(Close(s, c))
  {
    var d := Opening(s, c);
    assert CallOk(d);
    CloserInTransit(s, c);
    CloseFields(s, c);
    JobsOpenClosing(s, c);
    hide CallsOk, FramesOk, ItemsOk, CloseOk, JobsOk, StampsOk, WireOk, AccountsOk, RequestsOk, LinkOk, ViewsOk, CallOk,
      MayClose, Close, AwaitsAfter, Suspended;
    CallsOpen(s.calls, d);
    FramesSuspend(s.phases, s.loops, c);
    FramesOpen(Suspended(s.phases, c), s.loops, -1);
    ItemsSuspend(s.phases, s.sendItems, c);
    ItemsOpen(Suspended(s.phases, c), s.sendItems);
    CloseOpenClosing(s.calls, s.phases, s.closeFrame, c, d);
    StampsOpen(s.calls, s.sequence, s.sends, s.epoch, d);
    WireOpen(s.calls, s.loops, s.wire, d);
    AccountsOpen(s.calls, s.jobs, -1, d);
    LinkSuspend(s.calls, s.phases, s.notices, s.linkUp, c);
    LinkOpen(s.calls, Suspended(s.phases, c), s.notices, s.linkUp, d);
    ViewsSuspend(s.phases, s.notices, c);
    ViewsOpen(Suspended(s.phases, c), s.notices);
  }

  // ------------------------------------------------------------ the past of a frame

  /** A frame that awaits `close` does so until it is done, and then remembers it. */
  predicate PhaseLater(p: Phase, q: Phase) {
    match p
    case Running => true
    case ClosingDown => q.ClosingDown? || (q.Done? && q.closed)
    case Done(_, _) => q == p
  }

  ghost predicate PhasesLater(p: seq<Phase>, q: seq<Phase>) {
    |p| <= |q| && forall i :: 0 <= i < |p| ==> PhaseLater(p[i], q[i])
  }

  /** Frames are never forgotten, and their fixed part never changes. */
  ghost predicate Later(s: State, r: State) {
    s.calls <= r.calls && PhasesLater(s.phases, r.phases)
  }

  /** A pending tunnelling request was pending before in the same count, or
      belongs to the current one. */
  ghost predicate ItemsLater(s: State, r: State) {
    forall i <- r.sendItems :: i < |r.calls| && (r.calls[i].request.Tunnel? ==>
      r.calls[i].epoch == r.epoch || (i in s.sendItems && r.epoch == s.epoch))
  }

  /** What every step but a start does to the frames and the pending items. */
  ghost predicate Follows(s: State, r: State) {
    Later(s, r) && ItemsLater(s, r)
  }

  lemma LaterSame(s: State, r: State)
    requires r.calls == s.calls && r.phases == s.phases
    ensures Later(s, r)
  {
  }

  lemma LaterTransitive(s: State, t: State, r: State)
    requires Later(s, t) && Later(t, r)
    ensures Later(s, r)
  {
    forall i | 0 <= i < |s.phases|
      ensures PhaseLater(s.phases[i], r.phases[i])
    {
      assert PhaseLater(s.phases[i], t.phases[i]) && PhaseLater(t.phases[i], r.phases[i]);
    }
  }

  lemma FollowsSame(s: Session, r: State)
    requires r.calls == s.calls && r.phases == s.phases
    requires r.sendItems == [] || (r.sendItems == s.sendItems && r.epoch == s.epoch)
    ensures Follows(s, r)
  {
    LaterSame(s, r);
  }

  lemma ItemsTransitive(s: State, t: State, r: State)
    requires ItemsLater(s, t) && ItemsLater(t, r) && t.calls <= r.calls
    ensures ItemsLater(s, r)
  {
    forall i <- r.sendItems
      ensures i < |r.calls| && (r.calls[i].request.Tunnel? ==>
        r.calls[i].epoch == r.epoch || (i in s.sendItems && r.epoch == s.epoch))
    {
      if i in t.sendItems {
        assert r.calls[i] == t.calls[i];
      }
    }
  }

  lemma FollowsTransitive(s: State, t: State, r: State)
    requires Follows(s, t) && Follows(t, r)
    ensures Follows(s, r)
  {
    LaterTransitive(s, t, r);
    ItemsTransitive(s, t, r);
    hide ItemsLater, PhasesLater;
  }

  lemma FinishFollows(s: Session, i: nat)
    requires i < |s.calls| && !s.phases[i].Done?
    ensures Follows(s, Finish(s, i))
  {
    hide Without;
    assert Later(s, Finish(s, i));
    var items := Without(s.sendItems, i);
    assert forall k <- items :: k in s.sendItems && k < |s.calls|;
    assert Finish(s, i).sendItems == items;
  }

  lemma OpenFollows(s: Session, q: Request, caller: Caller)
    requires LinkedCall(Call(q, caller, s.epoch, s.sends), |s.calls|, |s.jobs|)
    ensures Follows(s, OpenFrame(s, q, caller))
  {
    hide LinkedCall;
  }

  lemma CloseFollows(s: Session, c: Closer)
    requires LinkedCloser(s, c) && !s.closingDown && (c.TimedOut? ==> s.phases[c.frame].Running?)
    ensures Follows(s, Close(s, c))
  {
    CloseFields(s, c);
    hide Close;
  }

  lemma SendReturnedFollows(s: Session, j: nat)
    requires j < |s.jobs|
    ensures Follows(s, SendReturned(s, j))
  {
    FollowsSame(s, SendReturned(s, j));
    hide Transmitted, Follows;
  }

  lemma CloseDoneFollows(s: Session)
    ensures Follows(s, CloseDone(s))
  {
    CloseDoneMeaning(s);
    FollowsSame(s, CloseDone(s));
    hide CloseDone, Follows;
  }

  lemma StartedFollows(s: Session, answer: Option<Response>)
    ensures Follows(s, Started(s, answer))
  {
    FollowsSame(s, Started(s, answer));
    hide Follows;
  }

  // ------------------------------------------------------------ returning through awaiting callers

  /** The callers that `close` may return to. */
  ghost predicate MayResume(s: Session, c: Closer) {
    match c
    case Detached => Good(s)
    case AckFailed(j) => Inv(s, -1, -1, j)
    case TimedOut(f) => MayReturn(s, f)
  }

  /** A frame in transit that has not awaited `close`, or has and finds the
      session shut down. */
  ghost predicate MayReturn(s: Session, i: nat) {
    Inv(s, i, -1, -1) && i < |s.calls| && (s.phases[i].ClosingDown? ==> Clean(s))
  }

  lemma StartedKeepsInv(s: Session, answer: Option<Response>)
    requires Good(s) && !s.linkUp && (answer.Some? ==> Parsable(answer.value))
    requires forall k :: 0 <= k < |s.calls| && s.calls[k].caller.ByStart? ==> s.phases[k].Done?
    ensures Good(Started(s, answer))
  {
    match answer {
      case Some(ConnectResponse(channel, _, address)) =>
        hide CallsOk, FramesOk, ItemsOk, CloseOk, JobsOk, StampsOk, WireOk, AccountsOk, RequestsOk, LinkOk, ViewsOk;
        TellKeepsInv(s.(channelId := channel, knxAddress := address), OnConnect, -1, -1);
      case _ =>
        ResetKeepsInv(s, -1, -1);
    }
  }

  lemma {:induction false} ReturnKeepsInv(s: Session, i: nat)
    requires MayReturn(s, i)
    ensures Good(ReturnFrame(s, i)) && Follows(s, ReturnFrame(s, i))
    decreases i + 1, 0
  {
    hide Inv, Good, Finish, Started, Close, SendReturned, CloseDone, Clean, AckRefused, Follows;
    var t := Finish(s, i);
    InTransit(s, i);
    FinishFollows(s, i);
    assert LinkedCall(s.calls[i], i, |s.jobs|);
    match s.calls[i].caller {
      case ByClose(c) =>
        FinishClosingKeepsInv(s, i);
        GoodMeaning(CloseDone(t));
        CloseDoneFollows(t);
        FollowsTransitive(s, t, CloseDone(t));
        ClosedKeepsInv(CloseDone(t), c);
        FollowsTransitive(s, CloseDone(t), ReturnFrame(s, i));
      case ByStart =>
        FinishKeepsInv(s, i);
        GoodMeaning(t);
        StartedKeepsInv(t, s.loops[i].response);
        StartedFollows(t, s.loops[i].response);
        FollowsTransitive(s, t, ReturnFrame(s, i));
      case BySend(j) =>
        FinishKeepsInv(s, i);
        if AckRefused(s.loops[i].response) {
          CloseKeepsInv(t, AckFailed(j));
        } else {
          SendReturnedKeepsInv(t, j);
          SendReturnedFollows(t, j);
        }
        FollowsTransitive(s, t, ReturnFrame(s, i));
      case _ =>
        FinishKeepsInv(s, i);
        GoodMeaning(t);
    }
  }

  lemma GoodMeaning(s: Session)
    ensures Good(s) <==> Inv(s, -1, -1, -1)
  {
    hide Inv;
  }

  lemma ResumedCloser(s: Session, c: Closer)
    requires MayResume(s, c)
    ensures LinkedCloser(s, c)
  {
    hide Inv, Clean;
    if c.AckFailed? {
      JobDelivered(s, c.job);
    }
  }

  lemma ClosedKeepsInv(s: Session, c: Closer)
    requires MayResume(s, c)
    ensures LinkedCloser(s, c) && Good(Closed(s, c)) && Follows(s, Closed(s, c))
    decreases Depth(c), 1
  {
    hide Inv, Good, MayReturn, ReturnFrame, SendReturned, Follows;
    ResumedCloser(s, c);
    match c {
      case Detached =>
        FollowsSame(s, s);
      case AckFailed(j) =>
        SendReturnedKeepsInv(s, j);
        SendReturnedFollows(s, j);
      case TimedOut(f) =>
        ReturnKeepsInv(s, f);
    }
  }

  lemma CloseKeepsInv(s: Session, c: Closer)
    requires MayClose(s, c)
    ensures LinkedCloser(s, c) && Good(Close(s, c)) && Follows(s, Close(s, c))
    decreases Depth(c), 2
  {
    CloserInTransit(s, c);
    hide Inv, Good, Clean, Closed, Follows;
    if s.closingDown {
      ClosedKeepsInv(s, c);
    } else {
      CloseOpensFrame(s, c);
      CloseFollows(s, c);
    }
  }

  // ------------------------------------------------------------ every step

  lemma FrameFits(s: Session, i: nat)
    requires Good(s) && i < |s.calls|
    ensures Sound(s.loops[i]) && Fitting(s.phases[i], s.loops[i]) && Answerable(s.loops[i])
  {
  }

  /** The frame whose datagram was handed over waits on or is in transit. */
  lemma AfterSending(s: Session, i: nat)
    requires Good(s) && i < |s.calls| && s.loops[i].pc.Transmitting?
    ensures var l := Transmitted(s.loops[i]);
      if l.pc.Returned? then MayReturn(WithLoop(s, i, l), i) else Good(WithLoop(s, i, l))
  {
    FrameFits(s, i);
    TransmittedSound(s.loops[i]);
    LoopKeepsInv(s, i, Transmitted(s.loops[i]));
    hide Inv, Sound, Transmitted;
  }

  /** The frame whose wait ended sends again or is in transit. */
  lemma AfterWaiting(s: Session, i: nat)
    requires Good(s) && i < |s.calls| && s.loops[i].pc.Queued?
    ensures var l := AfterWait(s.loops[i], s.loops[i].pc.completion); var t := WithLoop(s, i, l);
      if l.pc.Transmitting? then Good(Transmit(t, i)) else MayReturn(t, i) && MayClose(t, TimedOut(i))
  {
    FrameFits(s, i);
    AfterWaitSound(s.loops[i]);
    var l := AfterWait(s.loops[i], s.loops[i].pc.completion);
    hide Inv, Sound, AfterWait;
    if l.pc.Transmitting? {
      ResendKeepsInv(s, i, l);
    } else {
      LoopKeepsInv(s, i, l);
    }
  }

  lemma FrameSentKeepsInv(s: Session, i: nat)
    requires Good(s) && i < |s.calls| && s.loops[i].pc.Transmitting?
    ensures Good(FrameSent(s, i))
  {
    hide Good, Transmitted, ReturnFrame, WithLoop, MayReturn;
    AfterSending(s, i);
    var l := Transmitted(s.loops[i]);
    if l.pc.Returned? {
      ReturnKeepsInv(WithLoop(s, i, l), i);
    }
  }

  lemma FrameResumedKeepsInv(s: Session, i: nat)
    requires Good(s) && i < |s.calls| && s.loops[i].pc.Queued?
    ensures Good(FrameResumed(s, i))
  {
    hide Good, AfterWait, ReturnFrame, Close, WithLoop, Transmit, MayReturn, MayClose;
    AfterWaiting(s, i);
    var l := AfterWait(s.loops[i], s.loops[i].pc.completion);
    var t := WithLoop(s, i, l);
    if l.pc.Transmitting? {
    } else if l.state == Timeout {
      CloseKeepsInv(t, TimedOut(i));
    } else {
      ReturnKeepsInv(t, i);
    }
  }

  lemma TimerKeepsInv(s: Session, i: nat, c: Completion)
    requires Good(s) && Waits(s, i) && c != Aborted
    ensures Good(WithLoop(s, i, TimerDone(s.loops[i], c)))
  {
    FrameFits(s, i);
    TimerSound(s.loops[i], c);
    LoopKeepsInv(s, i, TimerDone(s.loops[i], c));
  }

  lemma JobTimerKeepsInv(s: Session, j: nat, c: Completion)
    requires Good(s) && JobWaits(s, j) && c != Aborted
    ensures Good(JobStep(s, j, TimerDone(s.jobs[j], c)))
  {
    JobSound(s, j);
    TimerSound(s.jobs[j], c);
    JobKeepsInv(s, j, TimerDone(s.jobs[j], c));
  }

  lemma ReceivedKeepsInv(s: Session, r: Response)
    requires Good(s) && Parsable(r)
    ensures Good(Received(s, r))
  {
    hide Inv, FirstMatch;
    match FirstMatch(s.calls, s.sendItems, r) {
      case Some(i) =>
        assert i in s.sendItems;
        FrameFits(s, i);
        ReplySound(s.loops[i], r);
        LoopKeepsInv(s, i, Replied(s.loops[i], r));
      case None =>
    }
  }

  lemma PendingJob(s: Session, key: Key)
    requires Good(s) && key in s.requests
    ensures s.requests[key] < |s.jobs| && !s.jobs[s.requests[key]].pc.Returned?
  {
  }

  lemma ConfirmedKeepsInv(s: Session, c: Cemi)
    requires Good(s)
    ensures Good(Confirmed(s, c))
  {
    hide Inv, KeyOf;
    if c.messageCode == L_DATA_CON && c.source == s.knxAddress && KeyOf(c) in s.requests {
      var j := s.requests[KeyOf(c)];
      PendingJob(s, KeyOf(c));
      JobSound(s, j);
      ReplySound(s.jobs[j], c);
      JobKeepsInv(s, j, Replied(s.jobs[j], c));
    }
  }

  lemma WireOther(calls: seq<Call>, loops: seq<Loop<Response>>, wire: seq<Datagram>, d: Datagram)
    requires WireOk(calls, loops, wire) && !d.Sent?
    ensures WireOk(calls, loops, wire + [d])
  {
    hide SendsOf;
    forall k | 0 <= k < |calls|
      ensures SendsOf(wire + [d], k) == SendsOf(wire, k)
    {
      SendsAppend(wire, d, k);
    }
  }

  /** A datagram that answers the gateway. */
  lemma AnswerKeepsInv(s: Session, d: Datagram)
    requires Good(s) && !d.Sent?
    ensures Good(s.(wire := s.wire + [d]))
  {
    hide CallsOk, FramesOk, ItemsOk, CloseOk, JobsOk, StampsOk, WireOk, AccountsOk, RequestsOk, LinkOk, ViewsOk;
    WireOther(s.calls, s.loops, s.wire, d);
  }

  lemma ReceivedTunnelKeepsInv(s: Session, t: TunnelRequest)
    requires Good(s)
    ensures Good(ReceivedTunnel(s, t))
  {
    hide Inv, Tell, Confirmed;
    var a := s.(wire := s.wire + [Acknowledged(t.header)]);
    AnswerKeepsInv(s, Acknowledged(t.header));
    TellKeepsInv(a, OnIncomingCemi(t.cemi), -1, -1);
    ConfirmedKeepsInv(Tell(a, OnIncomingCemi(t.cemi)), t.cemi);
  }

  lemma ReceivedDisconnectKeepsInv(s: Session, channel: byte)
    requires Good(s)
    ensures Good(ReceivedDisconnect(s, channel))
  {
    hide Inv, Tell, Reset;
    if channel == s.channelId {
      var a := s.(wire := s.wire + [Disconnected(channel)]);
      AnswerKeepsInv(s, Disconnected(channel));
      ResetKeepsInv(a, -1, -1);
      TellKeepsInv(Reset(a), OnDisconnect, -1, -1);
    }
  }

  lemma OpenedKeepsInv(s: Session)
    requires Good(s)
    ensures Good(Opened(s))
  {
    hide CallsOk, FramesOk, ItemsOk, CloseOk, JobsOk, StampsOk, WireOk, AccountsOk, RequestsOk, LinkOk, ViewsOk;
    StampsReset(s.calls, s.sequence, s.sends, s.epoch, s.epoch + 1);
  }

  lemma OpenedMayStart(s: Session)
    requires MayStart(s)
    ensures MayStart(Opened(s))
  {
  }

  lemma StartKeepsInv(s: Session)
    requires Good(s) && MayStart(s)
    ensures Good(Start(s))
  {
    hide Good, MayStart, Opened, OpenFrame;
    OpenedKeepsInv(s);
    OpenedMayStart(s);
    OpenKeepsInv(Opened(s), Connect, ByStart);
  }

  lemma SocketsKeepInv(s: Session, controlOpen: bool, dataOpen: bool)
    requires Good(s)
    ensures Good(s.(controlOpen := controlOpen, dataOpen := dataOpen))
  {
    hide CallsOk, FramesOk, ItemsOk, CloseOk, JobsOk, StampsOk, WireOk, AccountsOk, RequestsOk, LinkOk, ViewsOk;
  }

  /** Every step of the session keeps the invariant. */
  lemma NextKeepsInv(s: Session, a: Label)
    requires Good(s) && Possible(s, a)
    ensures Good(Next(s, a))
  {
    hide Good, Start, OpenFrame, Close, Submit, FrameSent, FrameResumed, JobStep, JobResumed, Received, ReceivedTunnel,
      ReceivedDisconnect, WithLoop, MayStart, Throws, KeyOf;
    match a {
      case DoStart => StartKeepsInv(s);
      case DoDescribe => OpenKeepsInv(s, Description, ByDescription);
      case DoKeepAlive => OpenKeepsInv(s, ConnectState(s.channelId), ByKeepAlive);
      case DoClose => CloseKeepsInv(s, Detached);
      case DoSubmit(c) => SubmitKeepsInv(s, c);
      case FrameSendDone(i) => FrameSentKeepsInv(s, i);
      case FrameExpire(i) => TimerKeepsInv(s, i, Expired);
      case FrameFail(i) => TimerKeepsInv(s, i, Failed);
      case FrameResume(i) => FrameResumedKeepsInv(s, i);
      case JobExpire(j) => JobTimerKeepsInv(s, j, Expired);
      case JobFail(j) => JobTimerKeepsInv(s, j, Failed);
      case JobResume(j) => JobResumedKeepsInv(s, j);
      case Receive(r) => ReceivedKeepsInv(s, r);
      case ReceiveTunnel(t) => ReceivedTunnelKeepsInv(s, t);
      case ReceiveDisconnect(channel) => ReceivedDisconnectKeepsInv(s, channel);
      case ReadError(socket) =>
        SocketsKeepInv(s, false, s.dataOpen);
        SocketsKeepInv(s, s.controlOpen, false);
    }
  }

  lemma InitialIsGood()
    ensures Good(INITIAL)
  {
    assert Cast8(0) == 0;
  }

  lemma HistoryStep(states: seq<Session>, labels: seq<Label>, k: nat)
    requires IsHistory(states, labels) && k + 1 < |states|
    ensures k < |labels| && Possible(states[k], labels[k]) && states[k + 1] == Next(states[k], labels[k])
  {
    hide Possible, Next;
  }

  /** The invariant holds in every state of every run. */
  lemma {:induction false} HistoryIsGood(states: seq<Session>, labels: seq<Label>, k: nat)
    requires IsHistory(states, labels) && k < |states|
    ensures Good(states[k])
  {
    hide Good, Possible, Next;
    if k == 0 {
      InitialIsGood();
    } else {
      HistoryIsGood(states, labels, k - 1);
      HistoryStep(states, labels, k - 1);
      NextKeepsInv(states[k - 1], labels[k - 1]);
    }
  }
}
