/** How suspended calls return: what a frame that timed out finds, when `start`
    tells a connection, and what the sockets are then. */
module SessionReturns {
  import opened Bytes
  import opened Wrappers
  import opened KnxAddresses
  import opened CemiFrames
  import opened TunnelFrames
  import opened AsyncMessageStates
  import opened ClientRouting
  import opened TunnelingSession
  import opened SessionInvariants
  import opened SessionTheorems

  // ------------------------------------------------------------ one frame at a time

  /** Only frame `d` changed its phase; the sockets and a close under way stay as
      they were, and what is not pending keeps its retry machine. */
  ghost predicate Beside(s: State, r: State, d: nat) {
    && |s.phases| <= |r.phases| && s.calls <= r.calls
    && (forall x :: 0 <= x < |s.phases| && x != d ==> r.phases[x] == s.phases[x])
    && r.controlOpen == s.controlOpen && r.dataOpen == s.dataOpen
    && (s.closeFrame.Some? ==> r.closeFrame == s.closeFrame)
    && (s.sendItems == [] ==> s.loops <= r.loops)
  }

  lemma FinishBeside(s: Session, d: nat)
    requires d < |s.calls|
    ensures Beside(s, Finish(s, d), d)
    ensures s.sendItems == [] ==> Finish(s, d).sendItems == []
  {
  }

  lemma BesideTwice(s: State, t: State, r: State, d: nat)
    requires Beside(s, t, d) && Beside(t, r, d) && (s.sendItems == [] ==> t.sendItems == [])
    ensures Beside(s, r, d)
  {
  }

  lemma StartedBeside(s: Session, answer: Option<Response>, d: nat)
    ensures Beside(s, Started(s, answer), d)
  {
    CancelNone(s.loops);
    hide Linked, CancelAll;
  }

  lemma SendReturnedBeside(s: Session, j: nat, d: nat)
    requires j < |s.jobs|
    ensures Beside(s, SendReturned(s, j), d)
  {
    hide Transmitted;
  }

  lemma OpensBeside(s: Session, j: nat, d: nat)
    requires j < |s.jobs| && !s.closingDown && s.closeFrame.None?
    ensures Beside(s, Close(s, AckFailed(j)), d)
  {
    CloseFields(s, AckFailed(j));
    hide Close;
  }

  lemma RefusedBeside(s: Session, j: nat, d: nat)
    requires j < |s.jobs| && s.closingDown == s.closeFrame.Some?
    ensures Beside(s, Close(s, AckFailed(j)), d)
  {
    hide Close, Closed, SendReturned, Beside;
    if s.closingDown {
      CloseTwice(s, AckFailed(j));
      ClosedRefused(s, j);
      SendReturnedBeside(s, j, d);
    } else {
      OpensBeside(s, j, d);
    }
  }

  /** A frame that no disconnect is returns without touching the others. */
  lemma ReturnBeside(s: Session, d: nat)
    requires d < |s.calls| && !s.calls[d].caller.ByClose? && s.closingDown == s.closeFrame.Some?
    ensures Beside(s, ReturnFrame(s, d), d)
  {
    assert LinkedCall(s.calls[d], d, |s.jobs|);
    hide Beside, Finish, Started, SendReturned, Close, Closed, CloseDone, AckRefused, Linked;
    var t := Finish(s, d);
    var answer := s.loops[d].response;
    FinishBeside(s, d);
    match s.calls[d].caller {
      case ByStart =>
        StartedBeside(t, answer, d);
        BesideTwice(s, t, ReturnFrame(s, d), d);
      case BySend(j) =>
        if AckRefused(answer) {
          RefusedBeside(t, j, d);
        } else {
          SendReturnedBeside(t, j, d);
        }
        BesideTwice(s, t, ReturnFrame(s, d), d);
      case _ =>
    }
  }

  lemma ClosingAgrees(s: Session, t: int)
    requires Inv(s, t, -1, -1)
    ensures s.closingDown == s.closeFrame.Some?
    ensures forall i :: 0 <= i < |s.calls| && s.calls[i].caller.ByClose? && !s.phases[i].Done? ==>
      s.closeFrame == Some(i)
    ensures forall i :: 0 <= i < |s.phases| && s.phases[i].ClosingDown? && i != t ==>
      s.closeFrame.Some? && s.closeFrame.value < |s.calls|
      && s.calls[s.closeFrame.value].caller == ByClose(TimedOut(i)) && i < s.closeFrame.value
  {
    forall i | 0 <= i < |s.phases| && s.phases[i].ClosingDown? && i != t
      ensures s.closeFrame.Some? && s.closeFrame.value < |s.calls|
        && s.calls[s.closeFrame.value].caller == ByClose(TimedOut(i)) && i < s.closeFrame.value
    {
      assert LinkedCall(s.calls[s.closeFrame.value], s.closeFrame.value, |s.jobs|);
    }
  }

  /** The session when the disconnect frame `d` is done, just before the caller of
      its `close` runs on. */
  lemma ShutFields(s: Session, d: nat)
    requires d < |s.calls|
    ensures var r := ShutAfter(s, d);
      && r.calls == s.calls && |r.phases| == |s.phases|
      && r.phases[d].Done?
      && (forall x :: 0 <= x < |s.phases| && x != d ==> r.phases[x] == s.phases[x])
      && r.loops == CancelAll(s.loops, Without(s.sendItems, d))
      && r.sendItems == [] && !r.controlOpen && !r.dataOpen && r.closeFrame.None? && !r.closingDown
      && r.linkUp == false
  {
    hide CancelAll, Without;
  }

  lemma ReturnOfDisconnect(s: Session, d: nat)
    requires d < |s.calls| && s.calls[d].caller.ByClose?
    ensures LinkedCloser(ShutAfter(s, d), s.calls[d].caller.closer)
    ensures ReturnFrame(s, d) == Closed(ShutAfter(s, d), s.calls[d].caller.closer)
  {
    hide ReturnFrame, Closed, ShutAfter, CloseDone, Finish;
    ShutAfterMeaning(s, d);
    ClosingLinked(s, d);
    ReturnOfClosing(s, d, s.calls[d].caller.closer);
  }

  /** The frame that awaited the disconnect frame `d` returns as the last thing
      in its step. */
  lemma ReturnOfAwaiting(s: Session, d: nat, i: nat)
    requires d < |s.calls| && s.calls[d].caller == ByClose(TimedOut(i))
    ensures i < d && ReturnFrame(s, d) == ReturnFrame(ShutAfter(s, d), i)
  {
    assert LinkedCall(s.calls[d], d, |s.jobs|);
    hide ReturnFrame, Closed, ShutAfter;
    ReturnOfDisconnect(s, d);
    ShutFields(s, d);
    ClosedFrame(ShutAfter(s, d), i);
  }

  // ------------------------------------------------------------ what the event loop resumes

  /** The retry machine goes on. */
  ghost predicate GoesOn(s: Session, r: Session) {
    r.phases == s.phases && KeepsSockets(s, r) && r.closeFrame == s.closeFrame
  }

  /** Frame `d` times out and opens a disconnect frame. */
  ghost predicate OpensClose(s: Session, d: nat, r: Session) {
    !s.closingDown && MayClose(s, TimedOut(d)) && r == Close(s, TimedOut(d))
  }

  ghost predicate Returns(s: Session, d: nat, r: Session) {
    MayReturn(s, d) && r == ReturnFrame(s, d)
  }

  /** What resuming frame `d` comes to, when its retry machine is then at `l`. */
  ghost predicate Proceeds(s: Session, d: nat, l: Loop<Response>, r: Session) {
    && d < |s.calls| && s.phases[d].Running? && l.response == s.loops[d].response
    && (GoesOn(s, r) || OpensClose(WithLoop(s, d, l), d, r) || Returns(WithLoop(s, d, l), d, r))
  }

  ghost predicate KeepsSockets(s: State, r: State) {
    r.controlOpen == s.controlOpen && r.dataOpen == s.dataOpen
  }

  lemma SendDoneProceeds(s: Session, d: nat)
    requires Good(s) && d < |s.calls| && s.loops[d].pc.Transmitting?
    ensures Proceeds(s, d, Transmitted(s.loops[d]), FrameSent(s, d))
  {
    FrameFits(s, d);
    TransmittedSound(s.loops[d]);
    AfterSending(s, d);
    hide Good, MayReturn, MayClose, Transmitted, ReturnFrame, Close;
  }

  lemma ResumeProceeds(s: Session, d: nat)
    requires Good(s) && d < |s.calls| && s.loops[d].pc.Queued?
    ensures Proceeds(s, d, AfterWait(s.loops[d], s.loops[d].pc.completion), FrameResumed(s, d))
  {
    FrameFits(s, d);
    AfterWaitSound(s.loops[d]);
    AfterWaiting(s, d);
    hide Good, MayReturn, MayClose, AfterWait, ReturnFrame, Close;
    var t := WithLoop(s, d, AfterWait(s.loops[d], s.loops[d].pc.completion));
    if s.closingDown {
      CloseTwice(t, TimedOut(d));
      ClosedFrame(t, d);
    }
  }

  predicate Resumes(a: Label) {
    a.FrameSendDone? || a.FrameResume?
  }

  lemma ResumedProceeds(s: Session, a: Label)
    returns (d: nat, l: Loop<Response>)
    requires Good(s) && Possible(s, a) && Resumes(a)
    ensures Proceeds(s, d, l, Next(s, a))
  {
    hide Good, Proceeds, FrameSent, FrameResumed, Transmitted, AfterWait;
    match a {
      case FrameSendDone(i) =>
        SendDoneProceeds(s, i);
        d, l := i, Transmitted(s.loops[i]);
      case FrameResume(i) =>
        ResumeProceeds(s, i);
        d, l := i, AfterWait(s.loops[i], s.loops[i].pc.completion);
    }
  }

  /** Every other step leaves the frames it finds in their phases. */
  ghost predicate Keeps(s: State, r: State) {
    s.phases <= r.phases && (s.closeFrame.Some? ==> r.closeFrame == s.closeFrame)
  }

  lemma OpenKeeps(s: Session, q: Request, caller: Caller)
    requires LinkedCall(Call(q, caller, s.epoch, s.sends), |s.calls|, |s.jobs|)
    ensures Keeps(s, OpenFrame(s, q, caller)) && KeepsSockets(s, OpenFrame(s, q, caller))
  {
  }

  lemma DetachedCloseKeeps(s: Session)
    requires Good(s)
    ensures Keeps(s, Close(s, Detached)) && KeepsSockets(s, Close(s, Detached))
  {
    ClosingAgrees(s, -1);
    if !s.closingDown {
      CloseFields(s, Detached);
    }
    hide Good;
  }

  lemma KeepsTwice(s: State, t: State, r: State)
    requires Keeps(s, t) && Keeps(t, r) && KeepsSockets(s, t) && KeepsSockets(t, r)
    ensures Keeps(s, r) && KeepsSockets(s, r)
  {
  }

  lemma SendKeeps(s: Session, j: nat)
    requires j < |s.jobs|
    ensures Keeps(s, Send(s, j)) && KeepsSockets(s, Send(s, j))
  {
    hide Successor;
  }

  lemma SubmitKeeps(s: Session, c: Cemi)
    ensures Keeps(s, Submit(s, c)) && KeepsSockets(s, Submit(s, c))
  {
    var t := AddJob(s, c);
    assert Keeps(s, t) && KeepsSockets(s, t);
    hide Keeps, KeepsSockets, Send, AddJob;
    SendKeeps(t, |s.jobs|);
    KeepsTwice(s, t, Submit(s, c));
  }

  lemma JobStepKeeps(s: Session, j: nat, l: Loop<Cemi>)
    requires j < |s.jobs|
    ensures Keeps(s, JobStep(s, j, l)) && KeepsSockets(s, JobStep(s, j, l))
  {
    hide KeyOf;
  }

  lemma JobResumedKeeps(s: Session, j: nat)
    requires j < |s.jobs| && s.jobs[j].pc.Queued?
    ensures Keeps(s, JobResumed(s, j)) && KeepsSockets(s, JobResumed(s, j))
  {
    hide Keeps, KeepsSockets, Send, JobStep, AfterWait;
    var l := AfterWait(s.jobs[j], s.jobs[j].pc.completion);
    var t := JobStep(s, j, l);
    JobStepKeeps(s, j, l);
    if l.pc.Transmitting? {
      SendKeeps(t, j);
      KeepsTwice(s, t, Send(t, j));
    }
  }

  lemma WithLoopKeeps(s: Session, i: nat, l: Loop<Response>)
    requires i < |s.calls|
    ensures Keeps(s, WithLoop(s, i, l)) && KeepsSockets(s, WithLoop(s, i, l))
  {
  }

  lemma StartKeeps(s: Session)
    ensures Keeps(s, Start(s))
  {
  }

  lemma ReadErrorKeeps(s: Session)
    ensures Keeps(s, s.(controlOpen := false)) && Keeps(s, s.(dataOpen := false))
  {
  }

  lemma ReceivedKeeps(s: Session, r: Response)
    ensures Keeps(s, Received(s, r)) && KeepsSockets(s, Received(s, r))
  {
    hide Replied, FirstMatch, Linked;
  }

  lemma ReceivedTunnelKeeps(s: Session, t: TunnelRequest)
    ensures Keeps(s, ReceivedTunnel(s, t)) && KeepsSockets(s, ReceivedTunnel(s, t))
  {
    hide KeyOf, Replied, Linked;
  }

  lemma ReceivedDisconnectKeeps(s: Session, channel: byte)
    ensures Keeps(s, ReceivedDisconnect(s, channel)) && KeepsSockets(s, ReceivedDisconnect(s, channel))
  {
    hide CancelAll, Linked;
  }

  lemma OtherStepsKeep(s: Session, a: Label)
    requires Good(s) && Possible(s, a) && !Resumes(a)
    ensures Keeps(s, Next(s, a))
    ensures !a.DoStart? && !a.ReadError? ==> KeepsSockets(s, Next(s, a))
  {
    hide Good, Start, OpenFrame, Close, Submit, JobStep, JobResumed, WithLoop, Received, ReceivedTunnel,
      ReceivedDisconnect, KeyOf, TimerDone, MayStart, Throws, Keeps, KeepsSockets;
    match a {
      case DoStart => StartKeeps(s);
      case DoDescribe => OpenKeeps(s, Description, ByDescription);
      case DoKeepAlive => OpenKeeps(s, ConnectState(s.channelId), ByKeepAlive);
      case DoClose => DetachedCloseKeeps(s);
      case DoSubmit(c) => SubmitKeeps(s, c);
      case FrameExpire(i) => WithLoopKeeps(s, i, TimerDone(s.loops[i], Expired));
      case FrameFail(i) => WithLoopKeeps(s, i, TimerDone(s.loops[i], Failed));
      case JobExpire(j) => JobStepKeeps(s, j, TimerDone(s.jobs[j], Expired));
      case JobFail(j) => JobStepKeeps(s, j, TimerDone(s.jobs[j], Failed));
      case JobResume(j) => JobResumedKeeps(s, j);
      case Receive(r) => ReceivedKeeps(s, r);
      case ReceiveTunnel(t) => ReceivedTunnelKeeps(s, t);
      case ReceiveDisconnect(channel) => ReceivedDisconnectKeeps(s, channel);
      case ReadError(_) => ReadErrorKeeps(s);
    }
  }

  // ------------------------------------------------------------ what awaited a close

  /** Every item pending in `s` but the disconnect request itself is cancelled. */
  ghost predicate CancelsPending(s: Session, r: Session) {
    && s.closeFrame.Some? && |s.loops| <= |r.loops|
    && forall x <- s.sendItems :: x != s.closeFrame.value ==> r.loops[x] == Cancelled(s.loops[x])
  }

  /** A step in which frame `i` stops awaiting `close` and returns. */
  predicate StopsAwaiting(s: Session, r: Session, i: nat) {
    i < |s.phases| <= |r.phases| && s.phases[i].ClosingDown? && r.phases[i].Done?
  }

  lemma ReturnedCancels(s: Session, d: nat, l: Loop<Response>, i: nat)
    requires d < |s.calls| && s.calls[d].caller == ByClose(TimedOut(i))
    requires s.closeFrame == Some(d) && i < d && !s.calls[i].caller.ByClose?
    ensures CancelsPending(s, ReturnFrame(WithLoop(s, d, l), d))
  {
    var t := WithLoop(s, d, l);
    var shut := ShutAfter(t, d);
    var r := ReturnFrame(t, d);
    ReturnOfAwaiting(t, d, i);
    ShutFields(t, d);
    hide ReturnFrame, ShutAfter;
    ReturnBeside(shut, i);
    assert shut.loops <= r.loops;
    forall x <- s.sendItems | x != d
      ensures r.loops[x] == Cancelled(s.loops[x])
    {
      assert x < |s.loops|;
      assert x in Without(s.sendItems, d);
      assert r.loops[x] == shut.loops[x];
    }
  }

  lemma OthersGoOnAwaiting(s: Session, d: nat, r: Session, i: nat)
    requires Returns(s, d, r) && d < |s.calls| && !s.calls[d].caller.ByClose? && s.phases[d].Running?
    requires s.closingDown == s.closeFrame.Some?
    ensures !StopsAwaiting(s, r, i)
  {
    hide MayReturn, ReturnFrame;
    ReturnBeside(s, d);
  }

  lemma OpensOnlyOnce(s: Session, d: nat, r: Session)
    requires OpensClose(s, d, r)
    ensures !s.closingDown
  {
  }

  lemma OnlyItsDisconnectStops(s: Session, d: nat, l: Loop<Response>, r: Session, i: nat)
    requires Good(s) && Proceeds(s, d, l, r) && StopsAwaiting(s, r, i)
    ensures s.closeFrame == Some(d) && i < d && d < |s.calls|
    ensures s.calls[d].caller == ByClose(TimedOut(i)) && !s.calls[i].caller.ByClose?
    ensures Returns(WithLoop(s, d, l), d, r)
  {
    ClosingAgrees(s, -1);
    hide Good, Returns, OpensClose;
    var t := WithLoop(s, d, l);
    if OpensClose(t, d, r) {
      OpensOnlyOnce(t, d, r);
    }
    if Returns(t, d, r) && !s.calls[d].caller.ByClose? {
      OthersGoOnAwaiting(t, d, r, i);
    }
  }

  /** The step in which a frame stops awaiting `close` cancels everything pending. */
  lemma AwaitingStepCancels(s: Session, a: Label, i: nat)
    requires Good(s) && Possible(s, a) && StopsAwaiting(s, Next(s, a), i)
    ensures CancelsPending(s, Next(s, a))
  {
    if Resumes(a) {
      var d, l := ResumedProceeds(s, a);
      OnlyItsDisconnectStops(s, d, l, Next(s, a), i);
      hide Good, Possible, Next, Proceeds, CancelsPending, ReturnFrame;
      ReturnedCancels(s, d, l, i);
    } else {
      OtherStepsKeep(s, a);
      hide Good, Possible, Next;
    }
  }

  /** A frame that times out while the connection is not closing down opens the
      disconnect frame and awaits it. */
  lemma TimeOutCloses(s: Session, i: nat)
    requires Good(s) && TimesOut(s, i) && !s.closingDown
    ensures var r := FrameResumed(s, i); var d := |s.calls|;
      && r.closingDown && r.closeFrame == Some(d) && |r.calls| == d + 1
      && r.calls[d].caller == ByClose(TimedOut(i))
      && |r.phases| == d + 1 && r.phases[i].ClosingDown? && r.phases[d].Running?
      && r.wire == s.wire + [Sent(ControlSocket, Disconnect(s.channelId), d)]
  {
    LiveWhileQueued(s, i);
    ResumedTimeOut(s, i);
    CloseFields(AfterExpiry(s, i), TimedOut(i));
    hide Good, Close, FrameResumed, AfterWait, Judged;
  }

  lemma CleanReturn(s: Session, i: nat)
    requires Good(s) && i < |s.phases| && s.phases[i].Done? && s.phases[i].closed
    ensures CleanView(s.phases[i].view, s.notices)
  {
    hide CleanView;
  }

  lemma StillAwaits(states: seq<Session>, labels: seq<Label>, k: nat, n: nat, i: nat)
    requires IsHistory(states, labels) && k <= n < |states|
    requires i < |states[k].phases| && states[k].phases[i].ClosingDown?
    ensures i < |states[n].phases| && (states[n].phases[i].ClosingDown? || states[n].phases[i].Done?)
  {
    hide IsHistory;
    HistoryLater(states, labels, k, n);
    assert PhaseLater(states[k].phases[i], states[n].phases[i]);
  }

  lemma {:induction false} StopsOnce(states: seq<Session>, labels: seq<Label>, k: nat, n: nat, i: nat) returns (m: nat)
    requires IsHistory(states, labels) && k < n < |states|
    requires i < |states[k].phases| && states[k].phases[i].ClosingDown?
    requires i < |states[n].phases| && states[n].phases[i].Done?
    ensures k <= m < n && StopsAwaiting(states[m], states[m + 1], i)
    decreases n
  {
    hide IsHistory;
    StillAwaits(states, labels, k, n - 1, i);
    if states[n - 1].phases[i].ClosingDown? {
      HistoryLater(states, labels, n - 1, n);
      m := n - 1;
    } else {
      m := StopsOnce(states, labels, k, n - 1, i);
    }
  }

  /** A `sendRequest` that times out while no close is under way returns only
      after a step that cancels everything pending, and when it returns nothing is
      pending, the sequence is zero, the address is gone, both sockets are closed
      and every listener was told. */
  lemma TimedOutReturnsClean(states: seq<Session>, labels: seq<Label>, k: nat, n: nat, i: nat)
    requires IsHistory(states, labels) && k < |labels| && k < n < |states|
    requires labels[k] == FrameResume(i) && TimesOut(states[k], i) && !states[k].closingDown
    requires i < |states[n].phases| && states[n].phases[i].Done?
    ensures states[n].phases[i].closed && CleanView(states[n].phases[i].view, states[n].notices)
    ensures exists m ::
      k < m < n && StopsAwaiting(states[m], states[m + 1], i) && CancelsPending(states[m], states[m + 1])
  {
    HistoryIsGood(states, labels, k);
    HistoryIsGood(states, labels, n);
    HistoryStep(states, labels, k);
    assert states[k + 1] == FrameResumed(states[k], i);
    TimeOutCloses(states[k], i);
    HistoryLater(states, labels, k + 1, n);
    assert PhaseLater(states[k + 1].phases[i], states[n].phases[i]);
    hide IsHistory, Good, FrameResumed, TimesOut, CleanView, Next, Possible, CancelsPending, StopsAwaiting;
    CleanReturn(states[n], i);
    assert k + 1 != n;
    var m := StopsOnce(states, labels, k + 1, n, i);
    HistoryIsGood(states, labels, m);
    HistoryStep(states, labels, m);
    AwaitingStepCancels(states[m], labels[m], i);
    assert k < m < n && StopsAwaiting(states[m], states[m + 1], i) && CancelsPending(states[m], states[m + 1]);
  }

  // ------------------------------------------------------------ starting

  lemma ReturnOfStart(s: Session, i: nat)
    requires i < |s.calls| && s.calls[i].caller.ByStart?
    ensures ReturnFrame(s, i) == Started(Finish(s, i), s.loops[i].response)
  {
    hide Finish, Started, Close, Closed, CloseDone, Linked;
  }

  predicate Connects(answer: Option<Response>) {
    answer.Some? && answer.value.ConnectResponse?
  }

  /** `start` returns as connected exactly when a connect response was stored,
      whatever its status and whatever the sockets, which it leaves alone.
      Otherwise the session is reset and nothing is told. */
  lemma StartReturns(s: Session, i: nat)
    requires MayReturn(s, i) && s.calls[i].caller.ByStart?
    ensures KeepsSockets(s, ReturnFrame(s, i))
    ensures var r := ReturnFrame(s, i); var a := s.loops[i].response; var items := Without(s.sendItems, i);
      if Connects(a) then
        r == s.(channelId := a.value.channel, knxAddress := a.value.address, notices := s.notices + [OnConnect],
                linkUp := true, sendItems := items, phases := r.phases)
      else
        r == s.(loops := CancelAll(s.loops, items), sendItems := [], sequence := 0, knxAddress := NO_ADDRESS,
                epoch := s.epoch + 1, sends := 0, phases := r.phases)
  {
    InTransit(s, i);
    assert |s.loops| == |s.calls|;
    hide Inv, Without, CancelAll, Linked, ReturnFrame, Started;
    ReturnOfStart(s, i);
    StartedMeaning(Finish(s, i), s.loops[i].response);
  }

  lemma StartedMeaning(s: Session, a: Option<Response>)
    ensures Started(s, a) ==
      if Connects(a) then
        s.(channelId := a.value.channel, knxAddress := a.value.address,
           notices := s.notices + [OnConnect], linkUp := true)
      else Reset(s)
  {
    hide Linked, CancelAll;
  }

  // ------------------------------------------------------------ the sockets

  predicate BothOpen(s: Session) {
    s.controlOpen && s.dataOpen
  }

  /** A step in which the disconnect frame returns and so shuts the session down. */
  predicate ShutsDown(s: Session, r: Session) {
    s.closeFrame.Some? && s.closeFrame.value < |r.phases| && r.phases[s.closeFrame.value].Done?
  }

  /** What `close` leaves alone when it returns to the caller it worked for. */
  ghost predicate KeepsOthers(s: State, r: State, c: Closer) {
    && KeepsSockets(s, r) && |s.phases| <= |r.phases|
    && forall x :: 0 <= x < |s.phases| && c != TimedOut(x) ==> r.phases[x] == s.phases[x]
  }

  lemma ClosedKeepsOthers(s: Session, c: Closer)
    requires MayResume(s, c) && (c.TimedOut? ==> c.frame < |s.calls| && !s.calls[c.frame].caller.ByClose?)
    ensures LinkedCloser(s, c) && KeepsOthers(s, Closed(s, c), c)
  {
    ResumedCloser(s, c);
    match c {
      case Detached =>
      case AckFailed(j) =>
        ClosedRefused(s, j);
        SendReturnedBeside(s, j, |s.phases|);
        hide Closed, SendReturned;
      case TimedOut(f) =>
        ClosingAgrees(s, f);
        ClosedFrame(s, f);
        ReturnBeside(s, f);
        hide Closed, ReturnFrame;
    }
    hide Inv;
  }

  lemma AwaitsOther(s: Session, d: nat)
    requires MayReturn(s, d) && s.calls[d].caller.ByClose?
    ensures s.closeFrame == Some(d) && |s.phases| == |s.calls|
    ensures var c := s.calls[d].caller.closer;
      c.TimedOut? ==> c.frame < d && !s.calls[c.frame].caller.ByClose?
  {
    ClosingAgrees(s, d);
    assert LinkedCall(s.calls[d], d, |s.jobs|);
  }

  lemma ShutMayResume(s: Session, d: nat)
    requires MayReturn(s, d) && s.calls[d].caller.ByClose?
    ensures MayResume(ShutAfter(s, d), s.calls[d].caller.closer)
  {
    hide Inv, Good, ShutAfter, CloseDone, Finish, Clean, Linked;
    AwaitsOther(s, d);
    ShutFields(s, d);
    ShutAfterMeaning(s, d);
    FinishClosingKeepsInv(s, d);
    GoodMeaning(ShutAfter(s, d));
  }

  /** The disconnect frame `d` in transit returns: both sockets are closed, it is
      done, and of the others only the frame that awaited it may be. */
  lemma DisconnectReturns(s: Session, d: nat)
    requires MayReturn(s, d) && s.calls[d].caller.ByClose?
    ensures var r := ReturnFrame(s, d); var c := s.calls[d].caller.closer;
      && !r.controlOpen && !r.dataOpen
      && |s.phases| <= |r.phases| && r.phases[d].Done?
      && (forall x :: 0 <= x < |s.phases| && x != d && c != TimedOut(x) ==> r.phases[x] == s.phases[x])
  {
    hide Inv, MayResume, ReturnFrame, Closed, ShutAfter;
    AwaitsOther(s, d);
    ShutMayResume(s, d);
    ReturnOfDisconnect(s, d);
    ShutFields(s, d);
    ClosedKeepsOthers(ShutAfter(s, d), s.calls[d].caller.closer);
  }

  /** A time-out opens a disconnect frame: the frame awaits it, and nothing else
      about sockets and phases changes. */
  lemma TimeOutOpens(s: Session, d: nat)
    requires MayClose(s, TimedOut(d)) && !s.closingDown
    ensures d < |s.phases| && LinkedCloser(s, TimedOut(d))
    ensures var r := Close(s, TimedOut(d));
      KeepsSockets(s, r) && r.phases == s.phases[d := ClosingDown] + [Running]
  {
    CloserInTransit(s, TimedOut(d));
    CloseFields(s, TimedOut(d));
    hide Inv, Close;
  }

  lemma CloseFrameLives(s: Session)
    requires Good(s) && s.closeFrame.Some?
    ensures s.closeFrame.value < |s.calls| && !s.phases[s.closeFrame.value].Done?
    ensures s.calls[s.closeFrame.value].caller.ByClose?
  {
  }

  lemma OpeningKeepsSockets(s: Session, d: nat, r: Session)
    requires OpensClose(s, d, r) && s.closeFrame.None?
    ensures BothOpen(r) <==> BothOpen(s) && !ShutsDown(s, r)
  {
    hide MayClose, Close;
    TimeOutOpens(s, d);
  }

  lemma ReturningSockets(s: Session, d: nat, r: Session)
    requires Returns(s, d, r) && d < |s.calls| && s.closingDown == s.closeFrame.Some?
    requires s.calls[d].caller.ByClose? ==> s.closeFrame == Some(d)
    requires s.closeFrame.Some? ==>
      s.closeFrame.value < |s.calls| && s.calls[s.closeFrame.value].caller.ByClose?
      && !s.phases[s.closeFrame.value].Done?
    ensures BothOpen(r) <==> BothOpen(s) && !ShutsDown(s, r)
  {
    hide MayReturn, ReturnFrame;
    if s.calls[d].caller.ByClose? {
      DisconnectReturns(s, d);
    } else {
      ReturnBeside(s, d);
    }
  }

  lemma ResumedSockets(s: Session, d: nat, l: Loop<Response>, r: Session)
    requires Good(s) && Proceeds(s, d, l, r)
    ensures BothOpen(r) <==> BothOpen(s) && !ShutsDown(s, r)
  {
    ClosingAgrees(s, -1);
    if s.closeFrame.Some? {
      CloseFrameLives(s);
    }
    hide Good, OpensClose, Returns;
    var t := WithLoop(s, d, l);
    if OpensClose(t, d, r) {
      OpensOnlyOnce(t, d, r);
      OpeningKeepsSockets(t, d, r);
    } else if Returns(t, d, r) {
      ReturningSockets(t, d, r);
    }
  }

  /** Outside a start, both sockets are open after a step exactly when they were
      before, and the step is no read error and no shut-down. */
  lemma SocketStep(s: Session, a: Label)
    requires Good(s) && Possible(s, a) && a != DoStart
    ensures BothOpen(Next(s, a)) <==> BothOpen(s) && !a.ReadError? && !ShutsDown(s, Next(s, a))
  {
    if Resumes(a) {
      var d, l := ResumedProceeds(s, a);
      hide Good, Possible, Next, Proceeds;
      ResumedSockets(s, d, l, Next(s, a));
    } else {
      OtherStepsKeep(s, a);
      if s.closeFrame.Some? {
        CloseFrameLives(s);
      }
      if a.ReadError? {
        ReadErrorCloses(s, a);
      }
      hide Good, Possible, Next;
    }
  }

  lemma ReadErrorCloses(s: Session, a: Label)
    requires Possible(s, a) && a.ReadError?
    ensures !BothOpen(Next(s, a))
  {
  }

  /** No read error and no shut-down in the steps after `k` and before `n`. */
  ghost predicate Undisturbed(states: seq<Session>, labels: seq<Label>, k: nat, n: nat)
    requires |states| == |labels| + 1 && n < |states|
  {
    forall m :: k < m < n ==> !labels[m].ReadError? && !ShutsDown(states[m], states[m + 1])
  }

  lemma StartOpens(s: Session)
    requires Possible(s, DoStart)
    ensures BothOpen(Next(s, DoStart))
    ensures var r := Next(s, DoStart); |r.calls| == |s.calls| + 1 && r.calls[|s.calls|].caller == ByStart
  {
  }

  lemma UndisturbedNext(states: seq<Session>, labels: seq<Label>, k: nat, n: nat)
    requires |states| == |labels| + 1 && k < n < |labels|
    ensures Undisturbed(states, labels, k, n + 1) <==>
      Undisturbed(states, labels, k, n) && !labels[n].ReadError? && !ShutsDown(states[n], states[n + 1])
  {
    hide ShutsDown;
  }

  lemma JustStarted(states: seq<Session>, labels: seq<Label>, k: nat)
    requires |states| == |labels| + 1 && k + 1 < |states|
    ensures Undisturbed(states, labels, k, k + 1)
  {
  }

  lemma HistoryLengths(states: seq<Session>, labels: seq<Label>)
    requires IsHistory(states, labels)
    ensures |states| == |labels| + 1
  {
  }

  lemma SocketsNext(states: seq<Session>, labels: seq<Label>, k: nat, n: nat)
    requires IsHistory(states, labels) && k < n < |labels| && labels[n] != DoStart
    requires BothOpen(states[n]) <==> Undisturbed(states, labels, k, n)
    ensures BothOpen(states[n + 1]) <==> Undisturbed(states, labels, k, n + 1)
  {
    hide Good, Possible, Next, BothOpen, ShutsDown, IsHistory, Undisturbed;
    HistoryLengths(states, labels);
    HistoryStep(states, labels, n);
    HistoryIsGood(states, labels, n);
    SocketStep(states[n], labels[n]);
    UndisturbedNext(states, labels, k, n);
  }

  lemma SocketsAfterStart(states: seq<Session>, labels: seq<Label>, k: nat)
    requires IsHistory(states, labels) && k < |labels| && labels[k] == DoStart
    ensures k + 1 < |states| && BothOpen(states[k + 1]) && Undisturbed(states, labels, k, k + 1)
  {
    hide Good, Possible, Next, BothOpen, ShutsDown, IsHistory, Undisturbed;
    HistoryLengths(states, labels);
    HistoryStep(states, labels, k);
    StartOpens(states[k]);
    JustStarted(states, labels, k);
  }

  /** Since the last start both sockets are open exactly as long as there was no
      read error and no shut-down. */
  lemma {:induction false} SocketsSinceStart(states: seq<Session>, labels: seq<Label>, k: nat, n: nat)
    requires IsHistory(states, labels) && k < n <= |labels| && labels[k] == DoStart
    requires forall m :: k < m < n ==> labels[m] != DoStart
    ensures |states| == |labels| + 1 && (BothOpen(states[n]) <==> Undisturbed(states, labels, k, n))
    decreases n
  {
    hide IsHistory, BothOpen, Undisturbed;
    HistoryLengths(states, labels);
    if k == n - 1 {
      SocketsAfterStart(states, labels, k);
    } else {
      SocketsSinceStart(states, labels, k, n - 1);
      SocketsNext(states, labels, k, n - 1);
    }
  }

  lemma NoStartMeanwhile(states: seq<Session>, labels: seq<Label>, k: nat, m: nat, n: nat)
    requires IsHistory(states, labels) && k < m <= n < |labels| && labels[k] == DoStart
    requires |states[k].calls| < |states[n].phases| && !states[n].phases[|states[k].calls|].Done?
    ensures labels[m] != DoStart
  {
    var i := |states[k].calls|;
    HistoryStep(states, labels, k);
    HistoryStep(states, labels, m);
    StartOpens(states[k]);
    HistoryLater(states, labels, k + 1, m);
    HistoryLater(states, labels, m, n);
    hide IsHistory, Next;
    assert PhaseLater(states[m].phases[i], states[n].phases[i]);
    assert states[m].calls[i].caller == ByStart;
  }

  // ------------------------------------------------------------ the connect notice

  lemma LiveStart(s: Session, b: nat)
    requires Good(s) && b < |s.calls| && s.calls[b].caller.ByStart? && !s.phases[b].Done?
    ensures !s.linkUp
  {
  }

  lemma CancelKeepsResponse(loops: seq<Loop<Response>>, items: seq<nat>, b: nat)
    requires b < |loops|
    ensures CancelAll(loops, items)[b].response == loops[b].response
  {
  }

  lemma AwaitingStart(s: Session, d: nat, b: nat)
    requires MayReturn(s, d) && s.calls[d].caller == ByClose(TimedOut(b))
    requires b < |s.loops| && b < |s.calls| && s.calls[b].caller.ByStart?
    ensures ReturnFrame(s, d).linkUp <==> Connects(s.loops[b].response)
  {
    InTransit(s, d);
    hide Inv, MayReturn, ReturnFrame, ShutAfter, Clean, CancelAll, Without, Connects;
    var shut := ShutAfter(s, d);
    ReturnOfAwaiting(s, d, b);
    ShutMayResume(s, d);
    ShutFields(s, d);
    CancelKeepsResponse(s.loops, Without(s.sendItems, d), b);
    StartReturns(shut, b);
  }

  lemma ReturningStart(s: Session, d: nat, r: Session, b: nat)
    requires Returns(s, d, r) && s.closingDown == s.closeFrame.Some? && !s.linkUp
    requires d < |s.calls| && b < |s.calls| && s.calls[b].caller.ByStart?
    requires !s.phases[b].Done? && b < |r.phases| && r.phases[b].Done?
    ensures r.linkUp <==> Connects(s.loops[b].response)
  {
    hide MayReturn, ReturnFrame, Connects;
    if s.calls[d].caller.ByClose? {
      DisconnectReturns(s, d);
      AwaitingStart(s, d, b);
    } else {
      ReturnBeside(s, d);
      StartReturns(s, d);
    }
  }

  lemma ResumedStart(s: Session, d: nat, l: Loop<Response>, r: Session, b: nat)
    requires Good(s) && Proceeds(s, d, l, r) && b < |s.calls| && s.calls[b].caller.ByStart?
    requires !s.phases[b].Done? && b < |r.phases| && r.phases[b].Done?
    ensures r.linkUp <==> Connects(s.loops[b].response)
  {
    LiveStart(s, b);
    ClosingAgrees(s, -1);
    hide Good, Returns, Connects, MayClose, Close;
    var t := WithLoop(s, d, l);
    if OpensClose(t, d, r) {
      TimeOutOpens(t, d);
    } else if Returns(t, d, r) {
      ReturningStart(t, d, r, b);
    }
  }

  /** The step in which `start` returns tells a connection exactly when a connect
      response was stored by then. */
  lemma StartStep(s: Session, a: Label, b: nat)
    requires Good(s) && Possible(s, a) && b < |s.calls| && s.calls[b].caller.ByStart?
    requires !s.phases[b].Done? && b < |Next(s, a).phases| && Next(s, a).phases[b].Done?
    ensures Next(s, a).linkUp <==> Connects(s.loops[b].response)
  {
    if Resumes(a) {
      var d, l := ResumedProceeds(s, a);
      hide Good, Possible, Next, Proceeds, Connects;
      ResumedStart(s, d, l, Next(s, a), b);
    } else {
      OtherStepsKeep(s, a);
      hide Good, Possible, Next;
    }
  }

  /** A `start` opened at step `k` and returning in step `n` tells a connection
      exactly when a connect response is stored; and both sockets are then open
      exactly when there was no read error and no shut-down between. */
  lemma SocketsAtConnect(states: seq<Session>, labels: seq<Label>, k: nat, n: nat)
    requires IsHistory(states, labels) && k < n < |labels| && labels[k] == DoStart
    requires var i := |states[k].calls|;
      i < |states[n].calls| && |states[n].phases| == |states[n].calls| <= |states[n + 1].phases|
      && !states[n].phases[i].Done? && states[n + 1].phases[i].Done?
    ensures states[n + 1].linkUp <==> Connects(states[n].loops[|states[k].calls|].response)
    ensures BothOpen(states[n + 1]) <==> Undisturbed(states, labels, k, n + 1)
  {
    var i := |states[k].calls|;
    HistoryIsGood(states, labels, n);
    HistoryStep(states, labels, n);
    HistoryStep(states, labels, k);
    StartOpens(states[k]);
    HistoryLater(states, labels, k + 1, n);
    hide Good, Possible, Next, BothOpen, Connects, PhasesLater, Undisturbed;
    assert states[n].calls[i].caller == ByStart;
    forall m | k < m < n + 1
      ensures labels[m] != DoStart
    {
      NoStartMeanwhile(states, labels, k, m, n);
    }
    hide IsHistory;
    SocketsSinceStart(states, labels, k, n + 1);
    StartStep(states[n], labels[n], i);
  }
}
