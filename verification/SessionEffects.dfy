/** What one step of the session does to every retry machine and to the wire, also
    where it returns through a chain of awaiting callers. */
module SessionEffects {
  import opened Bytes
  import opened Wrappers
  import opened KnxAddresses
  import opened CemiFrames
  import opened TunnelFrames
  import opened AsyncMessageStates
  import opened ClientRouting
  import opened TunnelingSession
  import opened SessionInvariants
  import opened SessionTheorems
  import opened SessionReturns

  // ------------------------------------------------------------ the effects of a return

  /** Pending items may go but none comes back. */
  ghost predicate ItemsGo(s: State, r: State) {
    forall i <- r.sendItems :: i in s.sendItems || i >= |s.calls|
  }

  /** The retry machine of frame `i` is at `l`, or it was cancelled there with an
      item that was pending and is no longer. */
  predicate Settled(s: State, r: State, i: nat, l: Loop<Response>) {
    i < |r.loops| && (r.loops[i] == l || (i in s.sendItems && i !in r.sendItems && r.loops[i] == Cancelled(l)))
  }

  predicate JustBegun<R>(l: Loop<R>) {
    l == Loop(Sending, 1, Transmitting, None)
  }

  ghost predicate LoopsSettle(s: State, r: State) {
    && |s.loops| == |s.calls| && |s.calls| <= |r.calls| == |r.loops|
    && (forall i :: 0 <= i < |s.calls| ==> Settled(s, r, i, s.loops[i]))
    && (forall i :: |s.calls| <= i < |r.calls| ==> JustBegun(r.loops[i]))
  }

  /** A job is left alone, or its transmission is over. */
  predicate JobSettled(l: Loop<Cemi>, r: Loop<Cemi>) {
    r == l || (l.pc.Transmitting? && r == Transmitted(l))
  }

  ghost predicate JobsSettle(s: State, r: State) {
    && r.cemis == s.cemis && |r.jobs| == |s.jobs|
    && forall j :: 0 <= j < |s.jobs| ==> JobSettled(s.jobs[j], r.jobs[j])
  }

  /** Nothing is sent, or one disconnect request for the current channel by a new
      frame, on the control socket. */
  predicate SendsAtMostDisconnect(s: State, r: State) {
    || (r.calls == s.calls && r.wire == s.wire)
    || (&& r.closingDown && |r.calls| == |s.calls| + 1 && s.calls <= r.calls
        && r.calls[|s.calls|].request == Disconnect(s.channelId) && r.calls[|s.calls|].caller.ByClose?
        && r.wire == s.wire + [Sent(ControlSocket, Disconnect(s.channelId), |s.calls|)])
  }

  ghost predicate Settles(s: State, r: State) {
    ItemsGo(s, r) && LoopsSettle(s, r) && JobsSettle(s, r) && SendsAtMostDisconnect(s, r)
  }

  /** A first part that sends nothing. */
  ghost predicate SettlesSilently(s: State, t: State) {
    Settles(s, t) && t.calls == s.calls && t.wire == s.wire && t.channelId == s.channelId
  }

  lemma LoopsTwice(s: State, t: State, r: State)
    requires SettlesSilently(s, t) && LoopsSettle(t, r) && ItemsGo(t, r)
    ensures LoopsSettle(s, r)
  {
    hide Cancelled;
    forall i | 0 <= i < |s.calls|
      ensures Settled(s, r, i, s.loops[i])
    {
      assert Settled(s, t, i, s.loops[i]) && Settled(t, r, i, t.loops[i]);
    }
  }

  lemma TransmittedOnce<R>(l: Loop<R>)
    ensures !Transmitted(l).pc.Transmitting?
  {
  }

  lemma JobsTwice(s: State, t: State, r: State)
    requires JobsSettle(s, t) && JobsSettle(t, r)
    ensures JobsSettle(s, r)
  {
    hide Transmitted;
    forall j | 0 <= j < |s.jobs|
      ensures JobSettled(s.jobs[j], r.jobs[j])
    {
      TransmittedOnce(s.jobs[j]);
      assert JobSettled(s.jobs[j], t.jobs[j]) && JobSettled(t.jobs[j], r.jobs[j]);
    }
  }

  lemma SettlesTwice(s: State, t: State, r: State)
    requires SettlesSilently(s, t) && Settles(t, r)
    ensures Settles(s, r)
  {
    LoopsTwice(s, t, r);
    JobsTwice(s, t, r);
    hide LoopsSettle, JobsSettle;
  }

  lemma SettlesSame(s: Session)
    ensures SettlesSilently(s, s)
  {
  }

  lemma FinishSettles(s: Session, i: nat)
    requires i < |s.calls|
    ensures SettlesSilently(s, Finish(s, i))
  {
    hide Cancelled, Transmitted;
  }

  lemma CancelSettles(s: Session, r: State)
    requires r.loops == CancelAll(s.loops, s.sendItems) && r.sendItems == []
    requires r.calls == s.calls && r.wire == s.wire && r.channelId == s.channelId
    requires r.jobs == s.jobs && r.cemis == s.cemis
    ensures SettlesSilently(s, r)
  {
    hide Cancelled, Transmitted;
  }

  lemma CloseDoneSettles(s: Session)
    ensures SettlesSilently(s, CloseDone(s))
  {
    CloseDoneMeaning(s);
    hide CloseDone, SettlesSilently, CancelAll;
    CancelSettles(s, CloseDone(s));
  }

  lemma StartedSettles(s: Session, answer: Option<Response>)
    ensures Settles(s, Started(s, answer))
  {
    StartedMeaning(s, answer);
    hide Started, CancelAll, Transmitted;
    if !Connects(answer) {
      CancelSettles(s, Reset(s));
    }
    hide Cancelled;
  }

  lemma SendReturnedSettles(s: Session, j: nat)
    requires j < |s.jobs| && s.jobs[j].pc.Transmitting?
    ensures Settles(s, SendReturned(s, j))
  {
    hide Transmitted, Cancelled, KeyOf;
  }

  lemma CloseSettles(s: Session, c: Closer)
    requires LinkedCloser(s, c) && !s.closingDown
    ensures Settles(s, Close(s, c))
  {
    CloseFields(s, c);
    hide Close, Transmitted, Cancelled;
  }

  lemma {:induction false} ReturnSettles(s: Session, i: nat)
    requires MayReturn(s, i)
    ensures Settles(s, ReturnFrame(s, i))
    decreases i + 1, 0
  {
    hide Inv, Good, Finish, Started, Close, SendReturned, CloseDone, Clean, AckRefused, Settles;
    var t := Finish(s, i);
    InTransit(s, i);
    FinishSettles(s, i);
    assert LinkedCall(s.calls[i], i, |s.jobs|);
    match s.calls[i].caller {
      case ByClose(c) =>
        FinishClosingKeepsInv(s, i);
        GoodMeaning(CloseDone(t));
        CloseDoneSettles(t);
        ClosedSettles(CloseDone(t), c);
        SettlesTwice(t, CloseDone(t), ReturnFrame(s, i));
        SettlesTwice(s, t, ReturnFrame(s, i));
      case ByStart =>
        StartedSettles(t, s.loops[i].response);
        SettlesTwice(s, t, ReturnFrame(s, i));
      case BySend(j) =>
        FinishKeepsInv(s, i);
        if AckRefused(s.loops[i].response) {
          RefusedSettles(t, j);
        } else {
          JobDelivered(t, j);
          SendReturnedSettles(t, j);
        }
        SettlesTwice(s, t, ReturnFrame(s, i));
      case _ =>
    }
  }

  lemma RefusedSettles(s: Session, j: nat)
    requires Inv(s, -1, -1, j)
    ensures j < |s.jobs| && Settles(s, Close(s, AckFailed(j)))
  {
    JobDelivered(s, j);
    hide Inv, Close, Closed, SendReturned, Settles;
    if s.closingDown {
      CloseTwice(s, AckFailed(j));
      ClosedRefused(s, j);
      SendReturnedSettles(s, j);
    } else {
      CloseSettles(s, AckFailed(j));
    }
  }

  lemma ClosedSettles(s: Session, c: Closer)
    requires MayResume(s, c)
    ensures LinkedCloser(s, c) && Settles(s, Closed(s, c))
    decreases Depth(c), 1
  {
    hide Inv, Good, MayReturn, ReturnFrame, SendReturned, Settles;
    ResumedCloser(s, c);
    match c {
      case Detached =>
        SettlesSame(s);
      case AckFailed(j) =>
        JobDelivered(s, j);
        SendReturnedSettles(s, j);
      case TimedOut(f) =>
        ReturnSettles(s, f);
    }
  }

  lemma ClosingSettles(s: Session, c: Closer)
    requires MayClose(s, c) && (c.TimedOut? ==> MayReturn(s, c.frame)) && !c.AckFailed?
    ensures LinkedCloser(s, c) && Settles(s, Close(s, c))
  {
    CloserInTransit(s, c);
    hide Inv, Good, MayClose, MayReturn, Close, Settles;
    if s.closingDown {
      CloseTwice(s, c);
      ClosedSettles(s, c);
    } else {
      CloseSettles(s, c);
    }
  }

  // ------------------------------------------------------------ the effects of a step

  /** What a step does to frame `i` itself: at most one event of its retry machine. */
  function FrameEvent(a: Label, i: nat): seq<Event<Response>> {
    match a
    case FrameSendDone(f) => if f == i then [SendDone] else []
    case FrameExpire(f) => if f == i then [Expire] else []
    case FrameFail(f) => if f == i then [Event.Fail] else []
    case FrameResume(f) => if f == i then [Resume] else []
    case _ => []
  }

  function JobEvent(a: Label, j: nat): seq<Event<Cemi>> {
    match a
    case JobExpire(f) => if f == j then [Expire] else []
    case JobFail(f) => if f == j then [Event.Fail] else []
    case JobResume(f) => if f == j then [Resume] else []
    case _ => []
  }

  function Stepped<R>(l: Loop<R>, evs: seq<Event<R>>): Loop<R> {
    if evs == [] then l else Step(l, evs[0])
  }

  /** A frame takes its own step, is then left alone or cancelled, or is answered. */
  predicate LoopStepped(s: Session, a: Label, r: Session, i: nat)
    requires i < |s.calls|
  {
    var l := Stepped(s.loops[i], FrameEvent(a, i));
    Settled(s, r, i, l) || (a.Receive? && i in s.sendItems && i < |r.loops| && r.loops[i] == Replied(l, a.response))
  }

  ghost predicate LoopsStepped(s: Session, a: Label, r: Session) {
    && |s.calls| <= |r.calls|
    && (forall i :: 0 <= i < |s.calls| ==> LoopStepped(s, a, r, i))
    && (forall i :: |s.calls| <= i < |r.calls| ==> JustBegun(r.loops[i]))
  }

  predicate JobStepped(s: Session, a: Label, r: Session, j: nat)
    requires j < |s.jobs|
  {
    var l := Stepped(s.jobs[j], JobEvent(a, j));
    && j < |r.jobs|
    && (JobSettled(l, r.jobs[j])
        || (a.ReceiveTunnel? && !l.pc.Returned? && r.jobs[j] == Replied(l, a.tunnel.cemi)))
  }

  ghost predicate JobsStepped(s: Session, a: Label, r: Session) {
    && |s.jobs| <= |r.jobs|
    && r.cemis == s.cemis + (if a.DoSubmit? then [a.cemi] else [])
    && (forall j :: 0 <= j < |s.jobs| ==> JobStepped(s, a, r, j))
    && (forall j :: |s.jobs| <= j < |r.jobs| ==> JustBegun(r.jobs[j]))
  }

  /** A step that no retry machine of a frame takes itself. */
  lemma SettledSteps(s: Session, a: Label, r: Session)
    requires ItemsGo(s, r) && LoopsSettle(s, r) && forall i: nat :: FrameEvent(a, i) == []
    ensures LoopsStepped(s, a, r)
  {
    hide FrameEvent, Cancelled;
    forall i | 0 <= i < |s.calls|
      ensures LoopStepped(s, a, r, i)
    {
      assert FrameEvent(a, i) == [];
      assert Settled(s, r, i, s.loops[i]);
    }
  }

  lemma SameLoops(s: Session, r: State)
    requires r.loops == s.loops && r.calls == s.calls && r.sendItems == s.sendItems
    ensures ItemsGo(s, r) && LoopsSettle(s, r)
  {
    hide Cancelled;
  }

  /** A step that opens a frame and does nothing else to the others. */
  lemma OneMoreLoop(s: Session, r: State)
    requires |s.loops| == |s.calls| && |r.calls| == |s.calls| + 1
    requires r.loops == s.loops + [Begin(Fresh(), ATTEMPTS)] && r.sendItems == s.sendItems + [|s.calls|]
    ensures ItemsGo(s, r) && LoopsSettle(s, r)
  {
    hide Cancelled;
  }

  lemma OpenLoops(s: Session, q: Request, caller: Caller)
    requires LinkedCall(Call(q, caller, s.epoch, s.sends), |s.calls|, |s.jobs|)
    ensures var r := OpenFrame(s, q, caller);
      |r.calls| == |s.calls| + 1 && r.loops == s.loops + [Begin(Fresh(), ATTEMPTS)]
      && r.sendItems == s.sendItems + [|s.calls|]
  {
  }

  lemma SendLoops(s: Session, j: nat)
    requires j < |s.jobs|
    ensures var r := Send(s, j);
      && |r.calls| == |s.calls| + 1 && r.loops == s.loops + [Begin(Fresh(), ATTEMPTS)]
      && r.sendItems == s.sendItems + [|s.calls|] && r.jobs == s.jobs && r.cemis == s.cemis
  {
    hide Successor, Linked, LinkedCall;
  }

  lemma JobStepLoops(s: Session, j: nat, l: Loop<Cemi>)
    requires j < |s.jobs|
    ensures var r := JobStep(s, j, l);
      && r.calls == s.calls && r.loops == s.loops && r.sendItems == s.sendItems
      && r.jobs == s.jobs[j := l] && r.cemis == s.cemis
  {
    hide KeyOf, Linked;
  }

  lemma JobResumedLoops(s: Session, j: nat)
    requires j < |s.jobs| && s.jobs[j].pc.Queued?
    ensures var r := JobResumed(s, j);
      && ItemsGo(s, r) && LoopsSettle(s, r) && r.cemis == s.cemis
      && r.jobs == s.jobs[j := AfterWait(s.jobs[j], s.jobs[j].pc.completion)]
  {
    hide AfterWait, Send, JobStep, LoopsSettle, ItemsGo;
    var l := AfterWait(s.jobs[j], s.jobs[j].pc.completion);
    var t := JobStep(s, j, l);
    JobStepLoops(s, j, l);
    if l.pc.Transmitting? {
      SendLoops(t, j);
      OneMoreLoop(s, Send(t, j));
    } else {
      SameLoops(s, t);
    }
  }

  lemma SubmitLoops(s: Session, c: Cemi)
    ensures var r := Submit(s, c);
      && ItemsGo(s, r) && LoopsSettle(s, r) && r.cemis == s.cemis + [c]
      && r.jobs == s.jobs + [Begin(Fresh(), ATTEMPTS)]
  {
    var t := AddJob(s, c);
    SendLoops(t, |s.jobs|);
    hide Send, AddJob, LoopsSettle, ItemsGo;
    OneMoreLoop(s, Submit(s, c));
  }

  lemma StartLoops(s: Session)
    ensures var r := Start(s); ItemsGo(s, r) && LoopsSettle(s, r) && r.jobs == s.jobs && r.cemis == s.cemis
  {
    OpenLoops(Opened(s), Connect, ByStart);
    hide LoopsSettle, ItemsGo;
    OneMoreLoop(s, Start(s));
  }

  /** Frame `i` takes its own step to `l`, and the rest follows from there. */
  lemma OwnLoopSteps(s: Session, a: Label, i: nat, l: Loop<Response>, r: Session)
    requires i < |s.calls| && ItemsGo(WithLoop(s, i, l), r) && LoopsSettle(WithLoop(s, i, l), r)
    requires l == Stepped(s.loops[i], FrameEvent(a, i)) && forall k: nat :: k != i ==> FrameEvent(a, k) == []
    ensures LoopsStepped(s, a, r)
  {
    hide FrameEvent, Cancelled, Step;
    var t := WithLoop(s, i, l);
    forall k | 0 <= k < |s.calls|
      ensures LoopStepped(s, a, r, k)
    {
      assert Settled(t, r, k, t.loops[k]);
      assert k != i ==> FrameEvent(a, k) == [];
    }
  }

  lemma FrameSentSettles(s: Session, i: nat)
    requires Good(s) && i < |s.calls| && s.loops[i].pc.Transmitting?
    ensures Settles(WithLoop(s, i, Transmitted(s.loops[i])), FrameSent(s, i))
  {
    AfterSending(s, i);
    hide Good, Transmitted, ReturnFrame, WithLoop, MayReturn, Settles, SettlesSilently;
    var t := WithLoop(s, i, Transmitted(s.loops[i]));
    if Transmitted(s.loops[i]).pc.Returned? {
      ReturnSettles(t, i);
    } else {
      SettlesSame(t);
      assert Settles(t, t) by { SilentSettles(t, t); }
    }
  }

  lemma SilentSettles(s: Session, t: Session)
    requires SettlesSilently(s, t)
    ensures Settles(s, t)
  {
    hide Settles;
  }

  /** What the resumption of frame `i` does: a resend, a time-out or a return. */
  lemma FrameResumedSettles(s: Session, i: nat)
    requires Good(s) && i < |s.calls| && s.loops[i].pc.Queued?
    ensures var l := AfterWait(s.loops[i], s.loops[i].pc.completion); var t := WithLoop(s, i, l);
      var r := FrameResumed(s, i);
      if l.pc.Transmitting? then r == Transmit(t, i) else Settles(t, r)
  {
    AfterWaiting(s, i);
    hide Good, AfterWait, ReturnFrame, Close, WithLoop, Transmit, MayReturn, MayClose, Settles;
    var l := AfterWait(s.loops[i], s.loops[i].pc.completion);
    var t := WithLoop(s, i, l);
    if l.pc.Transmitting? {
    } else if l.state == Timeout {
      ClosingSettles(t, TimedOut(i));
    } else {
      ReturnSettles(t, i);
    }
  }

  lemma FrameSentLoops(s: Session, i: nat)
    requires Good(s) && i < |s.calls| && s.loops[i].pc.Transmitting?
    ensures LoopsStepped(s, FrameSendDone(i), FrameSent(s, i)) && JobsSettle(s, FrameSent(s, i))
  {
    FrameSentSettles(s, i);
    hide Good, Transmitted, FrameSent, LoopsSettle, ItemsGo, LoopsStepped;
    OwnLoopSteps(s, FrameSendDone(i), i, Transmitted(s.loops[i]), FrameSent(s, i));
  }

  lemma FrameResumedLoops(s: Session, i: nat)
    requires Good(s) && i < |s.calls| && s.loops[i].pc.Queued?
    ensures LoopsStepped(s, FrameResume(i), FrameResumed(s, i)) && JobsSettle(s, FrameResumed(s, i))
  {
    FrameResumedSettles(s, i);
    hide Good, AfterWait, FrameResumed, LoopsSettle, ItemsGo, LoopsStepped;
    var l := AfterWait(s.loops[i], s.loops[i].pc.completion);
    if l.pc.Transmitting? {
      SameLoops(WithLoop(s, i, l), FrameResumed(s, i));
    }
    OwnLoopSteps(s, FrameResume(i), i, l, FrameResumed(s, i));
  }

  lemma TimerLoops(s: Session, a: Label, i: nat, l: Loop<Response>)
    requires i < |s.calls| && l == Stepped(s.loops[i], FrameEvent(a, i))
    requires forall k: nat :: k != i ==> FrameEvent(a, k) == []
    ensures LoopsStepped(s, a, WithLoop(s, i, l))
  {
    SameLoops(WithLoop(s, i, l), WithLoop(s, i, l));
    hide LoopsSettle, ItemsGo, LoopsStepped, WithLoop, FrameEvent, Step;
    OwnLoopSteps(s, a, i, l, WithLoop(s, i, l));
  }

  lemma ReceivedLoops(s: Session, answer: Response)
    ensures LoopsStepped(s, Receive(answer), Received(s, answer))
    ensures Received(s, answer).jobs == s.jobs && Received(s, answer).cemis == s.cemis
  {
    assert Within(s.sendItems, |s.calls|) && |s.loops| == |s.calls|;
    hide FirstMatch, Replied, Cancelled, Linked;
    match FirstMatch(s.calls, s.sendItems, answer) {
      case Some(i) => assert i in s.sendItems && i < |s.loops|;
      case None =>
    }
  }

  lemma ReceivedDisconnectLoops(s: Session, channel: byte)
    ensures var r := ReceivedDisconnect(s, channel);
      ItemsGo(s, r) && LoopsSettle(s, r) && r.jobs == s.jobs && r.cemis == s.cemis
  {
    assert |s.loops| == |s.calls|;
    hide Cancelled, Linked;
  }

  lemma ConfirmedJobs(s: Session, t: TunnelRequest)
    requires Good(s)
    ensures var r := ReceivedTunnel(s, t);
      && r.loops == s.loops && r.calls == s.calls && r.sendItems == s.sendItems && r.cemis == s.cemis
      && JobsStepped(s, ReceiveTunnel(t), r)
  {
    hide Good, KeyOf, Replied, Transmitted, Linked;
    var c := t.cemi;
    if KeyOf(c) in s.requests {
      PendingJob(s, KeyOf(c));
    }
  }

  /** A step whose jobs are only left alone or at the end of a transmission. */
  lemma SettledJobs(s: Session, a: Label, r: Session)
    requires JobsSettle(s, r) && !a.DoSubmit? && forall j: nat :: JobEvent(a, j) == []
    ensures JobsStepped(s, a, r)
  {
    hide JobEvent, Transmitted;
    forall j | 0 <= j < |s.jobs|
      ensures JobStepped(s, a, r, j)
    {
      assert JobEvent(a, j) == [];
      assert JobSettled(s.jobs[j], r.jobs[j]);
    }
  }

  lemma SameJobs(s: Session, a: Label, r: Session)
    requires r.jobs == s.jobs && r.cemis == s.cemis && !a.DoSubmit? && forall j: nat :: JobEvent(a, j) == []
    ensures JobsStepped(s, a, r)
  {
    hide JobEvent, Transmitted;
    SettledJobs(s, a, r);
  }

  lemma OwnJobSteps(s: Session, a: Label, j: nat, r: Session)
    requires j < |s.jobs| && !a.DoSubmit? && forall k: nat :: k != j ==> JobEvent(a, k) == []
    requires r.jobs == s.jobs[j := Stepped(s.jobs[j], JobEvent(a, j))] && r.cemis == s.cemis
    ensures JobsStepped(s, a, r)
  {
    hide JobEvent, Transmitted, Step;
    forall k | 0 <= k < |s.jobs|
      ensures JobStepped(s, a, r, k)
    {
      assert k != j ==> JobEvent(a, k) == [];
    }
  }

  lemma NewJobSteps(s: Session, c: Cemi, r: Session)
    requires r.jobs == s.jobs + [Begin(Fresh(), ATTEMPTS)] && r.cemis == s.cemis + [c]
    ensures JobsStepped(s, DoSubmit(c), r)
  {
    hide Transmitted, Step;
  }

  /** Every step takes each retry machine at most one event further, besides
      replies and cancels, and begins the new ones. */
  lemma LoopsStep(s: Session, a: Label)
    requires Good(s) && Possible(s, a)
    ensures LoopsStepped(s, a, Next(s, a)) && JobsStepped(s, a, Next(s, a))
  {
    hide Good, Start, OpenFrame, Close, Submit, FrameSent, FrameResumed, JobStep, JobResumed, Received, ReceivedTunnel,
      ReceivedDisconnect, WithLoop, MayStart, Throws, KeyOf, Parsable, Settles, LoopsSettle, ItemsGo, LoopsStepped,
      JobsStepped, JobsSettle, TimerDone, AfterWait, Transmitted;
    var r := Next(s, a);
    match a {
      case DoStart =>
        StartLoops(s);
        SettledSteps(s, a, r);
        SameJobs(s, a, r);
      case DoDescribe =>
        OpenStep(s, a, Description, ByDescription);
      case DoKeepAlive =>
        OpenStep(s, a, ConnectState(s.channelId), ByKeepAlive);
      case DoClose =>
        CloseStep(s);
      case DoSubmit(c) =>
        SubmitLoops(s, c);
        SettledSteps(s, a, r);
        NewJobSteps(s, c, r);
      case FrameSendDone(i) =>
        FrameSentLoops(s, i);
        SettledJobs(s, a, r);
      case FrameExpire(i) =>
        TimerStep(s, a, i, TimerDone(s.loops[i], Expired));
      case FrameFail(i) =>
        TimerStep(s, a, i, TimerDone(s.loops[i], Failed));
      case FrameResume(i) =>
        FrameResumedLoops(s, i);
        SettledJobs(s, a, r);
      case JobExpire(j) =>
        JobTimerStep(s, a, j, TimerDone(s.jobs[j], Expired));
      case JobFail(j) =>
        JobTimerStep(s, a, j, TimerDone(s.jobs[j], Failed));
      case JobResume(j) =>
        JobResumedLoops(s, j);
        SettledSteps(s, a, r);
        OwnJobSteps(s, a, j, r);
      case Receive(answer) =>
        ReceivedLoops(s, answer);
        SameJobs(s, a, r);
      case ReceiveTunnel(t) =>
        ConfirmedJobs(s, t);
        SameLoops(s, r);
        SettledSteps(s, a, r);
      case ReceiveDisconnect(channel) =>
        ReceivedDisconnectLoops(s, channel);
        SettledSteps(s, a, r);
        SameJobs(s, a, r);
      case ReadError(_) =>
        SameLoops(s, r);
        SettledSteps(s, a, r);
        SameJobs(s, a, r);
    }
  }

  lemma OpenStep(s: Session, a: Label, q: Request, caller: Caller)
    requires LinkedCall(Call(q, caller, s.epoch, s.sends), |s.calls|, |s.jobs|)
    requires !a.DoSubmit? && (forall i: nat :: FrameEvent(a, i) == []) && (forall j: nat :: JobEvent(a, j) == [])
    ensures var r := OpenFrame(s, q, caller); LoopsStepped(s, a, r) && JobsStepped(s, a, r)
  {
    hide LoopsSettle, ItemsGo, LoopsStepped, JobsStepped, FrameEvent, JobEvent;
    var r := OpenFrame(s, q, caller);
    OpenLoops(s, q, caller);
    OneMoreLoop(s, r);
    SettledSteps(s, a, r);
    SameJobs(s, a, r);
  }

  lemma CloseStep(s: Session)
    requires Good(s)
    ensures var r := Close(s, Detached); LoopsStepped(s, DoClose, r) && JobsStepped(s, DoClose, r)
  {
    hide Good, Close, LoopsSettle, ItemsGo, LoopsStepped, JobsStepped, JobsSettle;
    ClosingSettles(s, Detached);
    SettledSteps(s, DoClose, Close(s, Detached));
    SettledJobs(s, DoClose, Close(s, Detached));
  }

  lemma TimerStep(s: Session, a: Label, i: nat, l: Loop<Response>)
    requires i < |s.calls| && (a == FrameExpire(i) || a == FrameFail(i))
    requires l == TimerDone(s.loops[i], if a.FrameExpire? then Expired else Failed)
    ensures var r := WithLoop(s, i, l); LoopsStepped(s, a, r) && JobsStepped(s, a, r)
  {
    hide LoopsStepped, JobsStepped, TimerDone;
    TimerLoops(s, a, i, l);
    SameJobs(s, a, WithLoop(s, i, l));
  }

  lemma JobTimerStep(s: Session, a: Label, j: nat, l: Loop<Cemi>)
    requires j < |s.jobs| && (a == JobExpire(j) || a == JobFail(j))
    requires l == TimerDone(s.jobs[j], if a.JobExpire? then Expired else Failed)
    ensures var r := JobStep(s, j, l); LoopsStepped(s, a, r) && JobsStepped(s, a, r)
  {
    hide LoopsStepped, JobsStepped, TimerDone, JobStep, LoopsSettle, ItemsGo;
    var r := JobStep(s, j, l);
    JobStepLoops(s, j, l);
    SameLoops(s, r);
    SettledSteps(s, a, r);
    OwnJobSteps(s, a, j, r);
  }
}
