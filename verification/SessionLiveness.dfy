/** Left alone, the session comes to rest: no coroutine waits for ever, and only
    finitely many steps are possible without a call or a datagram from outside. */
module SessionLiveness {
  import opened Bytes
  import opened Wrappers
  import opened CemiFrames
  import opened TunnelFrames
  import opened AsyncMessageStates
  import opened TunnelingSession
  import opened SessionInvariants
  import opened SessionTheorems

  /** The steps of the event loop itself. */
  predicate Internal(a: Label) {
    || a.FrameSendDone? || a.FrameExpire? || a.FrameFail? || a.FrameResume?
    || a.JobExpire? || a.JobFail? || a.JobResume?
  }

  ghost predicate Quiet(s: Session) {
    forall a: Label :: Internal(a) ==> !Possible(s, a)
  }

  /** Every `sendRequest`, every `close` and every group write has returned. */
  ghost predicate AtRest(s: Session) {
    && (forall i :: 0 <= i < |s.calls| ==> s.phases[i].Done?)
    && (forall j :: 0 <= j < |s.jobs| ==> s.jobs[j].pc.Returned?)
    && s.requests == map[] && s.sendItems == [] && !s.closingDown
  }

  // ------------------------------------------------------------ nothing is stuck

  lemma RunningCanStep(s: Session, i: nat)
    requires Good(s) && i < |s.calls| && s.phases[i].Running?
    ensures !Quiet(s)
  {
    FrameFits(s, i);
    hide Good;
    assert Internal(FrameSendDone(i)) && Internal(FrameExpire(i)) && Internal(FrameResume(i));
    assert Possible(s, FrameSendDone(i)) || Possible(s, FrameExpire(i)) || Possible(s, FrameResume(i));
  }

  /** A frame that awaits `close` awaits a running one. */
  lemma CloserRuns(s: Session, i: nat)
    requires Good(s) && i < |s.calls| && s.phases[i].ClosingDown?
    ensures s.closeFrame.Some? && s.closeFrame.value < |s.calls| && s.phases[s.closeFrame.value].Running?
  {
    var d := s.closeFrame.value;
    assert LinkedCall(s.calls[d], d, |s.jobs|);
  }

  lemma JobCanStep(s: Session, j: nat)
    requires Good(s) && j < |s.jobs| && !s.jobs[j].pc.Returned?
    requires forall i :: 0 <= i < |s.calls| ==> s.phases[i].Done?
    ensures !Quiet(s)
  {
    JobSound(s, j);
    TransmittingAwaits(s, j);
    hide Good;
    assert Internal(JobExpire(j)) && Internal(JobResume(j));
    assert Possible(s, JobExpire(j)) || Possible(s, JobResume(j));
  }

  lemma TransmittingAwaits(s: Session, j: nat)
    requires Good(s) && j < |s.jobs|
    ensures s.jobs[j].pc.Transmitting? ==>
      s.awaits[j].Some? && s.awaits[j].value < |s.calls| && !s.phases[s.awaits[j].value].Done?
  {
  }

  lemma PendingIsLive(s: Session)
    requires Good(s)
    ensures s.sendItems != [] ==> s.sendItems[0] < |s.calls| && !s.phases[s.sendItems[0]].Done?
    ensures s.closingDown ==> s.closeFrame.value < |s.calls| && !s.phases[s.closeFrame.value].Done?
    ensures forall key <- s.requests :: s.requests[key] < |s.jobs| && !s.jobs[s.requests[key]].pc.Returned?
  {
  }

  lemma EmptyAtRest(s: Session)
    requires Good(s)
    requires forall i :: 0 <= i < |s.calls| ==> s.phases[i].Done?
    requires forall j :: 0 <= j < |s.jobs| ==> s.jobs[j].pc.Returned?
    ensures s.requests == map[] && s.sendItems == [] && !s.closingDown
  {
    PendingIsLive(s);
    hide Good;
    assert forall key :: key !in s.requests;
  }

  /** In every reachable state either the event loop has something to do or every
      coroutine has returned: nothing waits for ever. */
  lemma NothingIsStuck(states: seq<Session>, labels: seq<Label>, n: nat)
    requires IsHistory(states, labels) && n < |states|
    ensures Quiet(states[n]) ==> AtRest(states[n])
  {
    var s := states[n];
    HistoryIsGood(states, labels, n);
    hide IsHistory, Good, Quiet;
    if Quiet(s) {
      forall i | 0 <= i < |s.calls|
        ensures s.phases[i].Done?
      {
        match s.phases[i] {
          case Running => RunningCanStep(s, i);
          case ClosingDown =>
            CloserRuns(s, i);
            RunningCanStep(s, s.closeFrame.value);
          case Done(_, _) =>
        }
      }
      forall j | 0 <= j < |s.jobs|
        ensures s.jobs[j].pc.Returned?
      {
        if !s.jobs[j].pc.Returned? {
          JobCanStep(s, j);
        }
      }
      EmptyAtRest(s);
    }
  }

  // ------------------------------------------------------------ sums

  function Sum(ws: seq<nat>): nat {
    if ws == [] then 0 else Sum(Front(ws)) + Last(ws)
  }

  lemma SumAppend(ws: seq<nat>, w: nat)
    ensures Sum(ws + [w]) == Sum(ws) + w
  {
    assert Front(ws + [w]) == ws;
  }

  lemma {:induction false} SumUpdate(ws: seq<nat>, i: nat, w: nat)
    requires i < |ws|
    ensures Sum(ws[i := w]) == Sum(ws) - ws[i] + w
    decreases |ws|
  {
    if i == |ws| - 1 {
      assert Front(ws[i := w]) == Front(ws);
    } else {
      assert Front(ws[i := w]) == Front(ws)[i := w];
      SumUpdate(Front(ws), i, w);
    }
  }

  lemma {:induction false} SumGrows(xs: seq<nat>, ys: seq<nat>)
    requires |xs| == |ys| && forall i :: 0 <= i < |xs| ==> xs[i] <= ys[i]
    ensures Sum(xs) <= Sum(ys)
  {
    if xs != [] {
      SumGrows(Front(xs), Front(ys));
    }
  }

  // ------------------------------------------------------------ the work that is left

  /** More than a new disconnect frame. */
  const CLOSE_WORK := 8

  /** More than a new tunnelling frame. */
  const SEND_WORK := 32

  /** The steps of the frame, and the disconnect frames that it may still open. */
  function FrameWork(c: Call, p: Phase, l: Loop<Response>): nat {
    match p
    case Running => Measure(l) + 1 + if c.caller.ByClose? then 0 else 2 * CLOSE_WORK
    case ClosingDown => 1 + CLOSE_WORK
    case Done(_, _) => 0
  }

  /** The steps of the job, and the frame that it may still open. */
  function JobWork(l: Loop<Cemi>): nat {
    match l.pc
    case Transmitting => SEND_WORK * l.attempts + 3
    case Waiting => SEND_WORK * l.attempts + 2
    case Queued(_) => SEND_WORK * l.attempts + 1
    case _ => 0
  }

  function FrameWorks(calls: seq<Call>, phases: seq<Phase>, loops: seq<Loop<Response>>): seq<nat>
    requires |phases| == |loops| == |calls|
  {
    seq(|calls|, i requires 0 <= i < |calls| => FrameWork(calls[i], phases[i], loops[i]))
  }

  function JobWorks(jobs: seq<Loop<Cemi>>): seq<nat> {
    seq(|jobs|, j requires 0 <= j < |jobs| => JobWork(jobs[j]))
  }

  function Work(s: Session): nat {
    Sum(FrameWorks(s.calls, s.phases, s.loops)) + Sum(JobWorks(s.jobs))
  }

  function WorkOf(s: Session, i: nat): nat
    requires i < |s.calls|
  {
    FrameWork(s.calls[i], s.phases[i], s.loops[i])
  }

  lemma LoopWork(s: Session, i: nat, l: Loop<Response>)
    requires i < |s.calls|
    ensures Work(WithLoop(s, i, l)) == Work(s) - WorkOf(s, i) + FrameWork(s.calls[i], s.phases[i], l)
  {
    hide Sum, FrameWork;
    var ws := FrameWorks(s.calls, s.phases, s.loops);
    var w := FrameWork(s.calls[i], s.phases[i], l);
    SumUpdate(ws, i, w);
    assert FrameWorks(s.calls, s.phases, s.loops[i := l]) == ws[i := w];
  }

  lemma PhaseWork(s: Session, i: nat, p: Phase)
    requires i < |s.calls|
    ensures Work(s.(phases := s.phases[i := p])) == Work(s) - WorkOf(s, i) + FrameWork(s.calls[i], p, s.loops[i])
  {
    hide Sum, FrameWork;
    var ws := FrameWorks(s.calls, s.phases, s.loops);
    var w := FrameWork(s.calls[i], p, s.loops[i]);
    SumUpdate(ws, i, w);
    assert FrameWorks(s.calls, s.phases[i := p], s.loops) == ws[i := w];
  }

  lemma JobsWork(s: Session, j: nat, l: Loop<Cemi>)
    requires j < |s.jobs|
    ensures Work(JobStep(s, j, l)) == Work(s) - JobWork(s.jobs[j]) + JobWork(l)
  {
    hide Sum, JobWork;
    var ws := JobWorks(s.jobs);
    SumUpdate(ws, j, JobWork(l));
    assert JobWorks(s.jobs[j := l]) == ws[j := JobWork(l)];
  }

  lemma OpenWork(s: Session, q: Request, caller: Caller)
    requires LinkedCall(Call(q, caller, s.epoch, s.sends), |s.calls|, |s.jobs|)
    ensures Work(OpenFrame(s, q, caller)) == Work(s) + if caller.ByClose? then 7 else 7 + 2 * CLOSE_WORK
  {
    hide Sum, LinkedCall;
    var c := Call(q, caller, s.epoch, s.sends);
    var l := Begin<Response>(Fresh(), ATTEMPTS);
    var ws := FrameWorks(s.calls, s.phases, s.loops);
    assert FrameWork(c, Running, l) == if caller.ByClose? then 7 else 7 + 2 * CLOSE_WORK;
    SumAppend(ws, FrameWork(c, Running, l));
    assert FrameWorks(s.calls + [c], s.phases + [Running], s.loops + [l]) == ws + [FrameWork(c, Running, l)];
  }

  lemma CancelMeasure<R>(l: Loop<R>)
    ensures Measure(Cancelled(l)) <= Measure(l)
  {
  }

  lemma CancelWork(s: Session)
    ensures Sum(FrameWorks(s.calls, s.phases, CancelAll(s.loops, s.sendItems)))
         <= Sum(FrameWorks(s.calls, s.phases, s.loops))
  {
    var xs := FrameWorks(s.calls, s.phases, CancelAll(s.loops, s.sendItems));
    var ys := FrameWorks(s.calls, s.phases, s.loops);
    forall i | 0 <= i < |xs|
      ensures xs[i] <= ys[i]
    {
      CancelMeasure(s.loops[i]);
    }
    hide Sum;
    SumGrows(xs, ys);
  }

  lemma ResetWork(s: Session)
    ensures Work(Reset(s)) <= Work(s)
  {
    CancelWork(s);
    hide Sum, CancelAll, FrameWorks, JobWorks;
  }

  lemma StartedWork(s: Session, answer: Option<Response>)
    ensures Work(Started(s, answer)) <= Work(s)
  {
    ResetWork(s);
    hide Sum, Reset, FrameWorks, JobWorks;
  }

  lemma CloseDoneWork(s: Session)
    ensures Work(CloseDone(s)) <= Work(s)
  {
    CloseDoneMeaning(s);
    CancelWork(s);
    hide Sum, CloseDone, CancelAll, FrameWorks, JobWorks;
  }

  lemma FinishWork(s: Session, i: nat)
    requires i < |s.calls|
    ensures Work(Finish(s, i)) == Work(s) - WorkOf(s, i)
  {
    var f := Finish(s, i);
    PhaseWork(s, i, f.phases[i]);
    hide Sum, FrameWorks, JobWorks, Without;
  }

  lemma SendReturnedWork(s: Session, j: nat)
    requires j < |s.jobs| && s.jobs[j].pc.Transmitting?
    ensures Work(SendReturned(s, j)) < Work(s)
  {
    var t := s.(awaits := s.awaits[j := None]);
    JobsWork(t, j, Transmitted(s.jobs[j]));
    hide Sum, FrameWorks, JobWorks, JobStep;
  }

  lemma SuspendWork(s: Session, c: Closer, i: nat)
    requires LinkedCloser(s, c)
    ensures Work(Suspend(s, c, i)) == Work(s) +
      if c.TimedOut? then 1 + CLOSE_WORK - WorkOf(s, c.frame) else 0
  {
    match c {
      case TimedOut(f) =>
        PhaseWork(s, f, ClosingDown);
        hide Sum, FrameWorks, JobWorks;
      case _ =>
        hide Sum, FrameWorks, JobWorks;
    }
  }

  /** A frame that no disconnect is may still open two. */
  lemma OtherFrameWork(s: Session, i: nat)
    requires i < |s.calls| && !s.phases[i].Done?
    ensures WorkOf(s, i) >= 1
    ensures !s.calls[i].caller.ByClose? ==> WorkOf(s, i) >= 1 + CLOSE_WORK
    ensures !s.calls[i].caller.ByClose? && s.phases[i].Running? ==> WorkOf(s, i) >= 1 + 2 * CLOSE_WORK
  {
  }

  lemma CloseOpensWork(s: Session, c: Closer)
    requires LinkedCloser(s, c) && !s.closingDown
    ensures Work(Close(s, c)) == Work(s) + 7 + if c.TimedOut? then 1 + CLOSE_WORK - WorkOf(s, c.frame) else 0
  {
    var i := |s.calls|;
    var t := s.(closingDown := true, closeFrame := Some(i));
    OpenWork(t, Disconnect(s.channelId), ByClose(c));
    var o := OpenFrame(t, Disconnect(s.channelId), ByClose(c));
    assert c.TimedOut? ==> WorkOf(o, c.frame) == WorkOf(s, c.frame);
    SuspendWork(o, c, i);
    hide Sum, FrameWorks, JobWorks, Suspend, OpenFrame, FrameWork;
  }

  lemma {:induction false} ReturnWork(s: Session, i: nat)
    requires MayReturn(s, i)
    ensures Work(ReturnFrame(s, i)) < Work(s)
    decreases i + 1, 0
  {
    hide Inv, Good, Finish, Started, Close, SendReturned, CloseDone, Clean, AckRefused, Work, WorkOf, Sum;
    var t := Finish(s, i);
    InTransit(s, i);
    FinishWork(s, i);
    OtherFrameWork(s, i);
    assert LinkedCall(s.calls[i], i, |s.jobs|);
    match s.calls[i].caller {
      case ByClose(c) =>
        FinishClosingKeepsInv(s, i);
        GoodMeaning(CloseDone(t));
        CloseDoneWork(t);
        ClosedWork(CloseDone(t), c);
      case ByStart =>
        StartedWork(t, s.loops[i].response);
      case BySend(j) =>
        FinishKeepsInv(s, i);
        if AckRefused(s.loops[i].response) {
          RefusedWork(t, j);
        } else {
          JobDelivered(t, j);
          SendReturnedWork(t, j);
        }
      case _ =>
    }
  }

  /** A refused acknowledge may cost one disconnect frame. */
  lemma RefusedWork(s: Session, j: nat)
    requires Inv(s, -1, -1, j)
    ensures j < |s.jobs| && Work(Close(s, AckFailed(j))) <= Work(s) + 7
  {
    JobDelivered(s, j);
    hide Inv, Good, Closed, SendReturned, Work, WorkOf, Sum, OpenFrame;
    if s.closingDown {
      SendReturnedWork(s, j);
      assert Close(s, AckFailed(j)) == Closed(s, AckFailed(j));
      ClosedRefused(s, j);
    } else {
      CloseOpensWork(s, AckFailed(j));
    }
  }

  lemma ClosedWork(s: Session, c: Closer)
    requires MayResume(s, c)
    ensures LinkedCloser(s, c) && Work(Closed(s, c)) <= Work(s)
    decreases Depth(c), 1
  {
    hide Inv, Good, MayReturn, ReturnFrame, SendReturned, Work, Sum;
    ResumedCloser(s, c);
    match c {
      case Detached =>
      case AckFailed(j) =>
        JobDelivered(s, j);
        SendReturnedWork(s, j);
      case TimedOut(f) =>
        ReturnWork(s, f);
    }
  }

  lemma OtherThanClosing(s: Session, f: nat)
    requires Inv(s, f, -1, -1) && f < |s.calls| && !s.closingDown
    ensures !s.calls[f].caller.ByClose? && !s.phases[f].Done?
  {
  }

  /** A time-out, with or without a disconnect frame of its own. */
  lemma TimeOutWork(s: Session, f: nat)
    requires MayClose(s, TimedOut(f))
    ensures f < |s.calls| && Work(Close(s, TimedOut(f))) < Work(s)
  {
    CloserInTransit(s, TimedOut(f));
    if s.closingDown {
      hide Inv, Closed, Work, WorkOf, Sum, ReturnFrame;
      assert MayReturn(s, f);
      ReturnWork(s, f);
      ClosedTimeOut(s, f);
    } else {
      OtherThanClosing(s, f);
      hide Inv, Close, Work, WorkOf, Sum;
      OtherFrameWork(s, f);
      CloseOpensWork(s, TimedOut(f));
    }
  }

  lemma ClosedTimeOut(s: Session, f: nat)
    requires f < |s.calls| && s.closingDown
    ensures Close(s, TimedOut(f)) == ReturnFrame(s, f)
  {
    hide ReturnFrame, SendReturned, OpenFrame, Suspend;
    assert Close(s, TimedOut(f)) == Closed(s, TimedOut(f));
  }

  // ------------------------------------------------------------ every internal step

  lemma TransmittedMeasure<R>(l: Loop<R>)
    requires Sound(l) && l.pc.Transmitting?
    ensures Measure(Transmitted(l)) < Measure(l)
  {
  }

  lemma AfterWaitMeasure<R>(l: Loop<R>)
    requires Sound(l) && l.pc.Queued?
    ensures Measure(AfterWait(l, l.pc.completion)) < Measure(l)
  {
  }

  lemma RunningWork(s: Session, i: nat, l: Loop<Response>)
    requires i < |s.calls| && s.phases[i].Running? && Measure(l) < Measure(s.loops[i])
    ensures Work(WithLoop(s, i, l)) < Work(s)
  {
    LoopWork(s, i, l);
    hide Work, Measure;
  }

  lemma FrameSentWork(s: Session, i: nat)
    requires Good(s) && i < |s.calls| && s.loops[i].pc.Transmitting?
    ensures Work(FrameSent(s, i)) < Work(s)
  {
    FrameFits(s, i);
    TransmittedMeasure(s.loops[i]);
    hide Good, Work, Transmitted, ReturnFrame, WithLoop, MayReturn, Measure;
    AfterSending(s, i);
    var l := Transmitted(s.loops[i]);
    RunningWork(s, i, l);
    if l.pc.Returned? {
      ReturnWork(WithLoop(s, i, l), i);
    }
  }

  lemma TransmitWork(s: Session, i: nat)
    requires i < |s.calls|
    ensures Work(Transmit(s, i)) == Work(s)
  {
  }

  lemma FrameResumedWork(s: Session, i: nat)
    requires Good(s) && i < |s.calls| && s.loops[i].pc.Queued?
    ensures Work(FrameResumed(s, i)) < Work(s)
  {
    FrameFits(s, i);
    AfterWaitMeasure(s.loops[i]);
    hide Good, Work, AfterWait, ReturnFrame, Close, WithLoop, Transmit, MayReturn, MayClose, Measure;
    AfterWaiting(s, i);
    var l := AfterWait(s.loops[i], s.loops[i].pc.completion);
    var t := WithLoop(s, i, l);
    RunningWork(s, i, l);
    if l.pc.Transmitting? {
      TransmitWork(t, i);
    } else if l.state == Timeout {
      TimeOutWork(t, i);
    } else {
      ReturnWork(t, i);
    }
  }

  lemma SendWork(s: Session, j: nat)
    requires j < |s.jobs|
    ensures Work(Send(s, j)) == Work(s) + 7 + 2 * CLOSE_WORK
  {
    var q := Tunnel(TunnelRequest(ConnectionHeader(s.channelId, s.sequence, 0), s.cemis[j]));
    OpenWork(s, q, BySend(j));
    hide Sum, FrameWorks, JobWorks, OpenFrame, Successor;
  }

  lemma ResendJobWork(l: Loop<Cemi>)
    requires Sound(l) && l.pc.Queued?
    ensures var r := AfterWait(l, l.pc.completion);
      JobWork(r) + (if r.pc.Transmitting? then 7 + 2 * CLOSE_WORK else 0) < JobWork(l)
  {
  }

  lemma JobResumedWork(s: Session, j: nat)
    requires Good(s) && j < |s.jobs| && s.jobs[j].pc.Queued?
    ensures Work(JobResumed(s, j)) < Work(s)
  {
    JobSound(s, j);
    ResendJobWork(s.jobs[j]);
    var l := AfterWait(s.jobs[j], s.jobs[j].pc.completion);
    JobsWork(s, j, l);
    SendWork(JobStep(s, j, l), j);
    hide Good, Work, AfterWait, Send, JobStep, JobWork;
  }

  lemma TimerWork(s: Session, i: nat, c: Completion)
    requires Good(s) && Waits(s, i)
    ensures Work(WithLoop(s, i, TimerDone(s.loops[i], c))) < Work(s)
  {
    FrameFits(s, i);
    RunningWork(s, i, TimerDone(s.loops[i], c));
    hide Good, Work;
  }

  lemma JobTimerWork(s: Session, j: nat, c: Completion)
    requires JobWaits(s, j)
    ensures Work(JobStep(s, j, TimerDone(s.jobs[j], c))) < Work(s)
  {
    JobsWork(s, j, TimerDone(s.jobs[j], c));
    hide Work, JobStep;
  }

  /** Every step of the event loop itself leaves less to do. */
  lemma InternalStepsWork(s: Session, a: Label)
    requires Good(s) && Internal(a) && Possible(s, a)
    ensures Work(Next(s, a)) < Work(s)
  {
    hide Good, Work, FrameSent, FrameResumed, JobStep, JobResumed, WithLoop;
    match a {
      case FrameSendDone(i) => FrameSentWork(s, i);
      case FrameExpire(i) => TimerWork(s, i, Expired);
      case FrameFail(i) => TimerWork(s, i, Failed);
      case FrameResume(i) => FrameResumedWork(s, i);
      case JobExpire(j) => JobTimerWork(s, j, Expired);
      case JobFail(j) => JobTimerWork(s, j, Failed);
      case JobResume(j) => JobResumedWork(s, j);
    }
  }

  /** In every run, between two calls or datagrams from outside the event loop
      makes at most as many steps as the work left at the start.  With
      `NothingIsStuck`: left alone, every `sendRequest`, every `close` and every
      group write returns. */
  lemma {:induction false} SessionComesToRest(states: seq<Session>, labels: seq<Label>, k: nat, n: nat)
    requires IsHistory(states, labels) && k <= n < |states|
    requires forall m :: k <= m < n ==> Internal(labels[m])
    ensures n - k + Work(states[n]) <= Work(states[k])
    decreases n
  {
    hide Good, Work, IsHistory, Possible, Next;
    if k < n {
      SessionComesToRest(states, labels, k, n - 1);
      HistoryIsGood(states, labels, n - 1);
      HistoryStep(states, labels, n - 1);
      InternalStepsWork(states[n - 1], labels[n - 1]);
    }
  }
}
