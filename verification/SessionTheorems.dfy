/** What holds of the tunnelling session in every run. */
module SessionTheorems {
  import opened Bytes
  import opened Wrappers
  import opened KnxAddresses
  import opened Npdu
  import opened CemiFrames
  import opened TunnelFrames
  import opened AsyncMessageStates
  import opened ClientRouting
  import opened TunnelingSession
  import opened SessionInvariants

  // ------------------------------------------------------------ acknowledges

  lemma StampOf(s: Session, i: nat)
    requires Good(s) && i < |s.calls| && s.calls[i].request.Tunnel?
    ensures s.calls[i].request.tunnel.header.sequence == Cast8(s.calls[i].ordinal)
  {
    assert CallOk(s.calls[i]);
    hide Cast8;
  }

  function SequenceOf(c: Call): byte
    requires c.request.Tunnel?
  {
    c.request.tunnel.header.sequence
  }

  lemma SequencesRepeatAt(s: Session, i: nat, k: nat)
    requires Good(s) && i < |s.calls| && k < |s.calls|
    requires s.calls[i].request.Tunnel? && s.calls[k].request.Tunnel?
    ensures SequenceOf(s.calls[i]) == SequenceOf(s.calls[k]) <==> s.calls[i].ordinal % 256 == s.calls[k].ordinal % 256
  {
    hide Good, Cast8;
    StampOf(s, i);
    StampOf(s, k);
    CastCongruent(s.calls[i].ordinal, s.calls[k].ordinal);
  }

  /** Tunnelling requests have the same sequence number exactly when their
      positions since the last zeroing are congruent modulo 256. */
  lemma SequencesRepeat(states: seq<Session>, labels: seq<Label>, n: nat, i: nat, k: nat)
    requires IsHistory(states, labels) && n < |states|
    requires i < |states[n].calls| && k < |states[n].calls|
    requires states[n].calls[i].request.Tunnel? && states[n].calls[k].request.Tunnel?
    ensures var c, d := states[n].calls[i], states[n].calls[k];
      SequenceOf(c) == SequenceOf(d) <==> c.ordinal % 256 == d.ordinal % 256
  {
    HistoryIsGood(states, labels, n);
    hide IsHistory, Good;
    SequencesRepeatAt(states[n], i, k);
  }

  /** Tunnelling requests of one count are stamped in the order of the frames. */
  lemma OrdinalsGrow(s: Session, i: nat, k: nat)
    requires Good(s) && i < k < |s.calls| && SameCount(s.calls[i], s.calls[k])
    ensures s.calls[i].ordinal < s.calls[k].ordinal
    ensures s.calls[k].epoch == s.epoch ==> s.calls[k].ordinal < s.sends
  {
    hide Cast8;
  }

  lemma NearOrdinals(a: nat, b: nat)
    requires a < b < a + 256
    ensures a % 256 != b % 256
  {
  }

  lemma {:induction false} FirstOfMatches(calls: seq<Call>, items: seq<nat>, r: Response)
    requires Within(items, |calls|)
    requires forall a, b :: 0 <= a < b < |items| ==> items[a] < items[b]
    requires FirstMatch(calls, items, r).Some?
    ensures forall k <- items :: Matches(calls[k].request, r) ==> FirstMatch(calls, items, r).value <= k
  {
    hide Matches;
    if !Matches(calls[items[0]].request, r) {
      FirstOfMatches(calls, items[1..], r);
    } else {
      assert FirstMatch(calls, items, r) == Some(items[0]);
    }
  }

  lemma ItemsSorted(s: Session)
    requires Good(s)
    ensures forall a, b :: 0 <= a < b < |s.sendItems| ==> s.sendItems[a] < s.sendItems[b]
  {
  }

  /** The pending items that an acknowledge with header `h` fits. */
  predicate Fits(s: Session, h: ConnectionHeader, i: nat) {
    i in s.sendItems && Matches(s.calls[i].request, TunnelAck(h))
  }

  /** A multiple of 256 sends apart, or in counts that a start separated. */
  predicate SendsApart(c: Call, d: Call) {
    c.ordinal % 256 == d.ordinal % 256 && (c.epoch == d.epoch ==> d.ordinal >= c.ordinal + 256)
  }

  /** The oldest of them. */
  ghost predicate Oldest(s: Session, h: ConnectionHeader, i: nat) {
    && Fits(s, h, i)
    && forall k: nat :: Fits(s, h, k) && k != i ==> i < k && SendsApart(s.calls[i], s.calls[k])
  }

  lemma FittingApart(s: Session, h: ConnectionHeader, i: nat, k: nat)
    requires Good(s) && Fits(s, h, i) && Fits(s, h, k) && i < k
    ensures SendsApart(s.calls[i], s.calls[k])
  {
    SequencesRepeatAt(s, i, k);
    if s.calls[i].epoch == s.calls[k].epoch {
      OrdinalsGrow(s, i, k);
      if s.calls[k].ordinal < s.calls[i].ordinal + 256 {
        NearOrdinals(s.calls[i].ordinal, s.calls[k].ordinal);
      }
    }
    hide Good;
  }

  lemma FirstIsOldest(s: Session, h: ConnectionHeader, i: nat)
    requires Good(s) && FirstMatch(s.calls, s.sendItems, TunnelAck(h)) == Some(i)
    ensures Oldest(s, h, i)
  {
    hide Good, SendsApart, FirstMatch;
    ItemsSorted(s);
    FirstOfMatches(s.calls, s.sendItems, TunnelAck(h));
    forall k: nat | Fits(s, h, k) && k != i
      ensures i < k && SendsApart(s.calls[i], s.calls[k])
    {
      FittingApart(s, h, i, k);
    }
  }

  /** In every run an acknowledge is stored in the oldest pending tunnelling
      request with its channel and sequence, and changes nothing else; without
      such a request it changes nothing at all. */
  lemma AckGoesToOldest(states: seq<Session>, labels: seq<Label>, n: nat, h: ConnectionHeader)
    requires IsHistory(states, labels) && n < |states|
    ensures var s := states[n]; var r := TunnelAck(h);
      || ((forall i: nat :: !Fits(s, h, i)) && Received(s, r) == s)
      || exists i: nat :: Oldest(s, h, i) && s.calls[i].request.Tunnel?
           && Received(s, r) == WithLoop(s, i, Replied(s.loops[i], r))
  {
    var s := states[n];
    HistoryIsGood(states, labels, n);
    hide IsHistory, Good, FirstMatch;
    match FirstMatch(s.calls, s.sendItems, TunnelAck(h)) {
      case None =>
        assert forall i <- s.sendItems :: !Matches(s.calls[i].request, TunnelAck(h));
      case Some(i) =>
        FirstIsOldest(s, h, i);
        assert Oldest(s, h, i) && s.calls[i].request.Tunnel?;
    }
  }

  /** Some acknowledge fits both of two pending tunnelling requests exactly when
      they share the channel and their positions are congruent modulo 256. */
  lemma SomeAckFitsBoth(states: seq<Session>, labels: seq<Label>, n: nat, i: nat, k: nat)
    requires IsHistory(states, labels) && n < |states|
    requires i in states[n].sendItems && k in states[n].sendItems
    requires states[n].calls[i].request.Tunnel? && states[n].calls[k].request.Tunnel?
    ensures var s := states[n]; var c, d := s.calls[i], s.calls[k];
      (exists h :: Fits(s, h, i) && Fits(s, h, k)) <==>
      c.request.tunnel.header.channel == d.request.tunnel.header.channel && c.ordinal % 256 == d.ordinal % 256
  {
    var s := states[n];
    var h := s.calls[i].request.tunnel.header;
    SequencesRepeat(states, labels, n, i, k);
    hide IsHistory;
    assert Fits(s, h, i);
    assert Fits(s, h, k) <==>
      h.channel == s.calls[k].request.tunnel.header.channel && h.sequence == SequenceOf(s.calls[k]);
  }

  // ------------------------------------------------------------ starts with nothing pending

  /** No tunnelling request is pending. */
  ghost predicate Calm(s: Session) {
    forall i <- s.sendItems :: !s.calls[i].request.Tunnel?
  }

  /** A run in which `start` is called only when no tunnelling request is pending. */
  ghost predicate IsCalmHistory(states: seq<Session>, labels: seq<Label>) {
    && IsHistory(states, labels)
    && forall k :: 0 <= k < |labels| && labels[k] == DoStart ==> Calm(states[k])
  }

  /** Every pending tunnelling request belongs to the current count. */
  ghost predicate Current(s: Session) {
    forall i <- s.sendItems :: s.calls[i].request.Tunnel? ==> s.calls[i].epoch == s.epoch
  }

  lemma StartIsCurrent(s: Session)
    requires Calm(s)
    ensures Current(Start(s))
  {
    var r := Start(s);
    assert r.sendItems == s.sendItems + [|s.calls|];
    assert r.calls[|s.calls|].request == Connect;
    forall i <- r.sendItems
      ensures !r.calls[i].request.Tunnel?
    {
      if i in s.sendItems {
        assert r.calls[i] == s.calls[i];
      }
    }
  }

  lemma FollowsCurrent(s: Session, r: Session)
    requires Current(s) && Follows(s, r)
    ensures Current(r)
  {
    forall i <- r.sendItems | r.calls[i].request.Tunnel?
      ensures r.calls[i].epoch == r.epoch
    {
      if i in s.sendItems {
        assert r.calls[i] == s.calls[i];
      }
    }
    hide PhasesLater;
  }

  lemma {:induction false} CalmIsCurrent(states: seq<Session>, labels: seq<Label>, n: nat)
    requires IsCalmHistory(states, labels) && n < |states|
    ensures Current(states[n])
  {
    hide Good, Possible, Next, Current, Calm, Follows;
    if n == 0 {
      InitialIsCurrent();
    } else {
      CalmIsCurrent(states, labels, n - 1);
      HistoryIsGood(states, labels, n - 1);
      HistoryStep(states, labels, n - 1);
      if labels[n - 1] == DoStart {
        StartIsCurrent(states[n - 1]);
        NextIsStart(states[n - 1]);
      } else {
        NextFollows(states[n - 1], labels[n - 1]);
        FollowsCurrent(states[n - 1], states[n]);
      }
    }
  }

  lemma InitialIsCurrent()
    ensures Current(INITIAL)
  {
  }

  lemma NextIsStart(s: Session)
    requires Possible(s, DoStart)
    ensures Next(s, DoStart) == Start(s)
  {
    hide Start;
  }

  /** No pending tunnelling request has been followed by 256 or more sends. */
  ghost predicate WithinWindow(s: Session) {
    forall i <- s.sendItems :: s.calls[i].request.Tunnel? ==> s.sends - s.calls[i].ordinal <= 256
  }

  lemma FitsOnce(s: Session, h: ConnectionHeader, i: nat, k: nat)
    requires Good(s) && Current(s) && WithinWindow(s) && Fits(s, h, i) && Fits(s, h, k)
    ensures i == k
  {
    if i < k {
      FittingApart(s, h, i, k);
      OrdinalsGrow(s, i, k);
    } else if k < i {
      FittingApart(s, h, k, i);
      OrdinalsGrow(s, k, i);
    }
    hide Good;
  }

  /** When starts find nothing pending and the window is kept, no two pending
      requests share channel and sequence, so an acknowledge is stored in the one
      item whose header it echoes. */
  lemma AckFindsItsRequest(states: seq<Session>, labels: seq<Label>, n: nat, h: ConnectionHeader, i: nat)
    requires IsCalmHistory(states, labels) && n < |states| && WithinWindow(states[n]) && Fits(states[n], h, i)
    ensures forall k: nat :: Fits(states[n], h, k) ==> k == i
    ensures var s := states[n]; Received(s, TunnelAck(h)) == WithLoop(s, i, Replied(s.loops[i], TunnelAck(h)))
  {
    HistoryIsGood(states, labels, n);
    CalmIsCurrent(states, labels, n);
    hide IsHistory, Good, WithinWindow, Current, Fits, Received;
    forall k: nat | Fits(states[n], h, k)
      ensures k == i
    {
      FitsOnce(states[n], h, i, k);
    }
    ReceivedAck(states[n], h, i);
  }

  lemma ReceivedAck(s: Session, h: ConnectionHeader, i: nat)
    requires Fits(s, h, i) && forall k: nat :: Fits(s, h, k) ==> k == i
    ensures Received(s, TunnelAck(h)) == WithLoop(s, i, Replied(s.loops[i], TunnelAck(h)))
  {
    hide FirstMatch, Matches;
    var m := FirstMatch(s.calls, s.sendItems, TunnelAck(h));
    assert m.Some? ==> Fits(s, h, m.value);
  }

  // ------------------------------------------------------------ closing down

  predicate LiveDisconnect(s: Session, i: nat) {
    i < |s.calls| && s.calls[i].caller.ByClose? && Live(s, i)
  }

  predicate PendingDisconnect(s: Session, i: nat) {
    i in s.sendItems && s.calls[i].request.Disconnect?
  }

  /** The connection is closing down exactly while a disconnect frame is live;
      there is never more than one, and so never more than one pending
      disconnect request. */
  lemma ClosingDownExactly(states: seq<Session>, labels: seq<Label>, n: nat)
    requires IsHistory(states, labels) && n < |states|
    ensures var s := states[n];
      && (s.closingDown <==> exists i: nat :: LiveDisconnect(s, i))
      && (forall i: nat, k: nat :: LiveDisconnect(s, i) && LiveDisconnect(s, k) ==> i == k)
      && (forall i: nat, k: nat :: PendingDisconnect(s, i) && PendingDisconnect(s, k) ==> i == k)
  {
    HistoryIsGood(states, labels, n);
    var s := states[n];
    hide IsHistory;
    ClosingDownOf(s);
  }

  lemma ClosingDownOf(s: Session)
    requires Good(s)
    ensures s.closingDown <==> exists i: nat :: LiveDisconnect(s, i)
    ensures forall i: nat :: LiveDisconnect(s, i) ==> s.closeFrame == Some(i)
    ensures forall i: nat :: PendingDisconnect(s, i) ==> LiveDisconnect(s, i)
  {
    hide Cast8;
    if s.closingDown {
      assert LiveDisconnect(s, s.closeFrame.value);
    }
    forall i: nat | PendingDisconnect(s, i)
      ensures LiveDisconnect(s, i)
    {
      assert CallOk(s.calls[i]) && Live(s, i);
    }
  }

  /** The frame after its last wait. */
  function AfterExpiry(s: Session, i: nat): Session
    requires i < |s.calls| && s.loops[i].pc.Queued?
  {
    WithLoop(s, i, AfterWait(s.loops[i], s.loops[i].pc.completion))
  }

  predicate TimesOut(s: Session, i: nat) {
    && i < |s.calls| && s.loops[i].pc.Queued?
    && Judged(s.loops[i], s.loops[i].pc.completion) == Timeout
  }

  lemma ResumedTimeOut(s: Session, i: nat)
    requires TimesOut(s, i)
    ensures FrameResumed(s, i) == Close(AfterExpiry(s, i), TimedOut(i))
  {
    hide Close;
  }

  lemma LiveWhileQueued(s: Session, i: nat)
    requires Good(s) && i < |s.calls| && s.loops[i].pc.Queued?
    ensures s.phases[i].Running?
    ensures s.calls[i].caller.ByClose? ==> s.closingDown
  {
    FrameFits(s, i);
    ClosingDownOf(s);
    hide Good;
    assert s.calls[i].caller.ByClose? ==> LiveDisconnect(s, i);
  }

  lemma CloseTwice(s: Session, c: Closer)
    requires LinkedCloser(s, c) && s.closingDown
    ensures Close(s, c) == Closed(s, c)
  {
    hide Closed, Suspend, OpenFrame;
  }

  lemma ClosedFrame(s: Session, i: nat)
    requires i < |s.calls|
    ensures Closed(s, TimedOut(i)) == ReturnFrame(s, i)
  {
    hide ReturnFrame, SendReturned;
  }

  lemma ClosedRefused(s: Session, j: nat)
    requires j < |s.jobs|
    ensures Closed(s, AckFailed(j)) == SendReturned(s, j)
  {
    hide SendReturned, ReturnFrame;
  }

  lemma ClosingLinked(s: Session, i: nat)
    requires i < |s.calls| && s.calls[i].caller.ByClose?
    ensures LinkedCloser(CloseDone(Finish(s, i)), s.calls[i].caller.closer)
  {
    assert LinkedCall(s.calls[i], i, |s.jobs|);
    hide Finish, CloseDone;
  }

  lemma ReturnOfClosing(s: Session, i: nat, c: Closer)
    requires i < |s.calls| && s.calls[i].caller == ByClose(c)
    requires LinkedCloser(CloseDone(Finish(s, i)), c)
    ensures ReturnFrame(s, i) == Closed(CloseDone(Finish(s, i)), c)
  {
    hide Finish, CloseDone, Closed, Close, SendReturned, Started, LinkedCloser, AckRefused, Linked;
  }

  /** What the session is when the disconnect frame `i` is done. */
  function ShutAfter(s: Session, i: nat): Session
    requires i < |s.calls|
  {
    Shut(NotClosing(Finish(s, i)), 1 + OpenSockets(s))
  }

  lemma ShutAfterMeaning(s: Session, i: nat)
    requires i < |s.calls|
    ensures CloseDone(Finish(s, i)) == ShutAfter(s, i)
  {
    CloseDoneMeaning(Finish(s, i));
    hide CloseDone, Shut, Without;
  }

  lemma TimedOutDisconnectAt(s: Session, i: nat)
    requires Good(s) && TimesOut(s, i) && s.calls[i].caller.ByClose?
    ensures var t := AfterExpiry(s, i);
      && s.closingDown
      && LinkedCloser(ShutAfter(t, i), s.calls[i].caller.closer)
      && FrameResumed(s, i) == Closed(ShutAfter(t, i), s.calls[i].caller.closer)
  {
    LiveWhileQueued(s, i);
    ResumedTimeOut(s, i);
    hide Good, ShutAfter, CloseDone, Finish, Close, Closed, Judged, AfterWait, FrameResumed, ReturnFrame;
    var t := AfterExpiry(s, i);
    ShutAfterMeaning(t, i);
    CloseTwice(t, TimedOut(i));
    ClosedFrame(t, i);
    ClosingLinked(t, i);
    ReturnOfClosing(t, i, s.calls[i].caller.closer);
  }

  /** A disconnect request that times out re-enters `close`, which returns at
      once; its own `close` then shuts the session down, so that both sockets are
      closed and nothing is pending when its caller runs on. */
  lemma TimedOutDisconnect(states: seq<Session>, labels: seq<Label>, n: nat, i: nat)
    requires IsHistory(states, labels) && n < |labels| && labels[n] == FrameResume(i)
    requires TimesOut(states[n], i) && states[n].calls[i].caller.ByClose?
    ensures var s := states[n]; var shut := ShutAfter(AfterExpiry(s, i), i);
      && s.closingDown
      && LinkedCloser(shut, s.calls[i].caller.closer)
      && states[n + 1] == Closed(shut, s.calls[i].caller.closer)
  {
    HistoryIsGood(states, labels, n);
    assert states[n + 1] == Next(states[n], FrameResume(i)) == FrameResumed(states[n], i);
    hide Good, IsHistory, ShutAfter, Closed, FrameResumed, AfterExpiry;
    TimedOutDisconnectAt(states[n], i);
  }

  /** What `closeWithoutDisconnect` leaves behind, whichever sockets were open:
      both closed, the session reset, what was pending cancelled, and one notice
      more than there were open sockets. */
  lemma CloseWithoutDisconnectEnds(s: Session)
    ensures var r := CloseWithoutDisconnect(s);
      && r == s.(loops := r.loops, sendItems := [], sequence := 0, knxAddress := NO_ADDRESS, controlOpen := false,
                 dataOpen := false, notices := r.notices, linkUp := false, epoch := r.epoch, sends := 0)
      && (forall i <- s.sendItems :: r.loops[i] == Cancelled(s.loops[i]))
      && (forall i :: 0 <= i < |s.loops| && i !in s.sendItems ==> r.loops[i] == s.loops[i])
      && |r.notices| == |s.notices| + 1 + OpenSockets(s)
      && r.notices[..|s.notices|] == s.notices
      && (forall k :: |s.notices| <= k < |r.notices| ==> r.notices[k] == OnDisconnect)
  {
    assert forall i <- s.sendItems :: i < |s.loops|;
    CloseWithoutDisconnectMeaning(s);
    hide CloseWithoutDisconnect, Cancelled, Linked;
  }

  // ------------------------------------------------------------ time-outs

  lemma WithLoopFollows(s: Session, i: nat, l: Loop<Response>)
    requires i < |s.calls|
    ensures Follows(s, WithLoop(s, i, l))
  {
    FollowsSame(s, WithLoop(s, i, l));
    hide Follows;
  }

  lemma FrameSentFollows(s: Session, i: nat)
    requires Good(s) && i < |s.calls| && s.loops[i].pc.Transmitting?
    ensures Follows(s, FrameSent(s, i))
  {
    hide Good, Follows, Transmitted, ReturnFrame, WithLoop, MayReturn;
    AfterSending(s, i);
    var l := Transmitted(s.loops[i]);
    var t := WithLoop(s, i, l);
    WithLoopFollows(s, i, l);
    if l.pc.Returned? {
      ReturnKeepsInv(t, i);
      FollowsTransitive(s, t, ReturnFrame(t, i));
    }
  }

  lemma TransmitFollows(s: Session, i: nat)
    requires i < |s.calls|
    ensures Follows(s, Transmit(s, i))
  {
    FollowsSame(s, Transmit(s, i));
    hide Follows;
  }

  lemma FrameResumedFollows(s: Session, i: nat)
    requires Good(s) && i < |s.calls| && s.loops[i].pc.Queued?
    ensures Follows(s, FrameResumed(s, i))
  {
    hide Good, Follows, AfterWait, ReturnFrame, Close, WithLoop, Transmit, MayReturn, MayClose;
    AfterWaiting(s, i);
    var l := AfterWait(s.loops[i], s.loops[i].pc.completion);
    var t := WithLoop(s, i, l);
    WithLoopFollows(s, i, l);
    if l.pc.Transmitting? {
      TransmitFollows(t, i);
    } else if l.state == Timeout {
      CloseKeepsInv(t, TimedOut(i));
    } else {
      ReturnKeepsInv(t, i);
    }
    FollowsTransitive(s, t, FrameResumed(s, i));
  }

  lemma SendFollows(s: Session, j: nat)
    requires j < |s.jobs|
    ensures Follows(s, Send(s, j))
  {
    hide Successor;
  }

  lemma JobStepFollows(s: Session, j: nat, l: Loop<Cemi>)
    requires j < |s.jobs|
    ensures Follows(s, JobStep(s, j, l))
  {
    FollowsSame(s, JobStep(s, j, l));
    hide Follows;
  }

  lemma JobResumedFollows(s: Session, j: nat)
    requires j < |s.jobs| && s.jobs[j].pc.Queued?
    ensures Follows(s, JobResumed(s, j))
  {
    hide Follows, AfterWait, Send, JobStep;
    var l := AfterWait(s.jobs[j], s.jobs[j].pc.completion);
    var t := JobStep(s, j, l);
    JobStepFollows(s, j, l);
    if l.pc.Transmitting? {
      SendFollows(t, j);
      FollowsTransitive(s, t, Send(t, j));
    }
  }

  lemma SubmitFollows(s: Session, c: Cemi)
    ensures Follows(s, Submit(s, c))
  {
    var t := AddJob(s, c);
    FollowsSame(s, t);
    SendFollows(t, |s.jobs|);
    FollowsTransitive(s, t, Submit(s, c));
    hide Follows, Send;
  }

  lemma ReceivedFollows(s: Session, r: Response)
    ensures Follows(s, Received(s, r))
  {
    FollowsSame(s, Received(s, r));
    hide Follows, FirstMatch, Replied;
  }

  lemma ReceivedTunnelFollows(s: Session, t: TunnelRequest)
    ensures Follows(s, ReceivedTunnel(s, t))
  {
    FollowsSame(s, ReceivedTunnel(s, t));
    hide Follows, KeyOf, Replied;
  }

  lemma ReceivedDisconnectFollows(s: Session, channel: byte)
    ensures Follows(s, ReceivedDisconnect(s, channel))
  {
    FollowsSame(s, ReceivedDisconnect(s, channel));
    hide Follows, CancelAll;
  }

  lemma ReadErrorFollows(s: Session)
    ensures Follows(s, s.(controlOpen := false)) && Follows(s, s.(dataOpen := false))
  {
    FollowsSame(s, s.(controlOpen := false));
    FollowsSame(s, s.(dataOpen := false));
    hide Follows;
  }

  lemma StartLater(s: Session)
    ensures Later(s, Start(s))
  {
    LaterSame(s, Opened(s));
    OpenFollows(Opened(s), Connect, ByStart);
    LaterTransitive(s, Opened(s), Start(s));
    hide Later, OpenFrame;
  }

  lemma NextFollows(s: Session, a: Label)
    requires Good(s) && Possible(s, a) && a != DoStart
    ensures Follows(s, Next(s, a))
  {
    hide Good, Follows, Start, OpenFrame, Close, Submit, FrameSent, FrameResumed, JobStep, JobResumed, Received,
      ReceivedTunnel, ReceivedDisconnect, WithLoop, MayStart, Throws, KeyOf;
    match a {
      case DoDescribe => OpenFollows(s, Description, ByDescription);
      case DoKeepAlive => OpenFollows(s, ConnectState(s.channelId), ByKeepAlive);
      case DoClose => CloseKeepsInv(s, Detached);
      case DoSubmit(c) => SubmitFollows(s, c);
      case FrameSendDone(i) => FrameSentFollows(s, i);
      case FrameResume(i) => FrameResumedFollows(s, i);
      case JobResume(j) => JobResumedFollows(s, j);
      case FrameExpire(i) => WithLoopFollows(s, i, TimerDone(s.loops[i], Expired));
      case FrameFail(i) => WithLoopFollows(s, i, TimerDone(s.loops[i], Failed));
      case JobExpire(j) => JobStepFollows(s, j, TimerDone(s.jobs[j], Expired));
      case JobFail(j) => JobStepFollows(s, j, TimerDone(s.jobs[j], Failed));
      case Receive(r) => ReceivedFollows(s, r);
      case ReceiveTunnel(t) => ReceivedTunnelFollows(s, t);
      case ReceiveDisconnect(channel) => ReceivedDisconnectFollows(s, channel);
      case ReadError(_) => ReadErrorFollows(s);
    }
  }

  lemma NextLater(s: Session, a: Label)
    requires Good(s) && Possible(s, a)
    ensures Later(s, Next(s, a))
  {
    hide Good, Later, Start, MayStart, ItemsLater;
    if a == DoStart {
      StartLater(s);
    } else {
      NextFollows(s, a);
    }
  }

  lemma {:induction false} HistoryLater(states: seq<Session>, labels: seq<Label>, k: nat, n: nat)
    requires IsHistory(states, labels) && k <= n < |states|
    ensures Later(states[k], states[n])
    decreases n
  {
    hide Later, Good, Possible, Next, IsHistory;
    if k == n {
      LaterSame(states[k], states[n]);
    } else {
      HistoryLater(states, labels, k, n - 1);
      HistoryIsGood(states, labels, n - 1);
      HistoryStep(states, labels, n - 1);
      NextLater(states[n - 1], labels[n - 1]);
      LaterTransitive(states[k], states[n - 1], states[n]);
    }
  }

  // ------------------------------------------------------------ listeners

  lemma SeparatedIn(s: Session)
    requires Good(s)
    ensures Separated(s.notices)
  {
    hide Separated;
  }

  lemma SeparatedSuffix(notices: seq<Notice>, from: nat)
    requires Separated(notices) && from <= |notices|
    ensures Separated(notices[from..])
  {
    var heard := notices[from..];
    forall i, j | 0 <= i < j < |heard| && heard[i].OnConnect? && heard[j].OnConnect?
      ensures exists k :: i < k < j && heard[k].OnDisconnect?
    {
      assert notices[from + i].OnConnect? && notices[from + j].OnConnect?;
      var k :| from + i < k < from + j && notices[k].OnDisconnect?;
      assert heard[k - from].OnDisconnect?;
    }
  }

  /** Between two connect notices every listener, whenever it was added, gets a
      disconnect notice. */
  lemma ListenersHearOfEveryEnd(states: seq<Session>, labels: seq<Label>, n: nat, added: nat)
    requires IsHistory(states, labels) && n < |states| && added <= |states[n].notices|
    ensures Separated(states[n].notices[added..])
  {
    HistoryIsGood(states, labels, n);
    hide Good, IsHistory, Separated;
    SeparatedIn(states[n]);
    SeparatedSuffix(states[n].notices, added);
  }

  /** A disconnect request for another channel changes nothing; one for this
      channel is answered, resets the session and is told, whatever the sockets. */
  lemma DisconnectRequests(s: Session, channel: byte)
    ensures ReceivedDisconnect(s, channel) == s <==> channel != s.channelId
    ensures channel == s.channelId ==> var r := ReceivedDisconnect(s, channel);
      && r.wire == s.wire + [Disconnected(channel)] && r.notices == s.notices + [OnDisconnect]
      && r == s.(wire := r.wire, notices := r.notices, loops := r.loops, sendItems := [], sequence := 0,
                 knxAddress := NO_ADDRESS, linkUp := false, epoch := s.epoch + 1, sends := 0)
      && |r.loops| == |s.loops|
      && (forall i :: 0 <= i < |s.loops| ==>
            r.loops[i] == if i in s.sendItems then Cancelled(s.loops[i]) else s.loops[i])
  {
    assert forall i <- s.sendItems :: i < |s.loops|;
    assert |ReceivedDisconnect(s, channel).notices| == |s.notices| + if channel == s.channelId then 1 else 0;
    hide Linked;
  }

  // ------------------------------------------------------------ what a group write sends

  predicate SentFor(d: Datagram, calls: seq<Call>, j: nat, n: nat) {
    d.Sent? && d.frame < n <= |calls| && calls[d.frame].caller == BySend(j)
  }

  /** The datagrams that the first `n` frames sent for job `j`. */
  function JobSends(wire: seq<Datagram>, calls: seq<Call>, j: nat, n: nat): nat {
    if wire == [] then 0
    else JobSends(Front(wire), calls, j, n) + if SentFor(Last(wire), calls, j, n) then 1 else 0
  }

  lemma {:induction false} OneFrameMore(wire: seq<Datagram>, calls: seq<Call>, j: nat, n: nat)
    requires n < |calls|
    ensures JobSends(wire, calls, j, n + 1) ==
            JobSends(wire, calls, j, n) + if calls[n].caller == BySend(j) then SendsOf(wire, n) else 0
  {
    if wire != [] {
      OneFrameMore(Front(wire), calls, j, n);
    }
  }

  lemma {:induction false} NoFrameNoSends(wire: seq<Datagram>, calls: seq<Call>, j: nat)
    ensures JobSends(wire, calls, j, 0) == 0
  {
    if wire != [] {
      NoFrameNoSends(Front(wire), calls, j);
    }
  }

  lemma {:induction false} SendsByFrames(wire: seq<Datagram>, calls: seq<Call>, j: nat, n: nat)
    requires n <= |calls| && forall i :: 0 <= i < |calls| ==> SendsOf(wire, i) <= 2
    ensures JobSends(wire, calls, j, n) <= 2 * FramesOf(calls[..n], j)
    decreases n
  {
    hide JobSends, SendsOf;
    if n == 0 {
      NoFrameNoSends(wire, calls, j);
    } else {
      SendsByFrames(wire, calls, j, n - 1);
      OneFrameMore(wire, calls, j, n - 1);
      assert calls[..n] == calls[..n - 1] + [calls[n - 1]];
      FramesAppend(calls[..n - 1], calls[n - 1], j);
    }
  }

  lemma SendsOfFrames(s: Session)
    requires Good(s)
    ensures forall i :: 0 <= i < |s.calls| ==> SendsOf(s.wire, i) + s.loops[i].attempts == 2
  {
    hide SendsOf;
  }

  lemma FramesOfJobs(s: Session, j: nat)
    requires Good(s) && j < |s.jobs|
    ensures FramesOf(s.calls, j) + s.jobs[j].attempts == 2
  {
    hide FramesOf;
  }

  lemma AtMostFourOf(s: Session, j: nat)
    requires Good(s) && j < |s.jobs|
    ensures FramesOf(s.calls, j) <= 2
    ensures JobSends(s.wire, s.calls, j, |s.calls|) <= 4
    ensures forall i :: 0 <= i < |s.calls| ==> SendsOf(s.wire, i) <= 2
  {
    hide Good, SendsOf, FramesOf, JobSends;
    SendsOfFrames(s);
    FramesOfJobs(s, j);
    SendsByFrames(s.wire, s.calls, j, |s.calls|);
    assert s.calls[..|s.calls|] == s.calls;
  }

  /** One group write or read opens at most two requests and puts at most four
      datagrams on the wire; every request of any kind sends at most two. */
  lemma AtMostFourDatagrams(states: seq<Session>, labels: seq<Label>, n: nat, j: nat)
    requires IsHistory(states, labels) && n < |states| && j < |states[n].jobs|
    ensures var s := states[n];
      && FramesOf(s.calls, j) <= 2
      && JobSends(s.wire, s.calls, j, |s.calls|) <= 4
      && (forall i :: 0 <= i < |s.calls| ==> SendsOf(s.wire, i) <= 2)
  {
    HistoryIsGood(states, labels, n);
    hide IsHistory, Good, SendsOf, FramesOf, JobSends;
    AtMostFourOf(states[n], j);
  }

  lemma DatagramOf(s: Session, a: nat)
    requires Good(s) && a < |s.wire| && s.wire[a].Sent?
    ensures s.wire[a].frame < |s.calls|
    ensures var i := s.wire[a].frame; s.wire[a] == Sent(SocketFor(s.calls[i].request), s.calls[i].request, i)
    ensures CallOk(s.calls[s.wire[a].frame])
  {
    hide SendsOf, CallOk;
  }

  /** The datagrams of one request are identical, header and frame, and only
      tunnelling requests travel on the data socket. */
  lemma ResendsAreIdentical(states: seq<Session>, labels: seq<Label>, n: nat, a: nat, b: nat)
    requires IsHistory(states, labels) && n < |states| && a < |states[n].wire| && b < |states[n].wire|
    requires states[n].wire[a].Sent? && states[n].wire[b].Sent? && states[n].wire[a].frame == states[n].wire[b].frame
    ensures var x, y := states[n].wire[a], states[n].wire[b];
      && x == y
      && (x.socket == DataSocket <==> x.request.Tunnel?)
      && (x.socket == DataSocket <==> x.frame < |states[n].calls| && states[n].calls[x.frame].caller.BySend?)
  {
    HistoryIsGood(states, labels, n);
    hide IsHistory, Good, Cast8;
    DatagramOf(states[n], a);
    DatagramOf(states[n], b);
  }

  /** Two requests with no zeroing of the sequence between them and fewer than 256
      sends apart, such as the two attempts of one group write, have different
      sequence numbers. */
  lemma AttemptsDiffer(states: seq<Session>, labels: seq<Label>, n: nat, i: nat, k: nat)
    requires IsHistory(states, labels) && n < |states| && i < k < |states[n].calls|
    requires SameCount(states[n].calls[i], states[n].calls[k])
    requires states[n].calls[k].ordinal - states[n].calls[i].ordinal < 256
    ensures SequenceOf(states[n].calls[i]) != SequenceOf(states[n].calls[k])
  {
    HistoryIsGood(states, labels, n);
    hide IsHistory, Good;
    OrdinalsGrow(states[n], i, k);
    SequencesRepeatAt(states[n], i, k);
    NearOrdinals(states[n].calls[i].ordinal, states[n].calls[k].ordinal);
  }

  // ------------------------------------------------------------ confirmations

  lemma PendingUnderKey(s: Session, j: nat)
    requires Good(s) && j < |s.jobs| && !s.jobs[j].pc.Returned?
    ensures KeyOf(s.cemis[j]) in s.requests && s.requests[KeyOf(s.cemis[j])] == j
  {
    hide KeyOf;
  }

  /** The confirmation of a pending request, written by the gateway from the
      tunnel's own address and parsed back, is stored in the job of that request
      and in no other. */
  lemma ConfirmationFindsItsJob(
      states: seq<Session>, labels: seq<Label>, n: nat, j: nat, h: ConnectionHeader, rest: seq<byte>)
    requires IsHistory(states, labels) && n < |states| && j < |states[n].jobs|
    requires !states[n].jobs[j].pc.Returned?
    requires var c := states[n].cemis[j];
      Writable(c) && c.destination.Group? && c.npdu.apci.apciType < 8 && GroupInRange(c.destination.address)
    ensures var s := states[n];
      var echo := TunnelRequest(h, Echo(s.cemis[j], s.knxAddress));
      var p := ParseIpHeader(TunnelRequestBytes(echo) + rest);
      && p.Ok? && ParseTunnelRequest(p.rest).Ok? && ParseTunnelRequest(p.rest).rest == rest
      && var t := ParseTunnelRequest(p.rest).value;
         && t.header == h
         && !Throws(s, t.cemi)
         && ReceivedTunnel(s, t).jobs == s.jobs[j := Replied(s.jobs[j], t.cemi)]
  {
    var s := states[n];
    var c := s.cemis[j];
    var echo := TunnelRequest(h, Echo(c, s.knxAddress));
    HistoryIsGood(states, labels, n);
    hide IsHistory, Good, TunnelRequestBytes, ParseIpHeader, ParseTunnelRequest, Writable, IndividualInRange,
      GroupInRange, KeyOf, ParseCemi, CemiBytes, Replied, Linked;
    EchoWritable(c, s.knxAddress);
    TunnelRequestRoundTrip(echo, rest);
    EchoKey(c, s.knxAddress, rest);
    CemiRoundTrip(Echo(c, s.knxAddress), rest);
    PendingUnderKey(s, j);
  }
}
